/** The text utilities of the lyrics service (line limits, stanza layout,
    verse grouping, rhyme pairing, theme and mood handling) and the
    ownership and rating checks on stored compositions. Locale-dependent
    lower-casing is a parameter `lower`. */
module LyricsService {
  import opened Wrappers
  import opened JavaText

  // ---- themes ----

  const KhaiMon: string := "khai m\U{F4}n"
  const ChucTung: string := "ch\U{FA}c t\U{1EE5}ng"
  const QueHuong: string := "qu\U{EA} h\U{1B0}\U{1A1}ng"
  const TienBiet: string := "ti\U{1EC5}n bi\U{1EC7}t"
  const Spring: string := "spring"

  /** The keys of the built-in template table. */
  const TemplateKeys: set<string> := {KhaiMon, ChucTung, QueHuong, TienBiet}

  const Mo: string := "m\U{1EDF}"
  const Chuc: string := "ch\U{FA}c"
  const Que: string := "qu\U{EA}"
  const KetThuc: string := "k\U{1EBF}t th\U{FA}c"

  /** normalizeTheme, with every substring test the code makes, in order. */
  function NormalizeTheme(theme: Option<string>, lower: string -> string): (r: string)
    ensures theme.None? <==> r == Spring
    ensures theme.Some? ==> r in TemplateKeys
    ensures Spring !in TemplateKeys
  {
    if theme.None? then Spring
    else
      var l := lower(theme.value);
      if Contains(l, Mo) || Contains(l, Mo + " r\U{E0}o") || Contains(l, Mo + " c\U{1EED}a")
         || Contains(l, Mo + " ng\U{F5}") || Contains(l, KhaiMon) then KhaiMon
      else if Contains(l, Chuc) || Contains(l, ChucTung) then ChucTung
      else if Contains(l, Que) || Contains(l, QueHuong) then QueHuong
      else if Contains(l, TienBiet) || Contains(l, KetThuc) then TienBiet
      else ChucTung
  }

  /** The theme chosen by the shortest keywords alone. */
  function ThemeByKeyword(l: string): string {
    if Contains(l, Mo) || Contains(l, KhaiMon) then KhaiMon
    else if Contains(l, Chuc) then ChucTung
    else if Contains(l, Que) then QueHuong
    else if Contains(l, TienBiet) || Contains(l, KetThuc) then TienBiet
    else ChucTung
  }

  /** An occurrence of u + v is an occurrence of u. */
  lemma {:induction false} ContainsLonger(s: string, u: string, v: string)
    requires Contains(s, u + v)
    ensures Contains(s, u)
    decreases |s|
  {
    if StartsWith(s, u + v) {
      assert s[..|u|] == (u + v)[..|u|];
    } else {
      ContainsLonger(s[1..], u, v);
    }
  }

  /** The longer tests of normalizeTheme never decide anything: each
      contains a shorter keyword tested before it. */
  lemma NormalizeThemeByKeyword(theme: string, lower: string -> string)
    ensures NormalizeTheme(Some(theme), lower) == ThemeByKeyword(lower(theme))
  {
    var l := lower(theme);
    if Contains(l, Mo + " r\U{E0}o") { ContainsLonger(l, Mo, " r\U{E0}o"); }
    if Contains(l, Mo + " c\U{1EED}a") { ContainsLonger(l, Mo, " c\U{1EED}a"); }
    if Contains(l, Mo + " ng\U{F5}") { ContainsLonger(l, Mo, " ng\U{F5}"); }
    if Contains(l, ChucTung) {
      assert ChucTung == Chuc + " t\U{1EE5}ng";
      ContainsLonger(l, Chuc, " t\U{1EE5}ng");
    }
    if Contains(l, QueHuong) {
      assert QueHuong == Que + " h\U{1B0}\U{1A1}ng";
      ContainsLonger(l, Que, " h\U{1B0}\U{1A1}ng");
    }
  }

  const TagHappy: string := "(Giai \U{111}i\U{1EC7}u vui t\U{1B0}\U{1A1}i)\n"
  const TagSad: string := "(Giai \U{111}i\U{1EC7}u tr\U{1EA7}m bu\U{1ED3}n)\n"
  const TagRomantic: string := "(Giai \U{111}i\U{1EC7}u l\U{E3}ng m\U{1EA1}n)\n"

  /** applyMoodToLyrics: one tag line for the first of "vui", "buồn",
      "lãng mạn" found in the lower-cased mood; otherwise no change. */
  function ApplyMoodToLyrics(lyrics: string, mood: string, lower: string -> string): (r: string)
    ensures EndsWith(r, lyrics)
    ensures Contains(lower(mood), "vui") ==> r == TagHappy + lyrics
    ensures !Contains(lower(mood), "vui") && Contains(lower(mood), "bu\U{1ED3}n") ==> r == TagSad + lyrics
    ensures (!Contains(lower(mood), "vui") && !Contains(lower(mood), "bu\U{1ED3}n")
             && Contains(lower(mood), "l\U{E3}ng m\U{1EA1}n")) ==> r == TagRomantic + lyrics
    ensures r == lyrics <==> !Contains(lower(mood), "vui") && !Contains(lower(mood), "bu\U{1ED3}n")
                             && !Contains(lower(mood), "l\U{E3}ng m\U{1EA1}n")
  {
    var m := lower(mood);
    if Contains(m, "vui") then TagHappy + lyrics
    else if Contains(m, "bu\U{1ED3}n") then TagSad + lyrics
    else if Contains(m, "l\U{E3}ng m\U{1EA1}n") then TagRomantic + lyrics
    else lyrics
  }

  // ---- line limit ----

  /** Occurrences of `c` in `s`. */
  function CountOf(s: string, c: char): nat
    decreases |s|
  {
    if s == [] then 0 else (if s[0] == c then 1 else 0) + CountOf(s[1..], c)
  }

  lemma {:induction false} CountOfAppend(a: string, b: string, c: char)
    ensures CountOf(a + b, c) == CountOf(a, c) + CountOf(b, c)
    decreases |a|
  {
    if a == [] {
      assert a + b == b;
    } else {
      assert (a + b)[1..] == a[1..] + b;
      CountOfAppend(a[1..], b, c);
    }
  }

  lemma CountOfAbsent(s: string, c: char)
    requires c !in s
    ensures CountOf(s, c) == 0
    decreases |s|
  {
    if s != [] {
      CountOfAbsent(s[1..], c);
    }
  }

  /** Putting one character in front of a text and of a prefix of it keeps
      the prefix relation and adds that character to the count. */
  lemma PrefixCons(c: char, t: string, q: string, sep: char)
    requires StartsWith(t, q + [sep])
    ensures StartsWith([c] + t, [c] + q + [sep])
    ensures CountOf([c] + q, sep) == CountOf(q, sep) + (if c == sep then 1 else 0)
  {
    assert ([c] + t)[..|[c] + q + [sep]|] == [c] + t[..|q + [sep]|];
    CountOfAppend([c], q, sep);
  }

  /** The first k pieces of SplitAll joined back, followed by the separator,
      are the beginning of the text, with k - 1 separators inside. */
  lemma {:induction false} SplitAllPrefix(s: string, sep: char, k: nat)
    requires 1 <= k < |SplitAll(s, sep)|
    ensures var p := Join(SplitAll(s, sep)[..k], [sep]);
            StartsWith(s, p + [sep]) && CountOf(p, sep) == k - 1
    decreases |s|
  {
    var parts := SplitAll(s, sep);
    var rest := SplitAll(s[1..], sep);
    assert s == [s[0]] + s[1..];
    if s[0] == sep {
      assert parts == [""] + rest;
      if k == 1 {
        assert parts[..1] == [""];
      } else {
        SplitAllPrefix(s[1..], sep, k - 1);
        var q := Join(rest[..k - 1], [sep]);
        assert parts[..k] == [""] + rest[..k - 1];
        assert Join(parts[..k], [sep]) == [sep] + q;
        PrefixCons(sep, s[1..], q, sep);
      }
    } else {
      assert parts == [[s[0]] + rest[0]] + rest[1..];
      SplitAllPrefix(s[1..], sep, k);
      var q := Join(rest[..k], [sep]);
      JoinHead(s[0], rest[..k], [sep]);
      assert parts[..k] == [[s[0]] + rest[..k][0]] + rest[..k][1..];
      assert Join(parts[..k], [sep]) == [s[0]] + q;
      PrefixCons(s[0], s[1..], q, sep);
    }
  }

  /** Putting a character in front of the first piece puts it in front of the join. */
  lemma JoinHead(c: char, parts: seq<string>, sep: string)
    requires parts != []
    ensures Join([[c] + parts[0]] + parts[1..], sep) == [c] + Join(parts, sep)
  {
    var q := [[c] + parts[0]] + parts[1..];
    if |parts| > 1 {
      assert q[1..] == parts[1..];
    }
  }

  /** postProcessLyrics: with a line limit that the text exceeds, only the
      first maxLines lines are kept (a negative limit makes copyOfRange
      throw); the result is trimmed. */
  function PostProcessLyrics(lyrics: string, maxLines: Option<int>): (r: Result<string>)
    ensures r.Err? <==> maxLines.Some? && maxLines.value < 0 && |Lines(lyrics)| > maxLines.value
    ensures r.Ok? && maxLines.Some? && 0 <= maxLines.value < |Lines(lyrics)|
            ==> r.value == Trim(Join(Lines(lyrics)[..maxLines.value], "\n"))
    ensures r.Ok? && (maxLines.None? || |Lines(lyrics)| <= maxLines.value) ==> r.value == Trim(lyrics)
  {
    if maxLines.Some? && |Lines(lyrics)| > maxLines.value then
      if maxLines.value < 0 then Err("0 > " + IntToString(maxLines.value))
      else Ok(Trim(Join(Lines(lyrics)[..maxLines.value], "\n")))
    else Ok(Trim(lyrics))
  }

  /** The kept text is the beginning of the lyrics up to (not including)
      the maxLines-th newline; a limit of 0 keeps nothing. */
  lemma TruncationIsPrefix(lyrics: string, m: nat)
    requires m < |Lines(lyrics)|
    ensures m == 0 ==> PostProcessLyrics(lyrics, Some(m)) == Ok("")
    ensures m > 0 ==> var p := Join(Lines(lyrics)[..m], "\n");
                      && StartsWith(lyrics, p + "\n") && CountOf(p, '\n') == m - 1
                      && PostProcessLyrics(lyrics, Some(m)) == Ok(Trim(p))
  {
    if m > 0 {
      assert '\n' in lyrics;
      var all := SplitAll(lyrics, '\n');
      var lines := DropTrailingEmpty(all);
      assert Lines(lyrics) == lines;
      assert lines[..m] == all[..m];
      SplitAllPrefix(lyrics, '\n', m);
    }
  }

  // ---- stanza layout ----

  /** line.trim().isEmpty(), stated without Trim (Trim's contract makes
      the two the same). */
  predicate IsBlankLine(l: string) {
    forall i :: 0 <= i < |l| ==> IsTrimmable(l[i])
  }

  /** What formatLyrics writes for one line, given the count of non-blank
      lines written since the last break: a blank line becomes an empty
      line; the fourth line of a run is followed by an extra empty line. */
  function StepLines(line: string, count: int): seq<string> {
    if IsBlankLine(line) then [""]
    else if count + 1 == 4 then [line, ""]
    else [line]
  }

  /** The counter after a line. */
  function StepCount(line: string, count: int): int {
    if IsBlankLine(line) || count + 1 == 4 then 0 else count + 1
  }

  /** The lines formatLyrics writes, each to be followed by a newline. */
  function OutLines(lines: seq<string>, count: int): seq<string>
    decreases |lines|
  {
    if lines == [] then []
    else StepLines(lines[0], count) + OutLines(lines[1..], StepCount(lines[0], count))
  }

  /** Each line followed by a newline. */
  function Render(ls: seq<string>): string
    decreases |ls|
  {
    if ls == [] then "" else ls[0] + "\n" + Render(ls[1..])
  }

  lemma {:induction false} RenderAppend(a: seq<string>, b: seq<string>)
    ensures Render(a + b) == Render(a) + Render(b)
    decreases |a|
  {
    if a == [] {
      assert a + b == b;
    } else {
      assert (a + b)[1..] == a[1..] + b;
      RenderAppend(a[1..], b);
    }
  }

  /** The text still to be written after line i, together with what is
      already written, is the whole layout. */
  lemma FormatInvariantStep(lines: seq<string>, i: nat, c: int, formatted: string, total: string)
    requires i < |lines|
    requires formatted + Render(OutLines(lines[i..], c)) == total
    ensures (formatted + Render(StepLines(lines[i], c))) + Render(OutLines(lines[i + 1..], StepCount(lines[i], c))) == total
  {
    assert lines[i..][1..] == lines[i + 1..];
    RenderAppend(StepLines(lines[i], c), OutLines(lines[i + 1..], StepCount(lines[i], c)));
  }

  /** What each branch of the loop body appends. */
  lemma StepBlank(f: string, line: string, c: int)
    requires IsBlankLine(line)
    ensures f + "\n" == f + Render(StepLines(line, c)) && StepCount(line, c) == 0
  {
  }

  lemma StepFourth(f: string, line: string, c: int)
    requires !IsBlankLine(line) && c + 1 == 4
    ensures f + line + "\n" + "\n" == f + Render(StepLines(line, c)) && StepCount(line, c) == 0
  {
    assert [line, ""][1..] == [""];
    assert Render([""]) == "\n";
    assert Render([line, ""]) == line + "\n" + "\n";
    AppendTwice(f, line);
  }

  lemma AppendEmpty(s: string)
    ensures s + "" == s
  {
  }

  lemma AppendTwice(f: string, line: string)
    ensures f + line + "\n" + "\n" == f + (line + "\n" + "\n")
  {
  }

  lemma StepOther(f: string, line: string, c: int)
    requires !IsBlankLine(line) && c + 1 != 4
    ensures f + line + "\n" == f + Render(StepLines(line, c)) && StepCount(line, c) == c + 1
  {
  }

  /** formatLyrics: the loop over the lines with its StringBuilder and
      line counter, then trim. */
  method FormatLyrics(lyrics: string) returns (r: string)
    ensures r == Trim(Render(OutLines(Lines(lyrics), 0)))
  {
    var lines := Lines(lyrics);
    var formatted := "";
    var lineCount := 0;
    var i := 0;
    ghost var total := Render(OutLines(lines, 0));
    assert lines[0..] == lines;
    while i < |lines|
      invariant 0 <= i <= |lines| && 0 <= lineCount < 4
      invariant formatted + Render(OutLines(lines[i..], lineCount)) == total
    {
      var line := lines[i];
      FormatInvariantStep(lines, i, lineCount, formatted, total);
      ghost var f0, c0 := formatted, lineCount;
      if Trim(line) == [] {
        StepBlank(f0, line, c0);
        formatted := formatted + "\n";
        lineCount := 0;
      } else {
        formatted := formatted + line + "\n";
        lineCount := lineCount + 1;
        if lineCount == 4 {
          StepFourth(f0, line, c0);
          formatted := formatted + "\n";
          lineCount := 0;
        } else {
          StepOther(f0, line, c0);
        }
      }
      i := i + 1;
    }
    assert lines[i..] == [];
    assert formatted + "" == total;
    AppendEmpty(formatted);
    assert formatted == total;
    r := Trim(formatted);
  }

  /** The non-blank lines, in order. */
  function NonBlankLines(ls: seq<string>): (r: seq<string>)
    decreases |ls|
  {
    if ls == [] then [] else (if IsBlankLine(ls[0]) then [] else [ls[0]]) + NonBlankLines(ls[1..])
  }

  lemma NonBlankCons(l: string, rest: seq<string>)
    ensures NonBlankLines([l] + rest) == (if IsBlankLine(l) then [] else [l]) + NonBlankLines(rest)
  {
    assert ([l] + rest)[1..] == rest;
  }

  lemma {:induction false} NonBlankAppend(a: seq<string>, b: seq<string>)
    ensures NonBlankLines(a + b) == NonBlankLines(a) + NonBlankLines(b)
    decreases |a|
  {
    if a == [] {
      assert a + b == b;
    } else {
      var h := if IsBlankLine(a[0]) then [] else [a[0]];
      assert a == [a[0]] + a[1..];
      assert a + b == [a[0]] + (a[1..] + b);
      NonBlankCons(a[0], a[1..]);
      NonBlankCons(a[0], a[1..] + b);
      NonBlankAppend(a[1..], b);
    }
  }

  /** The lyric lines among what one input line produces. */
  lemma NonBlankStep(l: string, c: int)
    ensures NonBlankLines(StepLines(l, c)) == (if IsBlankLine(l) then [] else [l])
  {
    assert IsBlankLine("");
    if !IsBlankLine(l) && c + 1 == 4 {
      assert [l, ""][1..] == [""];
      assert NonBlankLines([""]) == [];
    } else if !IsBlankLine(l) {
      assert NonBlankLines([l]) == [l] + NonBlankLines([]);
    } else {
      assert NonBlankLines([""]) == [] + NonBlankLines([]);
    }
  }

  /** The layout keeps every lyric line, in order, and adds only empty lines. */
  lemma {:induction false} LayoutKeepsLyricLines(lines: seq<string>, c: int)
    ensures NonBlankLines(OutLines(lines, c)) == NonBlankLines(lines)
    decreases |lines|
  {
    if lines != [] {
      var l := lines[0];
      var rest := OutLines(lines[1..], StepCount(l, c));
      LayoutKeepsLyricLines(lines[1..], StepCount(l, c));
      NonBlankAppend(StepLines(l, c), rest);
      NonBlankStep(l, c);
      assert NonBlankLines(lines) == (if IsBlankLine(l) then [] else [l]) + NonBlankLines(lines[1..]);
      assert OutLines(lines, c) == StepLines(l, c) + rest;
    }
  }

  /** No run of non-blank lines longer than four, given that `c` non-blank
      lines come right before. */
  predicate RunsBounded(out: seq<string>, c: int)
    decreases |out|
  {
    out == [] ||
    if IsBlankLine(out[0]) then RunsBounded(out[1..], 0)
    else c + 1 <= 4 && RunsBounded(out[1..], c + 1)
  }

  /** One input line keeps the bound. */
  lemma RunsStep(l: string, c: int, rest: seq<string>)
    requires 0 <= c < 4 && RunsBounded(rest, StepCount(l, c))
    ensures RunsBounded(StepLines(l, c) + rest, c)
  {
    if IsBlankLine(l) {
      RunsAfterBreak(rest, c);
    } else if c + 1 == 4 {
      RunsAfterBreak(rest, 4);
      RunsAfterLine(l, [""] + rest, c);
    } else {
      RunsAfterLine(l, rest, c);
    }
  }

  lemma RunsAfterBreak(rest: seq<string>, c: int)
    requires RunsBounded(rest, 0)
    ensures RunsBounded([""] + rest, c)
  {
    assert IsBlankLine("");
    assert ([""] + rest)[1..] == rest;
  }

  lemma RunsAfterLine(l: string, rest: seq<string>, c: int)
    requires !IsBlankLine(l) && c + 1 <= 4 && RunsBounded(rest, c + 1)
    ensures RunsBounded([l] + rest, c)
  {
    assert ([l] + rest)[1..] == rest;
  }

  /** A break follows at the latest every fourth lyric line. */
  lemma {:induction false} LayoutRunsBounded(lines: seq<string>, c: int)
    requires 0 <= c < 4
    ensures RunsBounded(OutLines(lines, c), c)
    decreases |lines|
  {
    if lines != [] {
      var l := lines[0];
      LayoutRunsBounded(lines[1..], StepCount(l, c));
      RunsStep(l, c, OutLines(lines[1..], StepCount(l, c)));
    }
  }

  // ---- rhyme ----

  /** `w` is the last maximal run of non-\s characters of `t`. */
  predicate IsLastWord(t: string, w: string) {
    && EndsWith(t, w)
    && (forall i :: 0 <= i < |w| ==> !IsRegexSpace(w[i]))
    && (|w| < |t| ==> IsRegexSpace(t[|t| - |w| - 1]))
  }

  /** Two last words of the same text are the same. */
  lemma LastWordUnique(t: string, w: string, v: string)
    requires IsLastWord(t, w) && IsLastWord(t, v)
    ensures w == v
  {
  }

  /** A last word that is shorter than a suffix of the text is the last
      word of the whole text. */
  lemma LastWordOfSuffix(t: string, k: nat, w: string)
    requires k <= |t| && IsLastWord(t[k..], w) && |w| < |t| - k
    ensures IsLastWord(t, w)
  {
    assert t[k..][|t| - k - |w|..] == t[|t| - |w|..];
    assert t[k..][|t| - k - |w| - 1] == t[|t| - |w| - 1];
  }

  /** A last word that is all but a leading white-space character. */
  lemma LastWordAfterSpace(t: string, w: string)
    requires t != [] && IsRegexSpace(t[0]) && w == t[1..] && forall i :: 0 <= i < |w| ==> !IsRegexSpace(w[i])
    ensures IsLastWord(t, w)
  {
  }

  /** The last of the words of a text that ends in a word character. */
  lemma {:induction false} WordsLast(t: string)
    requires t != [] && !IsRegexSpace(t[|t| - 1])
    ensures Words(t) != [] && IsLastWord(t, Words(t)[|Words(t)| - 1])
    decreases |t|, 1
  {
    if IsRegexSpace(t[0]) {
      WordsLastAfterSpace(t);
    } else {
      WordsLastAfterWord(t);
    }
  }

  lemma {:induction false} WordsLastAfterSpace(t: string)
    requires t != [] && !IsRegexSpace(t[|t| - 1]) && IsRegexSpace(t[0])
    ensures Words(t) != [] && IsLastWord(t, Words(t)[|Words(t)| - 1])
    decreases |t|, 0
  {
    WordsLast(t[1..]);
    var ws := Words(t[1..]);
    assert Words(t) == ws;
    var w := ws[|ws| - 1];
    if |w| < |t| - 1 {
      LastWordOfSuffix(t, 1, w);
    } else {
      assert w == t[1..];
      LastWordAfterSpace(t, w);
    }
  }

  lemma {:induction false} WordsLastAfterWord(t: string)
    requires t != [] && !IsRegexSpace(t[|t| - 1]) && !IsRegexSpace(t[0])
    ensures Words(t) != [] && IsLastWord(t, Words(t)[|Words(t)| - 1])
    decreases |t|, 0
  {
    var w0 := LeadingWord(t);
    if |w0| == |t| {
      assert w0 == t;
      assert t[|w0|..] == [];
      assert Words(t) == [w0];
    } else {
      var u := t[|w0|..];
      assert u[|u| - 1] == t[|t| - 1];
      WordsLast(u);
      var ws := Words(u);
      var w := ws[|ws| - 1];
      assert Words(t) == [w0] + ws;
      assert Words(t)[|Words(t)| - 1] == w;
      assert |w| < |u|;
      LastWordOfSuffix(t, |w0|, w);
    }
  }

  /** The last element of split("\\s+") on a trimmed line is its last word. */
  lemma LastTokenOfTrimmed(l: string)
    ensures var ws := SplitOnWhitespace(Trim(l));
            ws != [] && IsLastWord(Trim(l), ws[|ws| - 1])
  {
    var t := Trim(l);
    assert t != [] ==> !IsRegexSpace(t[0]) && !IsRegexSpace(t[|t| - 1]);
    LastTokenOfUnpadded(t);
  }

  lemma LastTokenOfUnpadded(t: string)
    requires t != [] ==> !IsRegexSpace(t[0]) && !IsRegexSpace(t[|t| - 1])
    ensures var ws := SplitOnWhitespace(t);
            ws != [] && IsLastWord(t, ws[|ws| - 1])
  {
    if forall i :: 0 <= i < |t| ==> !IsRegexSpace(t[i]) {
      assert SplitOnWhitespace(t) == [t];
    } else {
      WordsLast(t);
      SplitOnWhitespaceIsWords(t);
    }
  }

  lemma SplitOnWhitespaceIsWords(t: string)
    requires t != [] && !IsRegexSpace(t[0]) && Words(t) != []
    requires exists i :: 0 <= i < |t| && IsRegexSpace(t[i])
    ensures SplitOnWhitespace(t) == Words(t)
  {
  }

  /** Two words rhyme when both have at least two characters and share their
      last two. */
  predicate SameEnding(a: string, b: string) {
    |a| >= 2 && |b| >= 2 && a[|a| - 2..] == b[|b| - 2..]
  }

  /** checkRhyme, step by step. */
  function CheckRhyme(line1: string, line2: string, lower: string -> string): bool {
    if line1 == [] || line2 == [] then false
    else
      var words1 := SplitOnWhitespace(Trim(line1));
      var words2 := SplitOnWhitespace(Trim(line2));
      if |words1| == 0 || |words2| == 0 then false
      else
        var last1 := lower(words1[|words1| - 1]);
        var last2 := lower(words2[|words2| - 1]);
        if |last1| >= 2 && |last2| >= 2 then last1[|last1| - 2..] == last2[|last2| - 2..]
        else false
  }

  /** Two lines rhyme exactly when neither is empty and their lower-cased
      last words share their last two characters. */
  lemma CheckRhymeMeaning(line1: string, line2: string, lower: string -> string, w1: string, w2: string)
    requires IsLastWord(Trim(line1), w1) && IsLastWord(Trim(line2), w2)
    ensures CheckRhyme(line1, line2, lower) <==> line1 != [] && line2 != [] && SameEnding(lower(w1), lower(w2))
  {
    LastTokenOfTrimmed(line1);
    LastTokenOfTrimmed(line2);
    var ws1 := SplitOnWhitespace(Trim(line1));
    var ws2 := SplitOnWhitespace(Trim(line2));
    LastWordUnique(Trim(line1), w1, ws1[|ws1| - 1]);
    LastWordUnique(Trim(line2), w2, ws2[|ws2| - 1]);
    if line1 != [] && line2 != [] {
      assert CheckRhyme(line1, line2, lower) == SameEnding(lower(w1), lower(w2));
    }
  }

  /** Rhyming pairs among (0,1), (2,3), ... */
  function RhymingPairs(lines: seq<string>, lower: string -> string): (r: nat)
    ensures r <= |lines| / 2
    decreases |lines|
  {
    if |lines| < 2 then 0
    else (if CheckRhyme(lines[0], lines[1], lower) then 1 else 0) + RhymingPairs(lines[2..], lower)
  }

  /** calculateRhymeScore's counting loop; the score is 100 * rhymes / pairs,
      or 0 without pairs. */
  method CalculateRhymeCounts(lyrics: string, lower: string -> string) returns (rhymes: nat, pairs: nat)
    ensures pairs == |Lines(lyrics)| / 2
    ensures pairs == 0 <==> |Lines(lyrics)| < 2
    ensures rhymes == RhymingPairs(Lines(lyrics), lower) && rhymes <= pairs
  {
    var lines := Lines(lyrics);
    rhymes, pairs := 0, 0;
    var i := 0;
    assert lines[0..] == lines;
    while i < |lines| - 1
      invariant 0 <= i <= |lines| && i == 2 * pairs
      invariant rhymes + RhymingPairs(lines[i..], lower) == RhymingPairs(lines, lower)
    {
      if i + 1 < |lines| {
        assert lines[i..][2..] == lines[i + 2..];
        pairs := pairs + 1;
        if CheckRhyme(lines[i], lines[i + 1], lower) {
          rhymes := rhymes + 1;
        }
      }
      i := i + 2;
    }
    assert |lines| == 2 * pairs || |lines| == 2 * pairs + 1;
  }

  // ---- verses ----

  function Flatten(vs: seq<seq<string>>): seq<string>
    decreases |vs|
  {
    if vs == [] then [] else vs[0] + Flatten(vs[1..])
  }

  lemma {:induction false} FlattenAppend(vs: seq<seq<string>>, v: seq<string>)
    ensures Flatten(vs + [v]) == Flatten(vs) + v
    decreases |vs|
  {
    if vs == [] {
      assert Flatten([v]) == v + Flatten([]);
    } else {
      assert (vs + [v])[1..] == vs[1..] + [v];
      FlattenAppend(vs[1..], v);
    }
  }

  predicate IsVerse(v: seq<string>) {
    1 <= |v| <= 4 && forall j :: 0 <= j < |v| ==> !IsBlankLine(v[j])
  }

  lemma SeqAssoc(a: seq<string>, b: seq<string>, c: seq<string>)
    ensures a + (b + c) == (a + b) + c
  {
  }

  lemma SeqAppendEmpty(a: seq<string>)
    ensures a + [] == a
  {
  }

  /** The non-blank lines of the first i + 1 lines. */
  lemma NonBlankPrefixStep(lines: seq<string>, i: nat)
    requires i < |lines|
    ensures NonBlankLines(lines[..i + 1])
            == NonBlankLines(lines[..i]) + (if IsBlankLine(lines[i]) then [] else [lines[i]])
  {
    assert lines[..i + 1] == lines[..i] + [lines[i]];
    NonBlankAppend(lines[..i], [lines[i]]);
    assert NonBlankLines([lines[i]]) == (if IsBlankLine(lines[i]) then [] else [lines[i]]) + NonBlankLines([]);
  }

  /** What the verse grouping keeps while it scans the lines: the verses so
      far are well formed, the verse being filled holds fewer than four
      non-blank lines, and together they are the non-blank lines seen. */
  predicate GroupInv(verses: seq<seq<string>>, cur: seq<string>, seen: seq<string>) {
    (forall k :: 0 <= k < |verses| ==> IsVerse(verses[k]))
    && |cur| < 4 && (forall j :: 0 <= j < |cur| ==> !IsBlankLine(cur[j]))
    && Flatten(verses) + cur == seen
  }

  lemma GroupClose(verses: seq<seq<string>>, cur: seq<string>, seen: seq<string>)
    requires GroupInv(verses, cur, seen) && cur != []
    ensures GroupInv(verses + [cur], [], seen + [])
  {
    FlattenAppend(verses, cur);
    SeqAppendEmpty(seen);
    SeqAppendEmpty(Flatten(verses + [cur]));
    assert forall k :: 0 <= k < |verses| ==> (verses + [cur])[k] == verses[k];
  }

  lemma GroupSkip(verses: seq<seq<string>>, seen: seq<string>)
    requires GroupInv(verses, [], seen)
    ensures GroupInv(verses, [], seen + [])
  {
    SeqAppendEmpty(seen);
  }

  lemma GroupAdd(verses: seq<seq<string>>, cur: seq<string>, seen: seq<string>, line: string)
    requires GroupInv(verses, cur, seen) && !IsBlankLine(line) && |cur| < 3
    ensures GroupInv(verses, cur + [line], seen + [line])
  {
    SeqAssoc(Flatten(verses), cur, [line]);
  }

  lemma GroupFull(verses: seq<seq<string>>, cur: seq<string>, seen: seq<string>, line: string)
    requires GroupInv(verses, cur, seen) && !IsBlankLine(line) && |cur| == 3
    ensures GroupInv(verses + [cur + [line]], [], seen + [line])
  {
    SeqAssoc(Flatten(verses), cur, [line]);
    FlattenAppend(verses, cur + [line]);
    SeqAppendEmpty(Flatten(verses + [cur + [line]]));
    assert forall k :: 0 <= k < |verses| ==> (verses + [cur + [line]])[k] == verses[k];
  }

  /** buildLyricsResponse's verse grouping: every verse holds one to four
      non-blank lines, and the verses put together are exactly the
      non-blank lines of the lyrics, in order. */
  method BuildVerses(lyrics: string) returns (verses: seq<seq<string>>)
    ensures forall k :: 0 <= k < |verses| ==> IsVerse(verses[k])
    ensures Flatten(verses) == NonBlankLines(Lines(lyrics))
  {
    var lines := Lines(lyrics);
    verses := [];
    var currentVerse: seq<string> := [];
    var i := 0;
    while i < |lines|
      invariant 0 <= i <= |lines|
      invariant GroupInv(verses, currentVerse, NonBlankLines(lines[..i]))
    {
      var line := lines[i];
      NonBlankPrefixStep(lines, i);
      if Trim(line) == [] && currentVerse != [] {
        GroupClose(verses, currentVerse, NonBlankLines(lines[..i]));
        verses := verses + [currentVerse];
        currentVerse := [];
      } else if Trim(line) != [] {
        if |currentVerse| == 3 {
          GroupFull(verses, currentVerse, NonBlankLines(lines[..i]), line);
        } else {
          GroupAdd(verses, currentVerse, NonBlankLines(lines[..i]), line);
        }
        currentVerse := currentVerse + [line];
        if |currentVerse| == 4 {
          verses := verses + [currentVerse];
          currentVerse := [];
        }
      } else {
        GroupSkip(verses, NonBlankLines(lines[..i]));
      }
      i := i + 1;
    }
    assert lines[..i] == lines;
    if currentVerse != [] {
      GroupClose(verses, currentVerse, NonBlankLines(lines));
      verses := verses + [currentVerse];
      SeqAppendEmpty(Flatten(verses));
    } else {
      SeqAppendEmpty(Flatten(verses));
    }
  }

  // ---- stored compositions ----

  /** The exception message of the ownership check when the composition was
      stored without a user (an anonymous generation). */
  const NullOwnerMessage: string :=
    "Cannot invoke \"com.nckh.entity.User.getId()\" because the return value of \"com.nckh.entity.LyricsComposition.getUser()\" is null"

  /** The checks saveLyricsAsProject and deleteLyrics make before acting:
      the composition must exist (`owner` is its owner id, itself absent
      for an anonymous composition), the caller must exist, and the caller
      must be the owner. */
  function OwnershipCheck(owner: Option<Option<int>>, caller: Option<int>): (r: Outcome)
    ensures r.Pass? <==> owner.Some? && caller.Some? && owner.value == Some(caller.value)
    ensures owner.None? ==> r == Fail("Lyrics not found")
    ensures owner.Some? && caller.None? ==> r == Fail("User not found")
    ensures owner.Some? && owner.value.None? && caller.Some? ==> r == Fail(NullOwnerMessage)
    ensures (owner.Some? && owner.value.Some? && caller.Some? && owner.value.value != caller.value)
            ==> r == Fail("Unauthorized access to lyrics")
  {
    if owner.None? then Fail("Lyrics not found")
    else if caller.None? then Fail("User not found")
    else if owner.value.None? then Fail(NullOwnerMessage)
    else if owner.value.value != caller.value then Fail("Unauthorized access to lyrics")
    else Pass
  }

  /** The checks rateLyrics makes: the composition must exist and the rating
      must lie in 1..5. The caller is not checked. */
  function RatingCheck(found: bool, rating: int): (r: Outcome)
    ensures r.Pass? <==> found && 1 <= rating <= 5
    ensures !found ==> r == Fail("Lyrics not found")
    ensures found && (rating < 1 || rating > 5) ==> r == Fail("Rating must be between 1 and 5")
  {
    if !found then Fail("Lyrics not found")
    else if rating < 1 || rating > 5 then Fail("Rating must be between 1 and 5")
    else Pass
  }

  /** The fields of a stored LyricsComposition the operations below read or
      write. */
  class Composition {
    var ownerId: Option<int>
    var rating: Option<int>
    var isSavedAsProject: bool

    constructor(owner: Option<int>)
      ensures ownerId == owner && rating.None? && !isSavedAsProject
    {
      ownerId := owner;
      rating := None;
      isSavedAsProject := false;
    }
  }

  /** The lyrics repository (id to composition) and the user repository
      (username to user id). */
  class LyricsStore {
    var compositions: map<int, Composition>
    var userIds: map<string, int>

    constructor()
      ensures compositions == map[] && userIds == map[]
    {
      compositions := map[];
      userIds := map[];
    }

    function OwnerOf(id: int): Option<Option<int>>
      reads this, if id in compositions then {compositions[id]} else {}
    {
      if id in compositions then Some(compositions[id].ownerId) else None
    }

    function UserIdOf(username: string): Option<int>
      reads this
    {
      if username in userIds then Some(userIds[username]) else None
    }

    /** saveLyricsAsProject: only the owner may mark a composition as a
        project; on any failure nothing changes. */
    method SaveLyricsAsProject(lyricsId: int, username: string) returns (r: Outcome)
      modifies if lyricsId in compositions then {compositions[lyricsId]} else {}
      ensures r == OwnershipCheck(old(OwnerOf(lyricsId)), UserIdOf(username))
      ensures lyricsId in compositions ==>
                compositions[lyricsId].isSavedAsProject
                  == (r.Pass? || old(compositions[lyricsId].isSavedAsProject))
                && compositions[lyricsId].rating == old(compositions[lyricsId].rating)
                && compositions[lyricsId].ownerId == old(compositions[lyricsId].ownerId)
    {
      if lyricsId !in compositions {
        return Fail("Lyrics not found");
      }
      var composition := compositions[lyricsId];
      if username !in userIds {
        return Fail("User not found");
      }
      var userId := userIds[username];
      if composition.ownerId.None? {
        return Fail(NullOwnerMessage);
      }
      if composition.ownerId.value != userId {
        return Fail("Unauthorized access to lyrics");
      }
      composition.isSavedAsProject := true;
      r := Pass;
    }

    /** rateLyrics: a rating outside 1..5 is refused and the stored rating
        stays as it was; otherwise it replaces the stored rating. */
    method RateLyrics(lyricsId: int, rating: int) returns (r: Outcome)
      modifies if lyricsId in compositions then {compositions[lyricsId]} else {}
      ensures r == RatingCheck(lyricsId in compositions, rating)
      ensures lyricsId in compositions ==>
                compositions[lyricsId].rating
                  == (if r.Pass? then Some(rating) else old(compositions[lyricsId].rating))
                && compositions[lyricsId].isSavedAsProject == old(compositions[lyricsId].isSavedAsProject)
                && compositions[lyricsId].ownerId == old(compositions[lyricsId].ownerId)
    {
      if lyricsId !in compositions {
        return Fail("Lyrics not found");
      }
      var composition := compositions[lyricsId];
      if rating < 1 || rating > 5 {
        return Fail("Rating must be between 1 and 5");
      }
      composition.rating := Some(rating);
      r := Pass;
    }

    /** deleteLyrics: only the owner may delete; the composition is gone
        afterwards, and on any failure the repository is unchanged. */
    method DeleteLyrics(lyricsId: int, username: string) returns (r: Outcome)
      modifies this
      ensures r == OwnershipCheck(old(OwnerOf(lyricsId)), old(UserIdOf(username)))
      ensures compositions == if r.Pass? then old(compositions) - {lyricsId} else old(compositions)
      ensures userIds == old(userIds)
    {
      if lyricsId !in compositions {
        return Fail("Lyrics not found");
      }
      var composition := compositions[lyricsId];
      if username !in userIds {
        return Fail("User not found");
      }
      var userId := userIds[username];
      if composition.ownerId.None? {
        return Fail(NullOwnerMessage);
      }
      if composition.ownerId.value != userId {
        return Fail("Unauthorized access to lyrics");
      }
      compositions := compositions - {lyricsId};
      r := Pass;
    }
  }
}
