/** The clean-up applied to lyrics returned by the language model, and the
    checks on the model's response. The clean-up is a fixed chain of
    regular-expression replacements; each replacement is written here as the
    left-to-right scan that String.replaceAll performs for its pattern. */
module IntegrateAIService {
  import opened Wrappers
  import opened JavaText

  /** The parts of a Spring AI ChatResponse the service reads. */
  datatype AssistantMessage = AssistantMessage(text: Option<string>)
  datatype Generation = Generation(output: Option<AssistantMessage>)
  datatype ChatResponse = ChatResponse(result: Option<Generation>)

  predicate IsAsciiLetter(c: char) {
    ('a' <= c <= 'z') || ('A' <= c <= 'Z')
  }

  /** A character of the class [ \t]. */
  predicate IsSpaceOrTab(c: char) {
    c == ' ' || c == '\t'
  }

  const Fence: string := "```"

  /** The three answer openings the model tends to add. */
  const PrefixHereIs: string := "\U{110}\U{E2}y l\U{E0}"
  const PrefixSong: string := "B\U{E0}i h\U{E1}t"
  const PrefixLyrics: string := "L\U{1EDD}i b\U{E0}i h\U{E1}t"

  // ---- substring facts ----

  lemma ContainsCons(c: char, y: string, w: string)
    ensures Contains([c] + y, w) <==> StartsWith([c] + y, w) || Contains(y, w)
  {
    assert ([c] + y)[1..] == y;
  }

  /** An occurrence in a suffix is an occurrence in the whole. */
  lemma {:induction false} ContainsInSuffix(s: string, a: nat, w: string)
    requires a <= |s| && Contains(s[a..], w)
    ensures Contains(s, w)
    decreases a
  {
    if a > 0 {
      assert s[1..][a - 1..] == s[a..];
      ContainsInSuffix(s[1..], a - 1, w);
    }
  }

  /** An occurrence in a prefix is an occurrence in the whole. */
  lemma {:induction false} ContainsInPrefix(s: string, b: nat, w: string)
    requires b <= |s| && Contains(s[..b], w)
    ensures Contains(s, w)
    decreases |s|
  {
    if StartsWith(s[..b], w) {
      assert s[..b][..|w|] == s[..|w|];
    } else {
      assert s[..b][1..] == s[1..][..b - 1];
      ContainsInPrefix(s[1..], b - 1, w);
    }
  }

  /** Trim cannot create an occurrence. */
  lemma TrimKeepsOut(s: string, w: string)
    requires !Contains(s, w)
    ensures !Contains(Trim(s), w)
  {
    TrimIsSlice(s);
    var a := |s| - |TrimStart(s)|;
    var r := Trim(s);
    assert r == s[a..][..|r|];
    if Contains(r, w) {
      ContainsInPrefix(s[a..], |r|, w);
      ContainsInSuffix(s, a, w);
    }
  }

  // ---- replaceAll("```[a-zA-Z]*", "") and replaceAll("```", "") ----

  /** The leading run of ASCII letters removed: what is dropped is letters,
      and what is left does not start with one. */
  function DropAsciiLetters(s: string): (r: string)
    ensures |r| <= |s| && r == s[|s| - |r|..]
    ensures r == [] || !IsAsciiLetter(r[0])
    ensures forall i :: 0 <= i < |s| - |r| ==> IsAsciiLetter(s[i])
    decreases |s|
  {
    if s != [] && IsAsciiLetter(s[0]) then DropAsciiLetters(s[1..]) else s
  }

  /** A run of letters in front of a text that does not start with one is
      exactly what is dropped. */
  lemma {:induction false} DropAsciiLettersOf(tag: string, x: string)
    requires forall i :: 0 <= i < |tag| ==> IsAsciiLetter(tag[i])
    requires x == [] || !IsAsciiLetter(x[0])
    ensures DropAsciiLetters(tag + x) == x
    decreases |tag|
  {
    if tag != [] {
      assert (tag + x)[0] == tag[0];
      assert (tag + x)[1..] == tag[1..] + x;
      DropAsciiLettersOf(tag[1..], x);
    } else {
      assert tag + x == x;
    }
  }

  /** Every fence together with the letters of a language tag after it removed. */
  function RemoveTaggedFences(s: string): (r: string)
    ensures |r| <= |s|
    decreases |s|
  {
    if s == [] then []
    else if StartsWith(s, Fence) then RemoveTaggedFences(DropAsciiLetters(s[3..]))
    else [s[0]] + RemoveTaggedFences(s[1..])
  }

  /** A fence with its whole language tag goes, and the scan goes on after it. */
  lemma TaggedFenceDropped(tag: string, x: string)
    requires forall i :: 0 <= i < |tag| ==> IsAsciiLetter(tag[i])
    requires x == [] || !IsAsciiLetter(x[0])
    ensures RemoveTaggedFences(Fence + (tag + x)) == RemoveTaggedFences(x)
  {
    FenceOpens(tag + x);
    DropAsciiLettersOf(tag, x);
  }

  /** The fence branch of the scan, for a text that starts with a fence. */
  lemma FenceOpens(rest: string)
    ensures RemoveTaggedFences(Fence + rest) == RemoveTaggedFences(DropAsciiLetters(rest))
  {
    var s := Fence + rest;
    assert s[..3] == Fence;
    assert s[3..] == rest;
  }

  /** A character that does not open a fence is kept. */
  lemma TaggedFenceKeepsOther(c: char, x: string)
    requires !StartsWith([c] + x, Fence)
    ensures RemoveTaggedFences([c] + x) == [c] + RemoveTaggedFences(x)
  {
    assert ([c] + x)[1..] == x;
  }

  /** Every remaining fence removed, scanning from the left. */
  function RemoveFences(s: string): (r: string)
    ensures |r| <= |s|
    ensures s != [] && s[0] != '`' ==> r != [] && r[0] == s[0]
    decreases |s|
  {
    if s == [] then []
    else if StartsWith(s, Fence) then RemoveFences(s[3..])
    else [s[0]] + RemoveFences(s[1..])
  }

  /** What is left never starts with two backticks unless the input did. */
  lemma NoDoubleTickStart(u: string)
    requires !StartsWith(u, "``")
    ensures !StartsWith(RemoveFences(u), "``")
  {
    if u != [] && u[0] == '`' {
      assert !StartsWith(u, Fence);
      assert RemoveFences(u) == [u[0]] + RemoveFences(u[1..]);
      if |u| > 1 {
        assert u[1] != '`';
      }
    }
  }

  /** After the scan no fence is left: a removal never joins backticks on its
      two sides. */
  lemma {:induction false} NoFenceLeft(s: string)
    ensures !Contains(RemoveFences(s), Fence)
    decreases |s|
  {
    if s == [] {
    } else if StartsWith(s, Fence) {
      NoFenceLeft(s[3..]);
    } else {
      NoFenceLeft(s[1..]);
      var rest := RemoveFences(s[1..]);
      ContainsCons(s[0], rest, Fence);
      if s[0] == '`' {
        assert !StartsWith(s[1..], "``");
        NoDoubleTickStart(s[1..]);
        assert !StartsWith([s[0]] + rest, Fence);
      }
    }
  }

  // ---- replaceAll("^(Đây là|Bài hát|Lời bài hát):?\\s*", "") ----

  /** Leading \s characters removed. */
  function DropRegexSpace(s: string): (r: string)
    ensures |r| <= |s| && r == s[|s| - |r|..]
    ensures r != [] ==> !IsRegexSpace(r[0])
    decreases |s|
  {
    if s != [] && IsRegexSpace(s[0]) then DropRegexSpace(s[1..]) else s
  }

  /** What follows an opening: an optional ':' and then white space, removed. */
  function AfterOpening(s: string): (r: string)
    ensures |r| <= |s| && r == s[|s| - |r|..]
  {
    DropRegexSpace(if s != [] && s[0] == ':' then s[1..] else s)
  }

  predicate HasOpening(s: string) {
    StartsWith(s, PrefixHereIs) || StartsWith(s, PrefixSong) || StartsWith(s, PrefixLyrics)
  }

  /** The anchored replacement: at most one opening, and only at the start;
      the alternatives are tried in the order the pattern lists them. */
  function StripOpening(s: string): (r: string)
    ensures |r| <= |s| && r == s[|s| - |r|..]
    ensures !HasOpening(s) ==> r == s
    ensures StartsWith(s, PrefixHereIs) ==> r == AfterOpening(s[|PrefixHereIs|..])
    ensures !StartsWith(s, PrefixHereIs) && StartsWith(s, PrefixSong) ==> r == AfterOpening(s[|PrefixSong|..])
    ensures !StartsWith(s, PrefixHereIs) && !StartsWith(s, PrefixSong) && StartsWith(s, PrefixLyrics)
            ==> r == AfterOpening(s[|PrefixLyrics|..])
  {
    if StartsWith(s, PrefixHereIs) then AfterOpening(s[|PrefixHereIs|..])
    else if StartsWith(s, PrefixSong) then AfterOpening(s[|PrefixSong|..])
    else if StartsWith(s, PrefixLyrics) then AfterOpening(s[|PrefixLyrics|..])
    else s
  }

  // ---- replaceAll("\\n\\n+", "\n\n") ----

  function DropNewlines(s: string): (r: string)
    ensures |r| <= |s| && r == s[|s| - |r|..]
    ensures r == [] || r[0] != '\n'
    ensures s != [] && s[0] == '\n' ==> |r| < |s|
    decreases |s|
  {
    if s != [] && s[0] == '\n' then DropNewlines(s[1..]) else s
  }

  /** Every run of two or more newlines replaced by exactly two. */
  function CollapseNewlines(s: string): (r: string)
    ensures s != [] ==> r != [] && r[0] == s[0]
    decreases |s|
  {
    if s == [] then []
    else if StartsWith(s, "\n\n") then "\n\n" + CollapseNewlines(DropNewlines(s))
    else [s[0]] + CollapseNewlines(s[1..])
  }

  /** A character in front of a text without three newlines in a row adds
      none, unless it is a newline in front of a newline. */
  lemma NoTripleCons(c: char, rest: string)
    requires !Contains(rest, "\n\n\n")
    requires c == '\n' ==> rest == [] || rest[0] != '\n'
    ensures !Contains([c] + rest, "\n\n\n")
  {
    ContainsCons(c, rest, "\n\n\n");
    if |rest| >= 2 {
      assert ([c] + rest)[..3] == [c, rest[0], rest[1]];
    }
  }

  /** Two newlines in front of a text that does not start with one. */
  lemma NoTripleAfterPair(rest: string)
    requires !Contains(rest, "\n\n\n") && (rest == [] || rest[0] != '\n')
    ensures !Contains("\n\n" + rest, "\n\n\n")
  {
    NoTripleCons('\n', rest);
    var one := ['\n'] + rest;
    ContainsCons('\n', one, "\n\n\n");
    if |rest| >= 1 {
      assert (['\n'] + one)[..3] == ['\n', '\n', rest[0]];
    }
    assert "\n\n" + rest == ['\n'] + one;
  }

  /** A run of newlines in front of a text that does not start with one is
      exactly what is dropped. */
  lemma {:induction false} DropNewlinesOf(run: string, x: string)
    requires forall i :: 0 <= i < |run| ==> run[i] == '\n'
    requires x == [] || x[0] != '\n'
    ensures DropNewlines(run + x) == x
    decreases |run|
  {
    if run != [] {
      assert (run + x)[0] == '\n';
      assert (run + x)[1..] == run[1..] + x;
      DropNewlinesOf(run[1..], x);
    } else {
      assert run + x == x;
    }
  }

  /** A whole run of two or more newlines becomes exactly two. */
  lemma NewlineRunCollapsed(run: string, x: string)
    requires |run| >= 2 && forall i :: 0 <= i < |run| ==> run[i] == '\n'
    requires x == [] || x[0] != '\n'
    ensures CollapseNewlines(run + x) == "\n\n" + CollapseNewlines(x)
  {
    var s := run + x;
    assert s[..2] == "\n\n" by { assert s[0] == run[0] && s[1] == run[1]; }
    DropNewlinesOf(run, x);
  }

  /** Any character that does not start a run of two newlines is kept. */
  lemma CollapseNewlinesKeepsOther(c: char, x: string)
    requires !StartsWith([c] + x, "\n\n")
    ensures CollapseNewlines([c] + x) == [c] + CollapseNewlines(x)
  {
    assert ([c] + x)[1..] == x;
  }

  /** No three newlines in a row after collapsing. */
  lemma {:induction false} NoTripleNewline(s: string)
    ensures !Contains(CollapseNewlines(s), "\n\n\n")
    decreases |s|
  {
    if s == [] {
    } else if StartsWith(s, "\n\n") {
      var v := DropNewlines(s);
      NoTripleNewline(v);
      NoTripleAfterPair(CollapseNewlines(v));
    } else {
      NoTripleNewline(s[1..]);
      if s[0] == '\n' && |s| > 1 {
        assert s[..2] != "\n\n";
        assert s[1] != '\n';
      }
      NoTripleCons(s[0], CollapseNewlines(s[1..]));
    }
  }

  /** A word without newlines at the start of the collapsed text was there before. */
  lemma {:induction false} CollapseNewlinesStart(u: string, w: string)
    requires w != [] && '\n' !in w && StartsWith(CollapseNewlines(u), w)
    ensures StartsWith(u, w)
    decreases |w|
  {
    assert u != [] && u[0] == w[0];
    assert CollapseNewlines(u) == [u[0]] + CollapseNewlines(u[1..]);
    if |w| > 1 {
      assert StartsWith(CollapseNewlines(u[1..]), w[1..]);
      CollapseNewlinesStart(u[1..], w[1..]);
    }
  }

  /** Two newlines in front create no word without newlines. */
  lemma PairKeepsOut(rest: string, w: string)
    requires w != [] && '\n' !in w && !Contains(rest, w)
    ensures !Contains("\n\n" + rest, w)
  {
    assert w[0] in w;
    ContainsCons('\n', rest, w);
    ContainsCons('\n', ['\n'] + rest, w);
    assert "\n\n" + rest == ['\n'] + (['\n'] + rest);
  }

  /** Collapsing newlines creates no word without newlines. */
  lemma {:induction false} CollapseNewlinesKeepsOut(u: string, w: string)
    requires w != [] && '\n' !in w && !Contains(u, w)
    ensures !Contains(CollapseNewlines(u), w)
    decreases |u|
  {
    if u == [] {
    } else if StartsWith(u, "\n\n") {
      var v := DropNewlines(u);
      if Contains(v, w) {
        ContainsInSuffix(u, |u| - |v|, w);
      }
      CollapseNewlinesKeepsOut(v, w);
      PairKeepsOut(CollapseNewlines(v), w);
    } else {
      CollapseNewlinesKeepsOut(u[1..], w);
      ContainsCons(u[0], CollapseNewlines(u[1..]), w);
      if StartsWith(CollapseNewlines(u), w) {
        CollapseNewlinesStart(u, w);
      }
    }
  }

  // ---- replaceAll("[ \\t]+", " ") ----

  function DropSpacesAndTabs(s: string): (r: string)
    ensures |r| <= |s| && r == s[|s| - |r|..]
    ensures r == [] || !IsSpaceOrTab(r[0])
    ensures s != [] && IsSpaceOrTab(s[0]) ==> |r| < |s|
    decreases |s|
  {
    if s != [] && IsSpaceOrTab(s[0]) then DropSpacesAndTabs(s[1..]) else s
  }

  /** Every run of spaces and tabs replaced by one space. */
  function CollapseSpaces(s: string): (r: string)
    ensures s != [] ==> r != [] && r[0] == (if IsSpaceOrTab(s[0]) then ' ' else s[0])
    ensures '\t' !in r
    decreases |s|
  {
    if s == [] then []
    else if IsSpaceOrTab(s[0]) then " " + CollapseSpaces(DropSpacesAndTabs(s))
    else [s[0]] + CollapseSpaces(s[1..])
  }

  /** No two spaces in a row after collapsing. */
  lemma {:induction false} NoDoubleSpace(s: string)
    ensures !Contains(CollapseSpaces(s), "  ")
    decreases |s|
  {
    if s == [] {
    } else if IsSpaceOrTab(s[0]) {
      var v := DropSpacesAndTabs(s);
      NoDoubleSpace(v);
      NoDoubleCons(' ', CollapseSpaces(v));
    } else {
      NoDoubleSpace(s[1..]);
      NoDoubleCons(s[0], CollapseSpaces(s[1..]));
    }
  }

  /** A character in front of a text without two spaces in a row adds none,
      unless it is a space in front of a space. */
  lemma NoDoubleCons(c: char, rest: string)
    requires !Contains(rest, "  ")
    requires c == ' ' ==> rest == [] || rest[0] != ' '
    ensures !Contains([c] + rest, "  ")
  {
    ContainsCons(c, rest, "  ");
    if |rest| >= 1 {
      assert ([c] + rest)[..2] == [c, rest[0]];
    }
  }

  /** A word without spaces or tabs at the start of the collapsed text was there before. */
  lemma {:induction false} CollapseSpacesStart(u: string, w: string)
    requires w != [] && ' ' !in w && '\t' !in w && StartsWith(CollapseSpaces(u), w)
    ensures StartsWith(u, w)
    decreases |w|
  {
    assert u != [] && u[0] == w[0];
    assert CollapseSpaces(u) == [u[0]] + CollapseSpaces(u[1..]);
    if |w| > 1 {
      assert StartsWith(CollapseSpaces(u[1..]), w[1..]);
      CollapseSpacesStart(u[1..], w[1..]);
    }
  }

  /** Collapsing spaces creates no word without spaces or tabs. */
  lemma {:induction false} CollapseSpacesKeepsOut(u: string, w: string)
    requires w != [] && ' ' !in w && '\t' !in w && !Contains(u, w)
    ensures !Contains(CollapseSpaces(u), w)
    decreases |u|
  {
    if u == [] {
    } else if IsSpaceOrTab(u[0]) {
      var v := DropSpacesAndTabs(u);
      if Contains(v, w) {
        ContainsInSuffix(u, |u| - |v|, w);
      }
      CollapseSpacesKeepsOut(v, w);
      ContainsCons(' ', CollapseSpaces(v), w);
    } else {
      CollapseSpacesKeepsOut(u[1..], w);
      ContainsCons(u[0], CollapseSpaces(u[1..]), w);
      if StartsWith(CollapseSpaces(u), w) {
        CollapseSpacesStart(u, w);
      }
    }
  }

  // ---- the service ----

  /** The last three replacements and the final trim. */
  function CollapseAndTrim(t: string): string {
    Trim(CollapseSpaces(CollapseNewlines(t)))
  }

  /** postProcessAILyrics: null becomes the empty text; otherwise trim, drop
      markdown fences, drop one answer opening, collapse blank-line runs and
      space runs, and trim again. */
  function PostProcessAILyrics(raw: Option<string>): string
  {
    if raw.None? then ""
    else CollapseAndTrim(StripOpening(RemoveFences(RemoveTaggedFences(Trim(raw.value)))))
  }

  /** The white-space shape after both collapses, before the final trim. */
  lemma CollapsedShape(t: string)
    ensures var spaced := CollapseSpaces(CollapseNewlines(t));
            && '\t' !in spaced && !Contains(spaced, "  ") && !Contains(spaced, "\n\n\n")
            && (!Contains(t, Fence) ==> !Contains(spaced, Fence))
  {
    var collapsed := CollapseNewlines(t);
    NoTripleNewline(t);
    NoDoubleSpace(collapsed);
    CollapseSpacesKeepsOut(collapsed, "\n\n\n");
    if !Contains(t, Fence) {
      CollapseNewlinesKeepsOut(t, Fence);
      CollapseSpacesKeepsOut(collapsed, Fence);
    }
  }

  /** The white-space shape left by the last steps, and no fence is created. */
  lemma CollapseAndTrimShape(t: string)
    ensures var r := CollapseAndTrim(t);
            && (r != [] ==> !IsTrimmable(r[0]) && !IsTrimmable(r[|r| - 1]))
            && '\t' !in r && !Contains(r, "  ") && !Contains(r, "\n\n\n")
            && (!Contains(t, Fence) ==> !Contains(r, Fence))
  {
    var spaced := CollapseSpaces(CollapseNewlines(t));
    CollapsedShape(t);
    TrimKeepsAbsent(spaced, '\t');
    TrimKeepsOut(spaced, "  ");
    TrimKeepsOut(spaced, "\n\n\n");
    if !Contains(t, Fence) {
      TrimKeepsOut(spaced, Fence);
    }
  }

  /** The shape of every cleaned answer: trimmed, no tab, no two spaces in a
      row, no three newlines in a row and no markdown fence. */
  lemma PostProcessShape(raw: Option<string>)
    ensures raw.None? ==> PostProcessAILyrics(raw) == ""
    ensures var r := PostProcessAILyrics(raw);
            && (r != [] ==> !IsTrimmable(r[0]) && !IsTrimmable(r[|r| - 1]))
            && '\t' !in r && !Contains(r, "  ") && !Contains(r, "\n\n\n") && !Contains(r, Fence)
  {
    if raw.Some? {
      var tagged := RemoveTaggedFences(Trim(raw.value));
      NoFenceLeft(tagged);
      StripOpeningKeepsOut(RemoveFences(tagged), Fence);
      CollapseAndTrimShape(StripOpening(RemoveFences(tagged)));
    }
  }

  /** Dropping an opening creates no new occurrence. */
  lemma StripOpeningKeepsOut(s: string, w: string)
    requires !Contains(s, w)
    ensures !Contains(StripOpening(s), w)
  {
    var r := StripOpening(s);
    if Contains(r, w) {
      ContainsInSuffix(s, |s| - |r|, w);
    }
  }

  /** An opening followed by ':' and white space is dropped with them. */
  lemma OpeningDropped(rest: string)
    requires rest == [] || (!IsRegexSpace(rest[0]) && rest[0] != ':')
    ensures StripOpening(PrefixLyrics + ": " + rest) == rest
  {
    var s := PrefixLyrics + (": " + rest);
    assert s == PrefixLyrics + ": " + rest;
    NotOtherOpenings(s);
    PrefixThenRest(PrefixLyrics, ": " + rest);
    AfterColonSpace(rest);
  }

  /** A text starting with 'L' starts with neither of the first two openings. */
  lemma NotOtherOpenings(s: string)
    requires s != [] && s[0] == 'L'
    ensures !StartsWith(s, PrefixHereIs) && !StartsWith(s, PrefixSong)
  {
    assert PrefixHereIs[0] != 'L';
    assert PrefixSong[0] != 'L';
  }

  lemma PrefixThenRest(p: string, t: string)
    ensures StartsWith(p + t, p) && (p + t)[|p|..] == t
  {
    assert (p + t)[..|p|] == p;
  }

  /** ": " is dropped up to the next character that is neither. */
  lemma AfterColonSpace(rest: string)
    requires rest == [] || (!IsRegexSpace(rest[0]) && rest[0] != ':')
    ensures AfterOpening(": " + rest) == rest
  {
    assert (": " + rest)[0] == ':';
    assert (": " + rest)[1..] == " " + rest;
    assert (" " + rest)[1..] == rest;
    assert DropRegexSpace(rest) == rest;
    assert DropRegexSpace(" " + rest) == rest;
  }

  /** The same words later in the text are kept. */
  lemma OpeningKeptInside(head: string)
    requires head != [] && head[0] == 'X'
    ensures StripOpening(head + PrefixSong) == head + PrefixSong
  {
    var u := head + PrefixSong;
    assert u[0] == 'X';
    assert !StartsWith(u, PrefixHereIs) by { assert PrefixHereIs[0] != 'X'; }
    assert !StartsWith(u, PrefixSong) by { assert PrefixSong[0] != 'X'; }
    assert !StartsWith(u, PrefixLyrics) by { assert PrefixLyrics[0] != 'X'; }
  }

  /** extractLyricsFromResponse: the result and its output must be present,
      and the text must not be empty after trimming. */
  function ExtractLyricsFromResponse(response: Option<ChatResponse>): (r: Result<string>)
    ensures r.Ok? <==> response.Some? && response.value.result.Some? && response.value.result.value.output.Some?
                       && response.value.result.value.output.value.text.Some?
                       && Trim(response.value.result.value.output.value.text.value) != []
    ensures r.Ok? ==> r.value == response.value.result.value.output.value.text.value
    ensures (response.None? || response.value.result.None? || response.value.result.value.output.None?)
            ==> r == Err("Invalid response from AI model")
    ensures r.Err? && r.error != "Invalid response from AI model" ==> r.error == "AI model returned empty lyrics"
  {
    if response.None? || response.value.result.None? || response.value.result.value.output.None? then
      Err("Invalid response from AI model")
    else
      var text := response.value.result.value.output.value.text;
      if text.None? || Trim(text.value) == [] then Err("AI model returned empty lyrics")
      else Ok(text.value)
  }

  /** generateLyrics after the prompt: a failing model call or a rejected
      response becomes "AI generation failed: " with the cause's message;
      an accepted text is cleaned. */
  function GenerateLyrics(reply: Result<Option<ChatResponse>>): (r: Result<string>)
    ensures r.Ok? <==> reply.Ok? && ExtractLyricsFromResponse(reply.value).Ok?
    ensures reply.Err? ==> r == Err("AI generation failed: AI model call failed")
    ensures reply.Ok? && ExtractLyricsFromResponse(reply.value).Err? ==>
              r == Err("AI generation failed: " + ExtractLyricsFromResponse(reply.value).error)
    ensures r.Ok? ==> r.value == PostProcessAILyrics(Some(ExtractLyricsFromResponse(reply.value).value))
  {
    if reply.Err? then Err("AI generation failed: AI model call failed")
    else
      match ExtractLyricsFromResponse(reply.value)
      case Err(msg) => Err("AI generation failed: " + msg)
      case Ok(text) => Ok(PostProcessAILyrics(Some(text)))
  }
}
