/** The parts of java.lang.String that the services rely on, with Java's
    own edge cases: `split` drops trailing empty strings and returns the
    whole input when the separator does not occur, `trim` strips every
    character up to U+0020, and `isBlank` uses Character.isWhitespace. */
module JavaText {

  /** A character removed by String.trim(). */
  predicate IsTrimmable(c: char) {
    c <= ' '
  }

  /** A character matched by the regular-expression class \s. */
  predicate IsRegexSpace(c: char) {
    c == ' ' || c == '\t' || c == '\n' || c == '\U{B}' || c == '\U{C}' || c == '\r'
  }

  /** Character.isWhitespace: the Unicode space separators other than the
      no-break spaces, plus the ASCII controls \t \n \u000B \f \r and the
      four separators U+001C to U+001F. */
  predicate IsJavaWhitespace(c: char) {
    c == ' ' || ('\t' <= c <= '\r') || ('\U{1C}' <= c <= '\U{1F}')
    || c == '\U{1680}' || ('\U{2000}' <= c <= '\U{2006}') || ('\U{2008}' <= c <= '\U{200A}')
    || c == '\U{2028}' || c == '\U{2029}' || c == '\U{205F}' || c == '\U{3000}'
  }

  /** String.isBlank(), and StringUtils.isBlank for a non-null string. */
  predicate IsBlank(s: string) {
    forall i :: 0 <= i < |s| ==> IsJavaWhitespace(s[i])
  }

  predicate StartsWith(s: string, prefix: string) {
    |prefix| <= |s| && s[..|prefix|] == prefix
  }

  predicate EndsWith(s: string, suffix: string) {
    |suffix| <= |s| && s[|s| - |suffix|..] == suffix
  }

  /** String.contains. */
  predicate Contains(s: string, sub: string)
    decreases |s|
  {
    StartsWith(s, sub) || (s != [] && Contains(s[1..], sub))
  }

  /** Leading characters removed by trim. */
  function TrimStart(s: string): (r: string)
    ensures |r| <= |s| && r == s[|s| - |r|..]
    ensures r != [] ==> !IsTrimmable(r[0])
    ensures forall i :: 0 <= i < |s| - |r| ==> IsTrimmable(s[i])
    decreases |s|
  {
    if s != [] && IsTrimmable(s[0]) then TrimStart(s[1..]) else s
  }

  /** Trailing characters removed by trim. */
  function TrimEnd(s: string): (r: string)
    ensures |r| <= |s| && r == s[..|r|]
    ensures r != [] ==> !IsTrimmable(r[|r| - 1])
    ensures forall i :: |r| <= i < |s| ==> IsTrimmable(s[i])
    decreases |s|
  {
    if s != [] && IsTrimmable(s[|s| - 1]) then TrimEnd(s[..|s| - 1]) else s
  }

  /** String.trim(). */
  function Trim(s: string): (r: string)
    ensures r != [] ==> !IsTrimmable(r[0]) && !IsTrimmable(r[|r| - 1])
    ensures |r| <= |s|
    ensures r == [] <==> forall i :: 0 <= i < |s| ==> IsTrimmable(s[i])
  {
    var t := TrimStart(s);
    var r := TrimEnd(t);
    assert r == [] ==> t == [] by {
      if r == [] {
        assert |t| == 0 || IsTrimmable(t[0]);
      }
    }
    r
  }

  /** Trim keeps a contiguous piece of its input: what is left after the
      leading characters it strips. */
  lemma TrimIsSlice(s: string)
    ensures var r := Trim(s); var a := |s| - |TrimStart(s)|;
            a + |r| <= |s| && r == s[a..a + |r|]
  {
  }

  /** The pieces of `s` between occurrences of `sep`, keeping every empty
      piece: one more piece than there are separators. */
  function SplitAll(s: string, sep: char): (parts: seq<string>)
    ensures |parts| >= 1
    ensures forall k :: 0 <= k < |parts| ==> sep !in parts[k]
    decreases |s|
  {
    if s == [] then [""]
    else if s[0] == sep then [""] + SplitAll(s[1..], sep)
    else
      var rest := SplitAll(s[1..], sep);
      [[s[0]] + rest[0]] + rest[1..]
  }

  /** Trailing empty strings dropped, as split with limit 0 does. */
  function DropTrailingEmpty(parts: seq<string>): (r: seq<string>)
    ensures |r| <= |parts| && r == parts[..|r|]
    ensures r != [] ==> r[|r| - 1] != ""
    ensures forall k :: |r| <= k < |parts| ==> parts[k] == ""
    decreases |parts|
  {
    if parts != [] && parts[|parts| - 1] == "" then DropTrailingEmpty(parts[..|parts| - 1])
    else parts
  }

  /** String.split with a one-character separator and no limit. */
  function Split(s: string, sep: char): (parts: seq<string>)
    ensures forall k :: 0 <= k < |parts| ==> sep !in parts[k]
  {
    if sep !in s then [s] else DropTrailingEmpty(SplitAll(s, sep))
  }

  /** The lines of a text as `split("\n")` yields them. */
  function Lines(s: string): (lines: seq<string>)
    ensures forall k :: 0 <= k < |lines| ==> '\n' !in lines[k]
  {
    Split(s, '\n')
  }

  /** Trim only removes characters: one that is absent stays absent. */
  lemma TrimKeepsAbsent(s: string, c: char)
    requires c !in s
    ensures c !in Trim(s)
  {
    TrimIsSlice(s);
    var a := |s| - |TrimStart(s)|;
    var r := Trim(s);
    forall i | 0 <= i < |r| ensures r[i] != c {
      assert r[i] == s[a + i];
    }
  }

  /** The text before the first `sep`, or all of `s` when it has none. */
  function FirstPiece(s: string, sep: char): (p: string)
    ensures |p| <= |s| && p == s[..|p|] && sep !in p
    ensures |p| < |s| ==> s[|p|] == sep
    decreases |s|
  {
    if s == [] || s[0] == sep then "" else [s[0]] + FirstPiece(s[1..], sep)
  }

  /** Split yields nothing exactly when the text is made only of separators
      (and is not empty); otherwise its first element is the text before the
      first separator. */
  lemma {:induction false} SplitFirstElement(s: string, sep: char)
    ensures Split(s, sep) == [] <==> s != [] && forall i :: 0 <= i < |s| ==> s[i] == sep
    ensures Split(s, sep) != [] ==> Split(s, sep)[0] == FirstPiece(s, sep)
  {
    SplitAllFirst(s, sep);
    SplitAllEmptyPieces(s, sep);
    if sep in s {
      var parts := SplitAll(s, sep);
      var r := DropTrailingEmpty(parts);
      if r == [] {
        assert forall k :: 0 <= k < |parts| ==> parts[k] == "";
      } else {
        assert parts[|r| - 1] != "";
      }
    } else {
      assert s != [] ==> s[0] != sep;
    }
  }

  lemma {:induction false} SplitAllFirst(s: string, sep: char)
    ensures SplitAll(s, sep)[0] == FirstPiece(s, sep)
    decreases |s|
  {
    if s != [] && s[0] != sep {
      SplitAllFirst(s[1..], sep);
    }
  }

  lemma {:induction false} SplitAllEmptyPieces(s: string, sep: char)
    ensures (forall k :: 0 <= k < |SplitAll(s, sep)| ==> SplitAll(s, sep)[k] == "")
            <==> (forall i :: 0 <= i < |s| ==> s[i] == sep)
    decreases |s|
  {
    if s != [] {
      SplitAllEmptyPieces(s[1..], sep);
      var rest := SplitAll(s[1..], sep);
      if s[0] == sep {
        var parts := SplitAll(s, sep);
        assert parts == [""] + rest;
        assert (forall k :: 0 <= k < |parts| ==> parts[k] == "") <==> (forall k :: 0 <= k < |rest| ==> rest[k] == "") by {
          if forall k :: 0 <= k < |rest| ==> rest[k] == "" {
            forall k | 0 <= k < |parts| ensures parts[k] == "" {
              if k > 0 { assert parts[k] == rest[k - 1]; }
            }
          }
          if forall k :: 0 <= k < |parts| ==> parts[k] == "" {
            forall k | 0 <= k < |rest| ensures rest[k] == "" {
              assert rest[k] == parts[k + 1];
            }
          }
        }
        assert (forall i :: 0 <= i < |s| ==> s[i] == sep) <==> (forall i :: 0 <= i < |s[1..]| ==> s[1..][i] == sep) by {
          if forall i :: 0 <= i < |s[1..]| ==> s[1..][i] == sep {
            forall i | 0 <= i < |s| ensures s[i] == sep {
              if i > 0 { assert s[i] == s[1..][i - 1]; }
            }
          }
        }
      } else {
        assert SplitAll(s, sep)[0] != "";
      }
    }
  }

  /** String.join. */
  function Join(parts: seq<string>, sep: string): string
    decreases |parts|
  {
    if parts == [] then ""
    else if |parts| == 1 then parts[0]
    else parts[0] + sep + Join(parts[1..], sep)
  }

  /** The longest prefix of `s` without \s characters. */
  function LeadingWord(s: string): (w: string)
    ensures |w| <= |s| && w == s[..|w|]
    ensures forall i :: 0 <= i < |w| ==> !IsRegexSpace(w[i])
    ensures |w| < |s| ==> IsRegexSpace(s[|w|])
    decreases |s|
  {
    if s == [] || IsRegexSpace(s[0]) then "" else [s[0]] + LeadingWord(s[1..])
  }

  /** The maximal runs of non-\s characters of `s`, in order. */
  function Words(s: string): (ws: seq<string>)
    ensures forall k :: 0 <= k < |ws| ==> ws[k] != ""
    ensures forall k, i :: 0 <= k < |ws| && 0 <= i < |ws[k]| ==> !IsRegexSpace(ws[k][i])
    decreases |s|
  {
    if s == [] then []
    else if IsRegexSpace(s[0]) then Words(s[1..])
    else
      var w := LeadingWord(s);
      [w] + Words(s[|w|..])
  }

  /** `s.split("\\s+")`: a leading empty piece when `s` starts with white
      space, no trailing empty piece, the whole string when it holds no
      white space. */
  function SplitOnWhitespace(s: string): seq<string> {
    if forall i :: 0 <= i < |s| ==> !IsRegexSpace(s[i]) then [s]
    else if Words(s) == [] then []
    else (if IsRegexSpace(s[0]) then [""] else []) + Words(s)
  }

  /** The non-empty strings of `parts`, in order. */
  function NonEmpty(parts: seq<string>): (r: seq<string>)
    ensures forall k :: 0 <= k < |r| ==> r[k] != ""
    decreases |parts|
  {
    if parts == [] then []
    else (if parts[0] == "" then [] else [parts[0]]) + NonEmpty(parts[1..])
  }

  /** The leading word of a text without \s characters is the whole text. */
  lemma {:induction false} LeadingWordOfSpaceFree(s: string)
    requires forall i :: 0 <= i < |s| ==> !IsRegexSpace(s[i])
    ensures LeadingWord(s) == s
    decreases |s|
  {
    if s != [] {
      assert forall i :: 0 <= i < |s| - 1 ==> s[1..][i] == s[i + 1];
      LeadingWordOfSpaceFree(s[1..]);
      assert s == [s[0]] + s[1..];
    }
  }

  /** A non-empty text without \s characters is one word. */
  lemma WordsOfSpaceFree(s: string)
    requires s != [] && forall i :: 0 <= i < |s| ==> !IsRegexSpace(s[i])
    ensures Words(s) == [s]
  {
    LeadingWordOfSpaceFree(s);
    assert s[|s|..] == [];
  }

  /** NonEmpty over a list grown by one piece. */
  lemma {:induction false} NonEmptyAppend(parts: seq<string>, x: string)
    ensures NonEmpty(parts + [x]) == NonEmpty(parts) + (if x == "" then [] else [x])
    decreases |parts|
  {
    if parts == [] {
      assert [] + [x] == [x];
    } else {
      assert (parts + [x])[1..] == parts[1..] + [x];
      NonEmptyAppend(parts[1..], x);
    }
  }

  /** NonEmpty over one more piece of a list. */
  lemma NonEmptyPrefixStep(parts: seq<string>, j: int)
    requires 0 <= j < |parts|
    ensures NonEmpty(parts[..j + 1]) == NonEmpty(parts[..j]) + (if parts[j] == "" then [] else [parts[j]])
  {
    assert parts[..j + 1] == parts[..j] + [parts[j]];
    NonEmptyAppend(parts[..j], parts[j]);
  }

  /** NonEmpty keeps a list without empty pieces as it is. */
  lemma {:induction false} NonEmptyOfNonEmpty(parts: seq<string>)
    requires forall k :: 0 <= k < |parts| ==> parts[k] != ""
    ensures NonEmpty(parts) == parts
    decreases |parts|
  {
    if parts != [] {
      NonEmptyOfNonEmpty(parts[1..]);
      assert parts == [parts[0]] + parts[1..];
    }
  }

  /** On a text that does not start with white space, such as a trimmed
      line, the non-empty pieces of split("\\s+") are its words. */
  lemma SplitOnWhitespaceWords(t: string)
    requires t == [] || !IsRegexSpace(t[0])
    ensures NonEmpty(SplitOnWhitespace(t)) == Words(t)
  {
    if t == [] {
      assert SplitOnWhitespace(t) == [""];
      assert NonEmpty([""]) == NonEmpty([""][1..]);
    } else if forall i :: 0 <= i < |t| ==> !IsRegexSpace(t[i]) {
      WordsOfSpaceFree(t);
      assert SplitOnWhitespace(t) == [t];
      NonEmptyOfNonEmpty([t]);
    } else {
      var ws := Words(t);
      assert SplitOnWhitespace(t) == ws by {
        if ws != [] {
          assert SplitOnWhitespace(t) == [] + ws;
        }
      }
      NonEmptyOfNonEmpty(ws);
    }
  }

  /** The string with every occurrence of `c` removed (String.replace of a
      one-character string by ""). */
  function RemoveChar(s: string, c: char): (r: string)
    ensures c !in r && |r| <= |s|
    decreases |s|
  {
    if s == [] then ""
    else (if s[0] == c then "" else [s[0]]) + RemoveChar(s[1..], c)
  }

  /** Every piece that split keeps is a piece between separators. */
  lemma {:induction false} SplitAllJoin(s: string, sep: char)
    ensures Join(SplitAll(s, sep), [sep]) == s
    decreases |s|
  {
    if s == [] {
    } else if s[0] == sep {
      SplitAllJoin(s[1..], sep);
      var rest := SplitAll(s[1..], sep);
      assert [""] + rest == [""] + rest;
      assert Join([""] + rest, [sep]) == "" + [sep] + Join(rest, [sep]);
      assert s == [sep] + s[1..];
    } else {
      SplitAllJoin(s[1..], sep);
      var rest := SplitAll(s[1..], sep);
      if |rest| == 1 {
        assert s == [s[0]] + rest[0];
      } else {
        assert Join(rest, [sep]) == rest[0] + [sep] + Join(rest[1..], [sep]);
        var r := [[s[0]] + rest[0]] + rest[1..];
        assert r[1..] == rest[1..];
        assert s == [s[0]] + s[1..];
      }
    }
  }

  /** Splitting on `sep` and joining with `sep` gives back the text, up to
      the trailing separators that split drops. */
  lemma {:induction false} SplitJoinNoTrailing(s: string, sep: char)
    requires s == [] || s[|s| - 1] != sep
    ensures Join(Split(s, sep), [sep]) == s
  {
    SplitAllJoin(s, sep);
    if sep in s {
      LastPieceNonEmpty(s, sep);
    }
  }

  /** The last piece of SplitAll is the text after the last separator. */
  lemma {:induction false} LastPieceNonEmpty(s: string, sep: char)
    requires s != [] && s[|s| - 1] != sep
    ensures var p := SplitAll(s, sep); p[|p| - 1] != ""
    decreases |s|
  {
    if |s| > 1 {
      LastPieceNonEmpty(s[1..], sep);
    }
  }

  /** The decimal digit for 0 to 9. */
  function DigitChar(d: nat): char
    requires d < 10
  {
    "0123456789"[d]
  }

  /** Integer.toString for a non-negative value. */
  function NatToString(n: nat): (s: string)
    ensures s != [] && forall i :: 0 <= i < |s| ==> '0' <= s[i] <= '9'
    decreases n
  {
    if n < 10 then [DigitChar(n)] else NatToString(n / 10) + [DigitChar(n % 10)]
  }

  /** Integer.toString: a minus sign before the digits of a negative value. */
  function IntToString(n: int): (s: string)
    ensures s != [] && (s[0] == '-' <==> n < 0)
  {
    if n < 0 then "-" + NatToString(-n) else NatToString(n)
  }
}
