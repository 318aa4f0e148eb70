/** Sheet transcription: the KlangIO submission and webhook, and the
    attachment of lyric syllables to the notes of a MusicXML score. The
    score is the list of its note elements in document order, each given by
    its child nodes; the measures around them, XML parsing and serialisation
    are not modelled. The list of notes is updated in place; each note's
    content is a value. */
module SheetService {
  import opened Wrappers
  import opened JavaText
  import opened SheetMusicEntity

  /** An XML node: an element with its attributes and children, or text. */
  datatype Node = Element(tag: string, attrs: map<string, string>, children: seq<Node>) | Text(content: string)

  /** The message of the DOMException raised when removeChild or
      insertBefore is given a node that is not a child of the receiver. */
  const NotFoundMessage: string :=
    "NOT_FOUND_ERR: An attempt is made to reference a node in a context where it does not exist."

  // ---- element queries ----

  /** getElementsByTagName below a list of sibling nodes: every element
      with that tag, at any depth, in document order. */
  function Tagged(ns: seq<Node>, tag: string): (r: seq<Node>)
    ensures forall k :: 0 <= k < |r| ==> r[k].Element? && r[k].tag == tag
    decreases ns
  {
    if ns == [] then [] else TaggedIn(ns[0], tag) + Tagged(ns[1..], tag)
  }

  /** The elements with that tag in one subtree, the root included. */
  function TaggedIn(n: Node, tag: string): (r: seq<Node>)
    ensures forall k :: 0 <= k < |r| ==> r[k].Element? && r[k].tag == tag
    decreases n
  {
    match n
    case Text(_) => []
    case Element(t, _, children) => (if t == tag then [n] else []) + Tagged(children, tag)
  }

  lemma {:induction false} TaggedAppend(a: seq<Node>, b: seq<Node>, tag: string)
    ensures Tagged(a + b, tag) == Tagged(a, tag) + Tagged(b, tag)
    decreases |a|
  {
    if a == [] {
      assert a + b == b;
    } else {
      assert (a + b)[0] == a[0];
      assert (a + b)[1..] == a[1..] + b;
      TaggedAppend(a[1..], b, tag);
    }
  }

  /** hasElement: the note has a descendant element with that tag. */
  predicate HasElement(note: seq<Node>, tag: string) {
    Tagged(note, tag) != []
  }

  /** getAttribute: the attribute's value, or "" when it is absent. */
  function AttrOf(e: Node, name: string): string
    requires e.Element?
  {
    if name in e.attrs then e.attrs[name] else ""
  }

  /** The note's first notations element has a `tied` descendant of type
      "stop". */
  predicate TiedStop(note: seq<Node>) {
    var notations := Tagged(note, "notations");
    notations != []
    && var tieds := Tagged(notations[0].children, "tied");
       exists i :: 0 <= i < |tieds| && AttrOf(tieds[i], "type") == "stop"
  }

  /** isTiedStop: a scan of the first notations element's tied elements
      that stops at the first of type "stop". */
  method IsTiedStop(note: seq<Node>) returns (r: bool)
    ensures r == TiedStop(note)
  {
    var notations := Tagged(note, "notations");
    if |notations| == 0 {
      return false;
    }
    var notation := notations[0];
    var tieds := Tagged(notation.children, "tied");
    var i := 0;
    while i < |tieds|
      invariant 0 <= i <= |tieds|
      invariant forall j :: 0 <= j < i ==> AttrOf(tieds[j], "type") != "stop"
    {
      var tied := tieds[i];
      var kind := AttrOf(tied, "type");
      if "stop" == kind {
        return true;
      }
      i := i + 1;
    }
    return false;
  }

  /** A note that takes a syllable: it has a pitch and no rest, chord or
      grace descendant, and it is not the stop of a tie. */
  predicate IsValidNote(note: seq<Node>) {
    !HasElement(note, "rest") && !HasElement(note, "chord") && !HasElement(note, "grace")
    && !TiedStop(note) && HasElement(note, "pitch")
  }

  /** Positions into a list of n notes, in strictly increasing order. */
  predicate IndexList(valid: seq<int>, n: int) {
    (forall i :: 0 <= i < |valid| ==> 0 <= valid[i] < n)
    && (forall i, j :: 0 <= i < j < |valid| ==> valid[i] < valid[j])
  }

  /** The positions of the valid notes, in document order. */
  function ValidNotes(notes: seq<seq<Node>>): (r: seq<int>)
    ensures IndexList(r, |notes|)
    decreases |notes|
  {
    if notes == [] then []
    else
      var init := notes[..|notes| - 1];
      ValidNotes(init) + (if IsValidNote(notes[|notes| - 1]) then [|notes| - 1] else [])
  }

  /** ValidNotes keeps exactly the valid notes. */
  lemma {:induction false} ValidNotesExactly(notes: seq<seq<Node>>, k: int)
    requires 0 <= k < |notes|
    ensures k in ValidNotes(notes) <==> IsValidNote(notes[k])
    decreases |notes|
  {
    var init := notes[..|notes| - 1];
    var last := |notes| - 1;
    var tail := if IsValidNote(notes[last]) then [last] else [];
    assert ValidNotes(notes) == ValidNotes(init) + tail;
    if k == last {
      assert k !in ValidNotes(init);
    } else {
      ValidNotesExactly(init, k);
      assert init[k] == notes[k];
    }
  }

  /** getAllValidNotes: the notes are checked one by one in document order. */
  method GetAllValidNotes(score: array<seq<Node>>) returns (valid: seq<int>)
    ensures valid == ValidNotes(score[..])
  {
    valid := [];
    var j := 0;
    while j < score.Length
      invariant 0 <= j <= score.Length
      invariant valid == ValidNotes(score[..j])
    {
      assert score[..j + 1][..j] == score[..j];
      var note := score[j];
      if HasElement(note, "rest") || HasElement(note, "chord") || HasElement(note, "grace") {
        j := j + 1;
        continue;
      }
      var tiedStop := IsTiedStop(note);
      if tiedStop {
        j := j + 1;
        continue;
      }
      if HasElement(note, "pitch") {
        valid := valid + [j];
      }
      j := j + 1;
    }
    assert score[..j] == score[..];
  }

  // ---- syllables ----

  /** The syllables of one lyrics line: the words of the trimmed line. */
  function LineSyllables(line: string): seq<string> {
    Words(Trim(line))
  }

  /** The syllables of the lines, line after line. */
  function Syllables(lines: seq<string>): (r: seq<string>)
    ensures forall k :: 0 <= k < |r| ==> r[k] != ""
    decreases |lines|
  {
    if lines == [] then []
    else Syllables(lines[..|lines| - 1]) + LineSyllables(lines[|lines| - 1])
  }

  /** A blank line adds no syllable. */
  lemma BlankLineNoSyllables(line: string)
    requires Trim(line) == []
    ensures LineSyllables(line) == []
  {
  }

  /** One more line adds the words of the trimmed line. */
  lemma SyllablesStep(lines: seq<string>, i: int)
    requires 0 <= i < |lines|
    ensures Syllables(lines[..i + 1]) == Syllables(lines[..i]) + Words(Trim(lines[i]))
  {
    assert lines[..i + 1][..i] == lines[..i];
  }

  /** The inner loop of parseLyrics: the non-empty pieces, in order. */
  method AppendNonEmpty(syllables: seq<string>, words: seq<string>) returns (r: seq<string>)
    ensures r == syllables + NonEmpty(words)
  {
    r := syllables;
    var j := 0;
    while j < |words|
      invariant 0 <= j <= |words|
      invariant r == syllables + NonEmpty(words[..j])
    {
      NonEmptyPrefixStep(words, j);
      if words[j] != "" {
        r := r + [words[j]];
      }
      j := j + 1;
    }
    assert words[..j] == words;
  }

  /** parseLyrics: every trimmed, non-empty line is split on runs of white
      space and its non-empty pieces are appended. */
  method ParseLyrics(lyrics: string) returns (syllables: seq<string>)
    ensures syllables == Syllables(Lines(lyrics))
  {
    syllables := [];
    var lines := Lines(lyrics);
    var i := 0;
    while i < |lines|
      invariant 0 <= i <= |lines|
      invariant syllables == Syllables(lines[..i])
    {
      SyllablesStep(lines, i);
      syllables := AppendLineSyllables(syllables, lines[i]);
      i := i + 1;
    }
    assert lines[..i] == lines;
  }

  /** One turn of parseLyrics' outer loop: a blank line is skipped, any
      other is trimmed and its non-empty pieces are appended. */
  method AppendLineSyllables(syllables: seq<string>, raw: string) returns (r: seq<string>)
    ensures r == syllables + LineSyllables(raw)
  {
    var line := Trim(raw);
    if line == [] {
      assert Words(line) == [];
      return syllables;
    }
    assert !IsRegexSpace(line[0]);
    SplitOnWhitespaceWords(line);
    r := AppendNonEmpty(syllables, SplitOnWhitespace(line));
  }

  /** determineSyllabicType, from whether the syllable and the one before it
      end with a hyphen. */
  function SyllabicType(syllable: string, index: int, syllables: seq<string>): (r: string)
    requires 0 <= index <= |syllables|
    ensures r in {"begin", "middle", "end", "single"}
    ensures r in {"begin", "middle"} <==> EndsWith(syllable, "-")
    ensures r in {"middle", "end"} <==> index > 0 && EndsWith(syllables[index - 1], "-")
  {
    var hasDashAtEnd := EndsWith(syllable, "-");
    var prevHasDash := index > 0 && EndsWith(syllables[index - 1], "-");
    if hasDashAtEnd && prevHasDash then "middle"
    else if hasDashAtEnd then "begin"
    else if prevHasDash then "end"
    else "single"
  }

  /** Along the syllable list, a word that is continued ("begin" or
      "middle") is always followed by its continuation ("middle" or
      "end"), and only then. */
  lemma SyllabicChain(syllables: seq<string>, i: int)
    requires 0 <= i && i + 1 < |syllables|
    ensures SyllabicType(syllables[i], i, syllables) in {"begin", "middle"}
            <==> SyllabicType(syllables[i + 1], i + 1, syllables) in {"middle", "end"}
  {
  }

  // ---- lyric elements ----

  /** The number and default-y attributes of a lyric line. */
  datatype LyricLine = LyricLine(number: string, defaultY: string)

  /** setTextContent: an empty string leaves the element without children. */
  function TextContent(s: string): (r: seq<Node>)
    ensures s == "" <==> r == []
  {
    if s == "" then [] else [Text(s)]
  }

  lemma {:induction false} TextOnlyHasNoElements(ns: seq<Node>, tag: string)
    requires forall k :: 0 <= k < |ns| ==> ns[k].Text?
    ensures Tagged(ns, tag) == []
    decreases |ns|
  {
    if ns != [] {
      TextOnlyHasNoElements(ns[1..], tag);
    }
  }

  /** createLyricElement: a lyric with the line's attributes, a syllabic
      child and a text child holding the syllable without its hyphens. */
  function LyricElement(syllables: seq<string>, index: int, line: LyricLine): (r: Node)
    requires 0 <= index < |syllables|
    ensures r.Element? && r.tag == "lyric"
    ensures AttrOf(r, "number") == line.number && AttrOf(r, "default-y") == line.defaultY
    ensures |r.children| == 2 && r.children[0].Element? && r.children[1].Element?
    ensures r.children[0].tag == "syllabic"
            && r.children[0].children == [Text(SyllabicType(syllables[index], index, syllables))]
    ensures r.children[1].tag == "text" && r.children[1].children == TextContent(RemoveChar(syllables[index], '-'))
    ensures Tagged(r.children, "lyric") == []
  {
    var syllabic := Element("syllabic", map[], [Text(SyllabicType(syllables[index], index, syllables))]);
    var text := Element("text", map[], TextContent(RemoveChar(syllables[index], '-')));
    assert Tagged([syllabic, text], "lyric") == [] by {
      TextOnlyHasNoElements(syllabic.children, "lyric");
      TextOnlyHasNoElements(text.children, "lyric");
      assert TaggedIn(syllabic, "lyric") == [];
      assert TaggedIn(text, "lyric") == [];
      assert [text][1..] == [];
      assert Tagged([text], "lyric") == [];
      assert [syllabic, text][1..] == [text];
    }
    Element("lyric", map["number" := line.number, "default-y" := line.defaultY], [syllabic, text])
  }

  /** The attributes attachLyricsToNotes gives every lyric. */
  const FirstLine: LyricLine := LyricLine("1", "-80")

  /** The attributes of lyric line n in attachLyricsWithLineNumber: the
      number, and a default-y 12 lower per line below the first. */
  function NumberedLine(lineNumber: int): (r: LyricLine)
    ensures lineNumber == 1 ==> r == FirstLine
  {
    assert NatToString(80) == NatToString(8) + [DigitChar(0)];
    LyricLine(IntToString(lineNumber), IntToString(-80 - (lineNumber - 1) * 12))
  }

  // ---- removing and inserting lyrics ----

  predicate IsLyric(n: Node) {
    n.Element? && n.tag == "lyric"
  }

  /** Every lyric below the note is a direct child of it, so removeChild
      accepts each. */
  predicate LyricsAreChildren(note: seq<Node>) {
    forall k :: 0 <= k < |note| && note[k].Element? ==> Tagged(note[k].children, "lyric") == []
  }

  /** The note's children without the lyric elements, in order. */
  function DropLyricChildren(note: seq<Node>): (r: seq<Node>)
    ensures forall k :: 0 <= k < |r| ==> !IsLyric(r[k])
    ensures forall x :: x in r <==> x in note && !IsLyric(x)
    decreases |note|
  {
    if note == [] then []
    else (if IsLyric(note[0]) then [] else [note[0]]) + DropLyricChildren(note[1..])
  }

  /** With every lyric a direct child, none is left after dropping them. */
  lemma {:induction false} DropLeavesNoLyric(note: seq<Node>)
    requires LyricsAreChildren(note)
    ensures Tagged(DropLyricChildren(note), "lyric") == []
    decreases |note|
  {
    if note != [] {
      assert LyricsAreChildren(note[1..]) by {
        forall k | 0 <= k < |note[1..]| && note[1..][k].Element?
          ensures Tagged(note[1..][k].children, "lyric") == []
        {
          assert note[1..][k] == note[k + 1];
        }
      }
      DropLeavesNoLyric(note[1..]);
      var head := if IsLyric(note[0]) then [] else [note[0]];
      TaggedAppend(head, DropLyricChildren(note[1..]), "lyric");
      if !IsLyric(note[0]) {
        assert [note[0]][1..] == [];
      }
    }
  }

  /** removeExistingLyrics: every lyric below the note is removed through
      note.removeChild, which rejects one that is nested deeper. */
  function RemoveExistingLyrics(note: seq<Node>): (r: Result<seq<Node>>)
    ensures r.Ok? <==> LyricsAreChildren(note)
    ensures r.Err? ==> r.error == NotFoundMessage
    ensures r.Ok? ==> Tagged(r.value, "lyric") == []
    ensures r.Ok? ==> forall x :: x in r.value <==> x in note && !IsLyric(x)
  {
    if LyricsAreChildren(note) then
      DropLeavesNoLyric(note);
      Ok(DropLyricChildren(note))
    else Err(NotFoundMessage)
  }

  /** Where the first element with a tag stands below a note: as the child
      at `index`, or deeper, with or without a next sibling. */
  datatype Hit = Direct(index: nat) | Nested(hasNext: bool)

  /** The first element with that tag in document order, located relative
      to the list `ns` of the note's children. */
  function Locate(ns: seq<Node>, tag: string): (r: Option<Hit>)
    ensures r.Some? && r.value.Direct? ==> r.value.index < |ns| && IsTagged(ns[r.value.index], tag)
    decreases ns
  {
    if ns == [] then None
    else if IsTagged(ns[0], tag) then Some(Direct(0))
    else if ns[0].Element? && LocateBelow(ns[0].children, tag).Some? then
      Some(Nested(LocateBelow(ns[0].children, tag).value))
    else
      match Locate(ns[1..], tag)
      case Some(Direct(i)) => Some(Direct(i + 1))
      case other => other
  }

  predicate IsTagged(n: Node, tag: string) {
    n.Element? && n.tag == tag
  }

  /** Whether the first element with that tag at any depth below `ns` has a
      next sibling, when there is one. */
  function LocateBelow(ns: seq<Node>, tag: string): Option<bool>
    decreases ns
  {
    if ns == [] then None
    else if IsTagged(ns[0], tag) then Some(|ns| > 1)
    else if ns[0].Element? && LocateBelow(ns[0].children, tag).Some? then LocateBelow(ns[0].children, tag)
    else LocateBelow(ns[1..], tag)
  }

  lemma {:induction false} LocateBelowFinds(ns: seq<Node>, tag: string)
    ensures LocateBelow(ns, tag).None? <==> Tagged(ns, tag) == []
    decreases ns
  {
    if ns != [] {
      if !IsTagged(ns[0], tag) && ns[0].Element? {
        LocateBelowFinds(ns[0].children, tag);
      }
      LocateBelowFinds(ns[1..], tag);
    }
  }

  /** Locate finds the element getElementsByTagName lists first: there is
      one exactly when the list is non-empty, and a direct hit is that
      element. */
  lemma {:induction false} LocateFindsFirst(ns: seq<Node>, tag: string)
    ensures Locate(ns, tag).None? <==> Tagged(ns, tag) == []
    ensures Locate(ns, tag).Some? && Locate(ns, tag).value.Direct? ==>
              Tagged(ns, tag)[0] == ns[Locate(ns, tag).value.index]
    decreases ns
  {
    if ns != [] {
      if !IsTagged(ns[0], tag) {
        if ns[0].Element? {
          LocateBelowFinds(ns[0].children, tag);
        }
        LocateFindsFirst(ns[1..], tag);
      }
    }
  }

  /** insertLyricElement: right after the first notations element, which
      is the node's next sibling; appended when there is no notations
      element or it is the last of its siblings; rejected by insertBefore
      when that sibling is not a child of the note. */
  function InsertLyric(note: seq<Node>, lyric: Node): (r: Result<seq<Node>>)
    ensures r.Ok? ==> exists p :: 0 <= p <= |note| && r.value == note[..p] + [lyric] + note[p..]
    ensures r.Err? <==> Locate(note, "notations") == Some(Nested(true))
    ensures r.Err? ==> r.error == NotFoundMessage
    ensures Tagged(note, "notations") == [] ==> r == Ok(note + [lyric])
    ensures Locate(note, "notations").Some? && Locate(note, "notations").value.Direct? ==>
              var i := Locate(note, "notations").value.index;
              r.Ok? && |r.value| == |note| + 1 && Tagged(note, "notations") != []
              && r.value[i] == Tagged(note, "notations")[0] && r.value[i + 1] == lyric
  {
    LocateFindsFirst(note, "notations");
    assert note == note[..|note|] && note[|note|..] == [];
    match Locate(note, "notations")
    case None => Ok(note + [lyric])
    case Some(Direct(i)) =>
      if i + 1 < |note| then Ok(note[..i + 1] + [lyric] + note[i + 1..])
      else Ok(note + [lyric])
    case Some(Nested(hasNext)) =>
      if hasNext then Err(NotFoundMessage) else Ok(note + [lyric])
  }

  /** The work done for one note: optionally remove its lyrics, then insert
      the new one. */
  function AttachToNote(note: seq<Node>, lyric: Node, clear: bool): (r: Result<seq<Node>>)
  {
    if clear then
      match RemoveExistingLyrics(note)
      case Err(e) => Err(e)
      case Ok(cleared) => InsertLyric(cleared, lyric)
    else InsertLyric(note, lyric)
  }

  /** After attachLyricsToNotes has handled a note, the new lyric is the
      only lyric below it. */
  lemma OneLyricAfterAttach(note: seq<Node>, syllables: seq<string>, index: int, line: LyricLine)
    requires 0 <= index < |syllables|
    requires AttachToNote(note, LyricElement(syllables, index, line), true).Ok?
    ensures var lyric := LyricElement(syllables, index, line);
            Tagged(AttachToNote(note, lyric, true).value, "lyric") == [lyric]
  {
    var lyric := LyricElement(syllables, index, line);
    var cleared := RemoveExistingLyrics(note).value;
    var r := InsertLyric(cleared, lyric).value;
    var p :| 0 <= p <= |cleared| && r == cleared[..p] + [lyric] + cleared[p..];
    assert cleared == cleared[..p] + cleared[p..];
    TaggedAppend(cleared[..p], cleared[p..], "lyric");
    TaggedAppend(cleared[..p] + [lyric], cleared[p..], "lyric");
    TaggedAppend(cleared[..p], [lyric], "lyric");
    assert Tagged([lyric], "lyric") == [lyric] by {
      assert [lyric][1..] == [];
    }
  }

  // ---- attaching a list of syllables ----

  function Min(a: int, b: int): int {
    if a < b then a else b
  }

  /** What handling one (note, syllable) pair does to the note. */
  type NoteStep = (seq<Node>, int) -> Result<seq<Node>>

  /** The pair step of the two attach loops: the i-th syllable's lyric
      element for the given line, with or without removing the note's
      lyrics first. */
  function PairStep(syllables: seq<string>, line: LyricLine, clear: bool): NoteStep {
    (note: seq<Node>, i: int) =>
      if 0 <= i < |syllables| then AttachToNote(note, LyricElement(syllables, i, line), clear) else Ok(note)
  }

  /** The notes after the first n pairs have been handled in order, or the
      first DOM error. */
  function AttachPrefix(notes: seq<seq<Node>>, valid: seq<int>, n: nat, step: NoteStep): (r: Result<seq<seq<Node>>>)
    requires IndexList(valid, |notes|) && n <= |valid|
    ensures r.Ok? ==> |r.value| == |notes|
    decreases n
  {
    if n == 0 then Ok(notes)
    else
      match AttachPrefix(notes, valid, n - 1, step)
      case Err(e) => Err(e)
      case Ok(ns) =>
        match step(ns[valid[n - 1]], n - 1)
        case Err(e) => Err(e)
        case Ok(x) => Ok(ns[valid[n - 1] := x])
  }

  /** No pair before the n-th touches note k. */
  predicate Untouched(valid: seq<int>, n: int, k: int)
    requires 0 <= n <= |valid|
  {
    forall i :: 0 <= i < n ==> valid[i] != k
  }

  /** After the first n pairs, the i-th valid note holds the i-th step
      applied to that note as it was, and every note no pair touches is as
      it was. */
  lemma {:induction false} AttachPrefixValues(notes: seq<seq<Node>>, valid: seq<int>, n: nat, step: NoteStep)
    requires IndexList(valid, |notes|) && n <= |valid|
    requires AttachPrefix(notes, valid, n, step).Ok?
    ensures var r := AttachPrefix(notes, valid, n, step).value;
            (forall i :: 0 <= i < n ==> step(notes[valid[i]], i).Ok? && r[valid[i]] == step(notes[valid[i]], i).value)
            && (forall k :: 0 <= k < |notes| && Untouched(valid, n, k) ==> r[k] == notes[k])
    decreases n
  {
    if n > 0 {
      AttachPrefixValues(notes, valid, n - 1, step);
      var prev := AttachPrefix(notes, valid, n - 1, step).value;
      var k := valid[n - 1];
      assert Untouched(valid, n - 1, k);
      assert prev[k] == notes[k];
    }
  }

  /** The first n pairs succeed exactly when each step succeeds on its
      note as it was. */
  lemma {:induction false} AttachPrefixSucceeds(notes: seq<seq<Node>>, valid: seq<int>, n: nat, step: NoteStep)
    requires IndexList(valid, |notes|) && n <= |valid|
    ensures AttachPrefix(notes, valid, n, step).Ok? <==> forall i :: 0 <= i < n ==> step(notes[valid[i]], i).Ok?
    decreases n
  {
    if n > 0 {
      AttachPrefixSucceeds(notes, valid, n - 1, step);
      var prev := AttachPrefix(notes, valid, n - 1, step);
      if prev.Ok? {
        AttachPrefixValues(notes, valid, n - 1, step);
        assert Untouched(valid, n - 1, valid[n - 1]);
      }
    }
  }

  /** One more pair, handled on the notes as the earlier pairs left them. */
  lemma AttachPrefixNext(notes: seq<seq<Node>>, valid: seq<int>, n: nat, step: NoteStep, current: seq<seq<Node>>)
    requires IndexList(valid, |notes|) && n < |valid|
    requires AttachPrefix(notes, valid, n, step) == Ok(current)
    ensures AttachPrefix(notes, valid, n + 1, step)
            == match step(current[valid[n]], n)
               case Err(e) => Err(e)
               case Ok(x) => Ok(current[valid[n] := x])
  {
  }

  /** Once a pair fails, the later pairs are not attempted. */
  lemma {:induction false} AttachPrefixErrorStays(notes: seq<seq<Node>>, valid: seq<int>, n: nat, m: nat, step: NoteStep)
    requires IndexList(valid, |notes|) && n <= m <= |valid|
    requires AttachPrefix(notes, valid, n, step).Err?
    ensures AttachPrefix(notes, valid, m, step) == AttachPrefix(notes, valid, n, step)
    decreases m - n
  {
    if n < m {
      AttachPrefixErrorStays(notes, valid, n + 1, m, step);
    }
  }

  /** The loop shared by attachLyricsToNotes and
      attachLyricsWithLineNumber: the step applied to the first `count`
      (note, syllable) pairs in order. After a DOM error the document is
      abandoned, so its contents are then left unstated. */
  method AttachLyrics(score: array<seq<Node>>, valid: seq<int>, count: nat, step: NoteStep) returns (r: Outcome)
    requires IndexList(valid, score.Length) && count <= |valid|
    modifies score
    ensures var spec := AttachPrefix(old(score[..]), valid, count, step);
            (spec.Ok? ==> r == Pass && score[..] == spec.value)
            && (spec.Err? ==> r == Fail(spec.error))
  {
    ghost var notes := score[..];
    var i := 0;
    while i < count
      invariant 0 <= i <= count
      invariant AttachPrefix(notes, valid, i, step) == Ok(score[..])
    {
      var note := score[valid[i]];
      var attached := step(note, i);
      AttachPrefixNext(notes, valid, i, step, score[..]);
      if attached.Err? {
        AttachPrefixErrorStays(notes, valid, i + 1, count, step);
        return Fail(attached.error);
      }
      ghost var before := score[..];
      score[valid[i]] := attached.value;
      assert score[..] == before[valid[i] := attached.value];
      i := i + 1;
    }
    r := Pass;
  }

  /** attachLyricsToNotes. */
  method AttachLyricsToNotes(score: array<seq<Node>>, valid: seq<int>, syllables: seq<string>) returns (r: Outcome)
    requires IndexList(valid, score.Length)
    modifies score
    ensures var spec := AttachPrefix(old(score[..]), valid, Min(|valid|, |syllables|), PairStep(syllables, FirstLine, true));
            (spec.Ok? ==> r == Pass && score[..] == spec.value)
            && (spec.Err? ==> r == Fail(spec.error))
  {
    var minSize := if |valid| < |syllables| then |valid| else |syllables|;
    r := AttachLyrics(score, valid, minSize, PairStep(syllables, FirstLine, true));
  }

  /** attachLyricsWithLineNumber: existing lyrics are kept. */
  method AttachLyricsWithLineNumber(score: array<seq<Node>>, valid: seq<int>, syllables: seq<string>, lineNumber: int)
    returns (r: Outcome)
    requires IndexList(valid, score.Length)
    modifies score
    ensures var spec := AttachPrefix(old(score[..]), valid, Min(|valid|, |syllables|),
                                     PairStep(syllables, NumberedLine(lineNumber), false));
            (spec.Ok? ==> r == Pass && score[..] == spec.value)
            && (spec.Err? ==> r == Fail(spec.error))
  {
    var minSize := if |valid| < |syllables| then |valid| else |syllables|;
    r := AttachLyrics(score, valid, minSize, PairStep(syllables, NumberedLine(lineNumber), false));
  }

  /** addLyricsToMusicXML on the parsed score: syllables from the lyrics,
      the valid notes, then attachLyricsToNotes. */
  method AddLyricsToMusicXML(score: array<seq<Node>>, lyrics: string) returns (r: Outcome)
    modifies score
    ensures var valid := ValidNotes(old(score[..]));
            var syllables := Syllables(Lines(lyrics));
            var spec := AttachPrefix(old(score[..]), valid, Min(|valid|, |syllables|), PairStep(syllables, FirstLine, true));
            (spec.Ok? ==> r == Pass && score[..] == spec.value)
            && (spec.Err? ==> r == Fail(spec.error))
  {
    var syllables := ParseLyrics(lyrics);
    var notes := GetAllValidNotes(score);
    r := AttachLyricsToNotes(score, notes, syllables);
  }

  /** removeAllLyrics: the lyrics of every note are removed in turn. */
  method RemoveAllLyrics(score: array<seq<Node>>) returns (r: Outcome)
    modifies score
    ensures (forall k :: 0 <= k < score.Length ==> LyricsAreChildren(old(score[k]))) ==>
              r == Pass
              && forall k :: 0 <= k < score.Length ==>
                   score[k] == RemoveExistingLyrics(old(score[k])).value && Tagged(score[k], "lyric") == []
    ensures (exists k :: 0 <= k < score.Length && !LyricsAreChildren(old(score[k]))) ==> r == Fail(NotFoundMessage)
  {
    ghost var before := score[..];
    var i := 0;
    while i < score.Length
      invariant 0 <= i <= score.Length && |before| == score.Length
      invariant forall k :: 0 <= k < i ==> LyricsAreChildren(before[k])
      invariant forall k :: 0 <= k < i ==> score[k] == RemoveExistingLyrics(before[k]).value
      invariant forall k :: i <= k < score.Length ==> score[k] == before[k]
    {
      var removed := RemoveExistingLyrics(score[i]);
      if removed.Err? {
        assert !LyricsAreChildren(before[i]);
        return Fail(removed.error);
      }
      ghost var prev := score[..];
      score[i] := removed.value;
      assert score[..] == prev[i := removed.value];
      i := i + 1;
    }
    r := Pass;
  }

  // ---- KlangIO submission and webhook ----

  /** String.equalsIgnoreCase, on ASCII letters. */
  function UpperAscii(c: char): char {
    if 'a' <= c <= 'z' then (c as int - 32) as char else c
  }

  predicate EqualsIgnoreCase(a: string, b: string) {
    |a| == |b| && forall i :: 0 <= i < |a| ==> UpperAscii(a[i]) == UpperAscii(b[i])
  }

  /** handleKlangIOCallback on the sheet with the callback's task id.
      `merged` is the downloaded MusicXML with the lyrics attached, or the
      message of the exception raised on the way. The current status is
      not consulted. */
  function AfterCallback(s: SheetRecord, status: Option<string>, error: Option<string>, merged: Result<string>, now: int)
    : (r: SheetRecord)
    ensures r.(status := s.status, errorMessage := s.errorMessage, sheetMusicXml := s.sheetMusicXml,
               sheetModelAI := s.sheetModelAI, completedAt := s.completedAt) == s
    ensures r.status != s.status ==> r.status in {SHEET_COMPLETED, SHEET_FAILED}
    ensures status.Some? && EqualsIgnoreCase(status.value, "COMPLETED") && merged.Ok? ==>
              && r.status == SHEET_COMPLETED && r.sheetMusicXml == Some(merged.value)
              && r.sheetModelAI == Some("KlangIO AI") && r.completedAt == Some(now)
              && r.errorMessage == s.errorMessage
    ensures status.Some? && EqualsIgnoreCase(status.value, "COMPLETED") && merged.Err? ==>
              r == s.(status := SHEET_FAILED, errorMessage := Some("Error processing MusicXML: " + merged.error))
    ensures status == Some("FAILED") ==>
              r == s.(status := SHEET_FAILED, errorMessage := Some("Generation failed: " + error.GetOr("null")))
    ensures !(status.Some? && EqualsIgnoreCase(status.value, "COMPLETED")) && status != Some("FAILED") ==> r == s
  {
    assert !EqualsIgnoreCase("FAILED", "COMPLETED");
    if status.Some? && EqualsIgnoreCase(status.value, "COMPLETED") then
      match merged
      case Ok(xml) =>
        s.(sheetMusicXml := Some(xml), sheetModelAI := Some("KlangIO AI"), status := SHEET_COMPLETED,
           completedAt := Some(now))
      case Err(m) => s.(status := SHEET_FAILED, errorMessage := Some("Error processing MusicXML: " + m))
    else if status == Some("FAILED") then
      s.(status := SHEET_FAILED, errorMessage := Some("Generation failed: " + error.GetOr("null")))
    else s
  }

  /** "COMPLETED" is recognised in any letter case, "FAILED" only as
      written; any other status leaves the record as it was. */
  lemma CallbackStatusMatching(s: SheetRecord, error: Option<string>, merged: Result<string>, now: int)
    ensures AfterCallback(s, Some("completed"), error, merged, now) == AfterCallback(s, Some("COMPLETED"), error, merged, now)
    ensures AfterCallback(s, Some("failed"), error, merged, now) == s
    ensures AfterCallback(s, None, error, merged, now) == s
    ensures AfterCallback(s, Some("FAILED"), error, merged, now).status == SHEET_FAILED
  {
    assert EqualsIgnoreCase("completed", "COMPLETED");
    assert !EqualsIgnoreCase("failed", "COMPLETED");
  }

  /** handleKlangIOCallback. */
  method HandleKlangIOCallback(found: Option<SheetMusic>, id: string, status: Option<string>, error: Option<string>,
                               merged: Result<string>, now: int)
    returns (r: Outcome)
    modifies if found.Some? then {found.value} else {}
    ensures found.None? ==> r == Fail("Sheet music not found for TaskID: " + id)
    ensures found.Some? ==>
              r == Pass && found.value.Snapshot() == AfterCallback(old(found.value.Snapshot()), status, error, merged, now)
  {
    if found.None? {
      return Fail("Sheet music not found for TaskID: " + id);
    }
    var sheetMusic := found.value;
    if status.Some? && EqualsIgnoreCase(status.value, "COMPLETED") {
      if merged.Ok? {
        sheetMusic.sheetMusicXml := Some(merged.value);
        sheetMusic.sheetModelAI := Some("KlangIO AI");
        sheetMusic.status := SHEET_COMPLETED;
        sheetMusic.completedAt := Some(now);
      } else {
        sheetMusic.status := SHEET_FAILED;
        sheetMusic.errorMessage := Some("Error processing MusicXML: " + merged.error);
      }
    } else if status == Some("FAILED") {
      sheetMusic.status := SHEET_FAILED;
      sheetMusic.errorMessage := Some("Generation failed: " + error.GetOr("null"));
    }
    r := Pass;
  }

  /** What downloading the sheet's audio gives: the bytes, an empty body,
      or a RestClientException. */
  datatype AudioDownload = AudioBytes | AudioEmpty | AudioRestError

  /** What the transcription call gives: a response with its status (2xx
      or not, and its text) and job id, a RestClientException, or another
      exception, given by its toString(). */
  datatype TranscribeReply =
    | Transcribed(successful: bool, statusText: string, jobId: Option<string>)
    | TranscribeRestError
    | TranscribeError(description: string)

  /** The parts of generateSheet's response the service decides. */
  datatype SheetResponse = SheetResponse(status: string, message: string, errorMessage: Option<string>)

  const AudioFileNullMessage: string :=
    "java.lang.NullPointerException: Cannot invoke \"com.nckh.entity.MediaFile.getFileUrl()\" because the return value of \"com.nckh.entity.SheetMusic.getAudioFile()\" is null"

  /** The submission is accepted: the sheet has audio, the download gave
      bytes and the transcription answered with a 2xx status. */
  predicate Accepted(hasAudio: bool, download: AudioDownload, reply: TranscribeReply) {
    hasAudio && download.AudioBytes? && reply.Transcribed? && reply.successful
  }

  /** generateSheet's answer for an existing user and sheet. Every
      exception but a RestClientException is rethrown wrapped, so its
      message is the original's toString(). */
  function SubmissionReply(hasAudio: bool, download: AudioDownload, reply: TranscribeReply): (r: Result<SheetResponse>)
    ensures Accepted(hasAudio, download, reply) <==>
              r == Ok(SheetResponse("SHEET_GENERATE_PROCESSING", "Sheet music generation request accepted", None))
    ensures !hasAudio ==> r == Err(AudioFileNullMessage)
    ensures r.Ok? ==> hasAudio && download.AudioBytes? && reply.Transcribed?
    ensures r.Ok? && !Accepted(hasAudio, download, reply) ==>
              r.value.status == "FAILED" && r.value.errorMessage == Some("HTTP Status: " + reply.statusText)
  {
    if !hasAudio then Err(AudioFileNullMessage)
    else if download.AudioEmpty? then Err("java.lang.RuntimeException: Empty response when downloading music")
    else if download.AudioRestError? then Err("java.lang.RuntimeException: Failed to download music")
    else
      match reply
      case TranscribeRestError => Err("Failed to generate sheet music")
      case TranscribeError(d) => Err(d)
      case Transcribed(successful, statusText, jobId) =>
        if successful then Ok(SheetResponse("SHEET_GENERATE_PROCESSING", "Sheet music generation request accepted", None))
        else Ok(SheetResponse("FAILED", "Failed to initiate sheet music generation", Some("HTTP Status: " + statusText)))
  }

  /** generateSheet. */
  method GenerateSheet(userFound: bool, found: Option<SheetMusic>, download: AudioDownload, reply: TranscribeReply)
    returns (r: Result<SheetResponse>)
    modifies if found.Some? then {found.value} else {}
    ensures !userFound ==> r == Err("User not found")
    ensures userFound && found.None? ==> r == Err("Sheet music not found")
    ensures userFound && found.Some? ==> r == SubmissionReply(old(found.value.audioFileUrl).Some?, download, reply)
    ensures found.Some? ==>
              found.value.Snapshot()
              == if userFound && Accepted(old(found.value.audioFileUrl).Some?, download, reply)
                 then old(found.value.Snapshot()).(taskId := reply.jobId, status := SHEET_GENERATE_PROCESSING)
                 else old(found.value.Snapshot())
  {
    if !userFound {
      return Err("User not found");
    }
    if found.None? {
      return Err("Sheet music not found");
    }
    var sheetMusic := found.value;
    var hasAudio := sheetMusic.audioFileUrl.Some?;
    r := SubmissionReply(hasAudio, download, reply);
    if Accepted(hasAudio, download, reply) {
      sheetMusic.taskId := reply.jobId;
      sheetMusic.status := SHEET_GENERATE_PROCESSING;
    }
  }
}
