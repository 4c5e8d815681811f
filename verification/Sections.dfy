/** The bundled text and its way back to sections. */
module Sections {
  import opened Common
  import opened Definitions
  import opened WalkOrder
  import opened Bundles
  import opened Text

  /** The text for a list of names: IDL texts announce the root too. */
  function Bundle(files: Files, f: Format, names: seq<string>): string
    requires names != []
  {
    var text := TextOf(files, f, names[0]) + SectionsText(files, f, names[1..]);
    if f.IDL? then Delimiter(IDL, names[0]) + text else text
  }

  /**
   The result in terms of the dependency graphs alone: the complete MSG preorder if there is one,
   otherwise the complete IDL preorder provided the first MSG failure is a missing definition.
   */
  lemma FullTextExact(files: Files, name: string)
    ensures forall names | Complete(files, MSG, name, names) ::
              FullText(files, name) == Ok((MSG, Bundle(files, MSG, names)))
    ensures forall names | FailsWith(files, MSG, name, names, Other) ::
              FullText(files, name) == Err(Other)
    ensures forall names, names' |
              FailsWith(files, MSG, name, names, NotFound) && Complete(files, IDL, name, names') ::
              FullText(files, name) == Ok((IDL, Bundle(files, IDL, names')))
    ensures forall names, names', e |
              FailsWith(files, MSG, name, names, NotFound) && FailsWith(files, IDL, name, names', e) ::
              FullText(files, name) == Err(e)
  {
    FallbackIsFresh(files, name);
    OutcomeDetermined(files, MSG, name);
    OutcomeDetermined(files, IDL, name);
  }

  /** The graph determines error, names and text of a walk. */
  lemma OutcomeDetermined(files: Files, f: Format, name: string)
    ensures var w := Visit(files, f, name, {});
      && (forall names | Complete(files, f, name, names) ::
            && w.error == None
            && (if f.IDL? then Delimiter(IDL, name) + w.text else w.text)
               == Bundle(files, f, names))
      && (forall names, e | FailsWith(files, f, name, names, e) :: w.error == Some(e))
  {
    var w := Visit(files, f, name, {});
    var mine := [name] + w.visited;
    WalkOutcome(files, f, name, {});
    forall names | Complete(files, f, name, names)
      ensures w.error == None
      ensures (if f.IDL? then Delimiter(IDL, name) + w.text else w.text) == Bundle(files, f, names)
    {
      CompleteNeverFails(files, f, name, names);
      PreorderUnique(files, f, mine, names);
      VisitText(files, f, name, {});
      assert mine[1..] == w.visited;
    }
    forall names, e | FailsWith(files, f, name, names, e) ensures w.error == Some(e) {
      if w.error.None? {
        CompleteNeverFails(files, f, name, mine);
      } else {
        FirstFailureUnique(files, f, name, mine, w.error.value, names, e);
      }
    }
  }

  lemma CompleteNeverFails(files: Files, f: Format, root: string, names: seq<string>)
    requires Complete(files, f, root, names)
    ensures forall p, e :: !FailsWith(files, f, root, p, e)
  {
    forall p, e | Preorder(files, f, p) && p[0] == root ensures !FailsWith(files, f, root, p, e) {
      NotLonger(files, f, names, p);
      PreordersAgree(files, f, names, p, |p|);
      assert p[|p| - 1] == p[..|p|][|p| - 1] == names[..|p|][|p| - 1] == names[|p| - 1];
      assert names[|p| - 1] in names && Loads(files, f, p[|p| - 1]);
    }
  }

  // ------------------------------------------------------------------ taking it apart

  /** The root of an MSG text has no header; what has a malformed one is garbled. */
  datatype Section =
    | Root(text: string)
    | Named(format: Format, name: string, text: string)
    | Garbled

  function Lines(text: string): seq<string> {
    Split(text, "\n")
  }

  function DecodeBlock(block: seq<string>): Section {
    if |block| < 2 || |block[0]| < 5 then Garbled
    else if block[0][..5] == "MSG: " then Named(MSG, block[0][5..], Join(block[1..], "\n"))
    else if block[0][..5] == "IDL: " then Named(IDL, block[0][5..], Join(block[1..], "\n"))
    else Garbled
  }

  function DecodeBlocks(blocks: seq<seq<string>>): seq<Section> {
    seq(|blocks|, i requires 0 <= i < |blocks| => DecodeBlock(blocks[i]))
  }

  /** Splits a text at its lines of exactly 80 equals signs. */
  function Unbundle(text: string): seq<Section> {
    var blocks := Split(Lines(text), [RULE]);
    (if blocks[0] == [] then [] else [Root(Join(blocks[0], "\n"))])
    + DecodeBlocks(blocks[1..])
  }

  function NamedSections(files: Files, f: Format, names: seq<string>): seq<Section> {
    seq(|names|, i requires 0 <= i < |names| => Named(f, names[i], TextOf(files, f, names[i])))
  }

  /** The sections that went into `Bundle`. */
  function SectionsOf(files: Files, f: Format, names: seq<string>): seq<Section>
    requires names != []
  {
    if f.IDL? then NamedSections(files, f, names)
    else [Root(TextOf(files, f, names[0]))] + NamedSections(files, f, names[1..])
  }

  /** A line of exactly 80 equals signs. */
  predicate IsRule(line: string) {
    |line| == 80 && forall i | 0 <= i < 80 :: line[i] == '='
  }

  /** No line of the text is a rule. */
  predicate Clean(text: string) {
    forall line | line in Lines(text) :: !IsRule(line)
  }

  lemma CleanIff(text: string)
    ensures Clean(text) <==> RULE !in Lines(text)
  {
    assert IsRule(RULE) by {
      assert forall i | 0 <= i < 80 :: RULE[i] in RULE;
    }
    forall line | IsRule(line) ensures line == RULE {
      assert forall i | 0 <= i < 80 :: line[i] == RULE[i];
    }
  }

  lemma {:induction false} ValidNameHasNoNewline(name: string)
    requires ValidName(name)
    ensures '\n' !in name
  {
    var i :| 0 <= i < |name| && name[i] == '/' && IsWord(name[..i])
             && (IsWord(name[i + 1..])
                 || (i + 5 <= |name| && name[i + 1..i + 5] == "msg/" && IsWord(name[i + 5..])));
    forall k | 0 <= k < |name| ensures name[k] != '\n' {
      if k < i {
        assert name[k] in name[..i];
      } else if k > i && IsWord(name[i + 1..]) {
        assert name[k] == name[i + 1..][k - i - 1] && name[k] in name[i + 1..];
      } else if i < k < i + 5 {
        assert name[k] == name[i + 1..i + 5][k - i - 1];
      } else if k > i {
        assert name[k] == name[i + 5..][k - i - 5] && name[k] in name[i + 5..];
      }
    }
  }

  /** The lines of the section of one name, after its rule. */
  function BlockLines(files: Files, f: Format, name: string): seq<string> {
    [Header(f, name)] + Lines(TextOf(files, f, name))
  }

  function SectionLines(files: Files, f: Format, names: seq<string>): seq<string> {
    if names == [] then []
    else [RULE] + BlockLines(files, f, names[0]) + SectionLines(files, f, names[1..])
  }

  /** A header line and the text after it split cleanly. */
  lemma HeaderLines(f: Format, name: string, rest: string)
    requires '\n' !in name
    ensures Lines(Delimiter(f, name) + rest) == [RULE] + ([Header(f, name)] + Lines(rest))
  {
    var header := Header(f, name);
    SplitWhole(RULE, '\n');
    SplitWhole(header, '\n');
    SplitAppend(header, '\n', rest);
    SplitAppend(RULE, '\n', header + "\n" + rest);
    Associate(RULE + "\n", header + "\n", rest);
  }

  lemma Regroup<T>(a: seq<T>, b: seq<T>, c: seq<T>, d: seq<T>, e: seq<T>)
    ensures a + ((b + c + d) + e) == a + b + (c + (d + e))
  {}

  /** The lines of a text followed by sections. */
  lemma {:induction false} LinesOfSections(files: Files, f: Format, text: string, names: seq<string>)
    requires forall n | n in names :: '\n' !in n
    ensures Lines(text + SectionsText(files, f, names))
            == Lines(text) + SectionLines(files, f, names)
    decreases |names|
  {
    if names == [] {
      assert text + "" == text;
    } else {
      var n, own := names[0], TextOf(files, f, names[0]);
      var rest := SectionsText(files, f, names[1..]);
      LinesOfSections(files, f, own, names[1..]);
      HeaderLines(f, n, own + rest);
      SplitAppend(text, '\n', Delimiter(f, n) + (own + rest));
      Regroup(text, "\n", Delimiter(f, n), own, rest);
      LinesTail(files, f, names);
    }
  }

  lemma LinesTail(files: Files, f: Format, names: seq<string>)
    requires names != []
    ensures [RULE] + ([Header(f, names[0])]
                      + (Lines(TextOf(files, f, names[0])) + SectionLines(files, f, names[1..])))
            == SectionLines(files, f, names)
  {}

  /** The blocks of the named sections, should some text contain rules itself. */
  function Blocks(files: Files, f: Format, names: seq<string>): seq<seq<string>> {
    if names == [] then []
    else Split(BlockLines(files, f, names[0]), [RULE]) + Blocks(files, f, names[1..])
  }

  lemma Regroup3<T>(a: seq<T>, b: seq<T>, c: seq<T>, d: seq<T>)
    ensures a + (b + c + d) == a + b + (c + d)
  {}

  lemma {:induction false} BlocksOfLines(files: Files, f: Format, lines: seq<string>,
                                         names: seq<string>)
    ensures Split(lines + SectionLines(files, f, names), [RULE])
            == Split(lines, [RULE]) + Blocks(files, f, names)
    decreases |names|
  {
    if names == [] {
      assert lines + [] == lines;
    } else {
      var block := BlockLines(files, f, names[0]);
      var rest := SectionLines(files, f, names[1..]);
      BlocksOfLines(files, f, block, names[1..]);
      SplitAppend(lines, RULE, block + rest);
      Regroup3(lines, [RULE], block, rest);
    }
  }

  /** A text without rules keeps its section in one piece. */
  lemma BlockIffClean(files: Files, f: Format, name: string)
    ensures |Split(BlockLines(files, f, name), [RULE])| == 1 <==> Clean(TextOf(files, f, name))
    ensures Clean(TextOf(files, f, name)) ==>
              Split(BlockLines(files, f, name), [RULE]) == [BlockLines(files, f, name)]
  {
    var block := BlockLines(files, f, name);
    assert Header(f, name)[0] != '=' && RULE[0] == '=';
    assert block[0] != RULE && block[1..] == Lines(TextOf(files, f, name));
    assert RULE in block <==> RULE in block[1..];
    SplitWhole(block, RULE);
    CleanIff(TextOf(files, f, name));
  }

  lemma DecodeOwnBlock(files: Files, f: Format, name: string)
    ensures DecodeBlock(BlockLines(files, f, name)) == Named(f, name, TextOf(files, f, name))
  {
    var block := BlockLines(files, f, name);
    JoinSplit(TextOf(files, f, name), "\n");
    assert block[1..] == Lines(TextOf(files, f, name));
    assert Header(f, name)[5..] == name;
    assert Header(f, name)[..5] == if f.MSG? then "MSG: " else "IDL: ";
    assert "MSG: "[0] != "IDL: "[0];
  }

  ghost predicate AllClean(files: Files, f: Format, names: seq<string>) {
    forall n | n in names :: Clean(TextOf(files, f, n))
  }

  lemma AllCleanTail(files: Files, f: Format, names: seq<string>)
    requires names != []
    ensures AllClean(files, f, names)
            <==> Clean(TextOf(files, f, names[0])) && AllClean(files, f, names[1..])
  {
    assert names == [names[0]] + names[1..];
  }

  lemma {:induction false} CountBlocks(files: Files, f: Format, names: seq<string>)
    ensures |Blocks(files, f, names)| >= |names|
    ensures |Blocks(files, f, names)| == |names| <==> AllClean(files, f, names)
    decreases |names|
  {
    if names != [] {
      BlockIffClean(files, f, names[0]);
      CountBlocks(files, f, names[1..]);
      AllCleanTail(files, f, names);
    }
  }

  lemma {:induction false} DecodeNamed(files: Files, f: Format, names: seq<string>)
    requires AllClean(files, f, names)
    ensures DecodeBlocks(Blocks(files, f, names)) == NamedSections(files, f, names)
    decreases |names|
  {
    if names != [] {
      AllCleanTail(files, f, names);
      BlockIffClean(files, f, names[0]);
      DecodeOwnBlock(files, f, names[0]);
      DecodeNamed(files, f, names[1..]);
      DecodeHead(BlockLines(files, f, names[0]), Blocks(files, f, names[1..]));
      NamedHead(files, f, names);
    }
  }

  lemma DecodeHead(block: seq<string>, blocks: seq<seq<string>>)
    ensures DecodeBlocks([block] + blocks) == [DecodeBlock(block)] + DecodeBlocks(blocks)
  {}

  lemma NamedHead(files: Files, f: Format, names: seq<string>)
    requires names != []
    ensures NamedSections(files, f, names)
            == [Named(f, names[0], TextOf(files, f, names[0]))]
               + NamedSections(files, f, names[1..])
  {}

  /** Splitting a text into its lines leaves at least one. */
  lemma BlocksOfText(text: string)
    ensures Clean(text) <==> |Split(Lines(text), [RULE])| == 1
    ensures Clean(text) ==> Split(Lines(text), [RULE]) == [Lines(text)]
  {
    SplitWhole(Lines(text), RULE);
    CleanIff(text);
  }

  /** Blocks of an MSG text: those of the root's text, then those of the sections. */
  lemma MsgBlocks(files: Files, names: seq<string>)
    requires names != [] && forall n | n in names :: '\n' !in n
    ensures Split(Lines(Bundle(files, MSG, names)), [RULE])
            == Split(Lines(TextOf(files, MSG, names[0])), [RULE]) + Blocks(files, MSG, names[1..])
  {
    var text, rest := TextOf(files, MSG, names[0]), names[1..];
    LinesOfSections(files, MSG, text, rest);
    BlocksOfLines(files, MSG, Lines(text), rest);
  }

  /** What taking the blocks of an MSG text apart gives, by the number of its first blocks. */
  lemma UnbundleBlocks(text: string, first: seq<seq<string>>, rest: seq<seq<string>>)
    requires first != [] && Split(Lines(text), [RULE]) == first + rest
    ensures |first| == 1 && first[0] != [] ==>
              Unbundle(text) == [Root(Join(first[0], "\n"))] + DecodeBlocks(rest)
    ensures |first| > 1 ==>
              || |Unbundle(text)| == |first| + |rest|
              || (Unbundle(text) != [] && !Unbundle(text)[0].Root?)
  {
    if |first| == 1 {
      assert (first + rest)[1..] == rest;
    }
  }

  lemma RoundTripMsg(files: Files, names: seq<string>)
    requires names != [] && forall n | n in names :: '\n' !in n
    ensures Unbundle(Bundle(files, MSG, names)) == SectionsOf(files, MSG, names)
            <==> AllClean(files, MSG, names)
  {
    var text, rest := TextOf(files, MSG, names[0]), names[1..];
    MsgBlocks(files, names);
    BlocksOfText(text);
    CountBlocks(files, MSG, rest);
    AllCleanTail(files, MSG, names);
    JoinSplit(text, "\n");
    UnbundleBlocks(Bundle(files, MSG, names), Split(Lines(text), [RULE]), Blocks(files, MSG, rest));
    if AllClean(files, MSG, rest) {
      DecodeNamed(files, MSG, rest);
    }
  }

  lemma RoundTripIdl(files: Files, names: seq<string>)
    requires names != [] && forall n | n in names :: '\n' !in n
    ensures Unbundle(Bundle(files, IDL, names)) == SectionsOf(files, IDL, names)
            <==> AllClean(files, IDL, names)
  {
    var text, rest := TextOf(files, IDL, names[0]), names[1..];
    HeaderLines(IDL, names[0], text + SectionsText(files, IDL, rest));
    LinesOfSections(files, IDL, text, rest);
    LinesTail(files, IDL, names);
    assert [] + SectionLines(files, IDL, names) == SectionLines(files, IDL, names);
    BlocksOfLines(files, IDL, [], names);
    SplitWhole([], RULE);
    CountBlocks(files, IDL, names);
    var blocks := Split(Lines(Bundle(files, IDL, names)), [RULE]);
    assert blocks[0] == [] && blocks[1..] == Blocks(files, IDL, names);
    if AllClean(files, IDL, names) {
      DecodeNamed(files, IDL, names);
    }
  }

  /**
   The text of a complete bundle splits back into exactly its sections if and only if no
   definition text in it contains a line of 80 equals signs.
   */
  lemma RoundTrip(files: Files, f: Format, root: string, names: seq<string>)
    requires Complete(files, f, root, names)
    ensures Unbundle(Bundle(files, f, names)) == SectionsOf(files, f, names)
            <==> AllClean(files, f, names)
  {
    forall n | n in names ensures '\n' !in n {
      assert Loads(files, f, n);
      ValidNameHasNoNewline(n);
    }
    match f
    case MSG => RoundTripMsg(files, names);
    case IDL => RoundTripIdl(files, names);
  }
}
