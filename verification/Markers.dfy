/** Interaction markers: what the shell wrapper prints around a command, and the parser
    that finds a command's output and exit code again in a capture. */
module Markers {
  import opened Text

  const MARKER := "__ZELLIJ_MCP_INTERACTION__"

  function StartMarker(id: string): string { MARKER + (":start:" + id) }

  function EndMarker(id: string): string { MARKER + (":end:" + id + ":") }

  datatype Interaction = Interaction(body: string, completed: bool, exitCode: Option<int>)

  function DropNewline(s: string): string {
    if s != "" && s[0] == '\n' then s[1..] else s
  }

  function TrimStartNewlines(s: string): string {
    if s != "" && s[0] == '\n' then TrimStartNewlines(s[1..]) else s
  }

  /** `s.lines().next().unwrap_or("")`. */
  function FirstLine(s: string): string {
    if s == "" || s[0] == '\n' then ""
    else if s == "\r" || s[0] != '\r' || s[1] != '\n' then [s[0]] + FirstLine(s[1..])
    else ""
  }

  /** The exit code in what follows the end marker. */
  function ExitCode(afterEnd: string): Option<int> {
    var status := Trim(FirstLine(afterEnd));
    if status == "" then None else ParseI32(status)
  }

  /** The text after the first start marker and its newline. */
  function AfterStart(content: string, id: string): Option<string> {
    match Find(content, StartMarker(id))
    case None => None
    case Some(start) => Some(DropNewline(content[start + |StartMarker(id)|..]))
  }

  function ParseAfterStart(afterStart: string, id: string): Interaction {
    match Find(afterStart, EndMarker(id))
    case Some(end) =>
      Interaction(TrimStartNewlines(afterStart[..end]), true, ExitCode(afterStart[end + |EndMarker(id)|..]))
    case None =>
      Interaction(afterStart, false, None)
  }

  function ParseInteractionCapture(content: string, id: string): Option<Interaction> {
    match AfterStart(content, id)
    case None => None
    case Some(afterStart) => Some(ParseAfterStart(afterStart, id))
  }

  // ---------------------------------------------------------------- what the wrapper prints

  /** Text printed before the start marker, the id, the command's own output, its exit code. */
  datatype Block = Block(before: string, id: string, body: string, code: int)

  function Lines(s: string): string { if s == "" then "" else s + "\n" }

  function StartLine(id: string): string { StartMarker(id) + "\n" }

  function EndLine(id: string, code: int): string { EndMarker(id) + (SignedDecimal(code) + "\n") }

  /** From the command's output on: `printf '\n…'` of the end marker follows it. */
  function BodyThen(b: Block, rest: string): string {
    (b.body + "\n") + (EndMarker(b.id) + (SignedDecimal(b.code) + ("\n" + rest)))
  }

  /** `printf` of the start marker line, the command, and the end marker line. */
  function BlockThen(b: Block, rest: string): string {
    Lines(b.before) + (StartMarker(b.id) + ("\n" + BodyThen(b, rest)))
  }

  /** Everything the wrapper prints from the i-th interaction on, and what comes after it. */
  function OutputFrom(blocks: seq<Block>, i: nat, rest: string): string
    requires i <= |blocks|
    decreases |blocks| - i
  {
    if i == |blocks| then rest else BlockThen(blocks[i], OutputFrom(blocks, i + 1, rest))
  }

  /** Ids are "zi_" and lower-case hexadecimal digits. */
  predicate IdChar(c: char) { 'a' <= c <= 'z' || '0' <= c <= '9' || c == '_' }

  ghost predicate WellFormed(b: Block, idLength: nat) {
    && |b.id| == idLength
    && (forall i :: 0 <= i < |b.id| ==> IdChar(b.id[i]))
    && !Contains(b.before, MARKER) && !Contains(b.body, MARKER)
    && -0x8000_0000 <= b.code < 0x8000_0000
  }

  /** Ids of one length, all different, and no marker text but the wrapper's own. */
  ghost predicate AllWellFormed(blocks: seq<Block>, idLength: nat) {
    && (forall i :: 0 <= i < |blocks| ==> WellFormed(blocks[i], idLength))
    && (forall i, j :: 0 <= i < j < |blocks| ==> blocks[i].id != blocks[j].id)
  }

  // ---------------------------------------------------------------- finding markers

  /** A text without the marker has no string that starts with it. */
  lemma NoMarkerNoMatch(s: string, tail: string)
    requires !Contains(s, MARKER)
    ensures Find(s, MARKER + tail).None?
  {
    var p := MARKER + tail;
    forall j: nat ensures !OccursAt(s, p, j) {
      assert !OccursAt(s, MARKER, j);
      if j + |p| <= |s| {
        assert s[j..j + |p|][..|MARKER|] == s[j..j + |MARKER|];
        assert p[..|MARKER|] == MARKER;
      }
    }
  }

  /** A newline after the text does not complete a marker either. */
  lemma NewlineCompletesNothing(s: string, p: string)
    requires Find(s, p).None? && p != "" && '\n' !in p
    ensures Find(s + "\n", p).None?
  {
    forall j: nat ensures !OccursAt(s + "\n", p, j) {
      assert !OccursAt(s, p, j);
      if j + |p| <= |s| {
        assert (s + "\n")[j..j + |p|] == s[j..j + |p|];
      } else if j + |p| == |s| + 1 {
        assert (s + "\n")[j..j + |p|][|p| - 1] == '\n';
      }
    }
  }

  lemma MarkersAreOneLine(id: string)
    requires forall i :: 0 <= i < |id| ==> IdChar(id[i])
    ensures '\n' !in StartMarker(id) && '\n' !in EndMarker(id)
  {
    assert '\n' !in MARKER;
  }

  /** A plain line, ended by its newline, holds no marker. */
  lemma PlainLineHasNoMarker(s: string, tail: string)
    requires !Contains(s, MARKER)
    requires '\n' !in MARKER + tail
    ensures Find(Lines(s), MARKER + tail).None? && Find(s + "\n", MARKER + tail).None?
  {
    NoMarkerNoMatch(s, tail);
    NewlineCompletesNothing(s, MARKER + tail);
  }

  /** In a line that starts with the marker and goes on in other characters, a string that
      starts with the marker can only be found at the start. */
  lemma OnlyAtStart(rest: string, tail: string)
    requires 'Z' !in rest
    ensures forall j: nat :: j > 0 ==> !OccursAt(MARKER + rest, MARKER + tail, j)
  {
    forall j: nat | j > 0 ensures !OccursAt(MARKER + rest, MARKER + tail, j) {
      var s, p := MARKER + rest, MARKER + tail;
      if j + |p| <= |s| {
        assert p[2] == 'Z';
        assert s[j..j + |p|][2] == s[j + 2];
        assert forall k :: 2 < k < |s| ==> s[k] != 'Z';
      }
    }
  }

  lemma DecimalsHaveNo(n: int)
    ensures forall c :: c in SignedDecimal(n) ==> IsDigit(c) || c == '-'
    ensures SignedDecimal(n) != ""
  {
    var d := Decimal(if n < 0 then -n else n);
    assert forall i :: 0 <= i < |d| ==> IsDigit(d[i]);
  }

  lemma EndLineHasNoStart(id: string, other: string, code: int)
    requires forall i :: 0 <= i < |other| ==> IdChar(other[i])
    ensures Find(EndLine(other, code), StartMarker(id)).None?
  {
    var rest := ":end:" + other + ":" + (SignedDecimal(code) + "\n");
    assert EndLine(other, code) == MARKER + rest;
    DecimalsHaveNo(code);
    OnlyAtStart(rest, ":start:" + id);
    assert StartMarker(id)[|MARKER| + 1] == 's' && EndLine(other, code)[|MARKER| + 1] == 'e';
  }

  lemma StartLineHasNoOther(id: string, other: string)
    requires |id| == |other| && id != other
    requires forall i :: 0 <= i < |other| ==> IdChar(other[i])
    ensures Find(StartLine(other), StartMarker(id)).None?
  {
    var rest := ":start:" + other + "\n";
    assert StartLine(other) == MARKER + rest;
    OnlyAtStart(rest, ":start:" + id);
    assert StartLine(other)[..|StartMarker(id)|] == StartMarker(other);
    assert StartMarker(id)[|MARKER| + 7..] == id && StartMarker(other)[|MARKER| + 7..] == other;
  }

  /** Lines without the start marker in front of a capture change nothing. */
  lemma AfterStartSkips(x: string, y: string, id: string)
    requires x == "" || x[|x| - 1] == '\n'
    requires '\n' !in StartMarker(id) && Find(x, StartMarker(id)).None?
    requires Find(y, StartMarker(id)).Some?
    ensures Find(x + y, StartMarker(id)).Some? && AfterStart(x + y, id) == AfterStart(y, id)
  {
    FindSkipsLines(x, y, StartMarker(id));
    var start := Find(y, StartMarker(id)).value + |StartMarker(id)|;
    assert (x + y)[|x| + start..] == y[start..];
  }

  lemma {:induction false} FirstLineStops(line: string, rest: string)
    requires '\n' !in line && '\r' !in line
    ensures FirstLine(line + ("\n" + rest)) == line
  {
    var s := line + ("\n" + rest);
    if line != "" {
      assert s[0] == line[0];
      assert s[1..] == line[1..] + ("\n" + rest);
      FirstLineStops(line[1..], rest);
    }
  }

  lemma ExitCodeOfPrinted(code: int, rest: string)
    requires -0x8000_0000 <= code < 0x8000_0000
    ensures ExitCode(SignedDecimal(code) + ("\n" + rest)) == Some(code)
  {
    var d := SignedDecimal(code);
    DecimalsHaveNo(code);
    FirstLineStops(d, rest);
    assert d[0] in d && d[|d| - 1] in d;
    TrimTight(d);
    ParseOfSignedDecimal(code);
  }

  lemma BodyRecovered(blocks: seq<Block>, k: nat, idLength: nat, rest: string)
    requires k < |blocks| && AllWellFormed(blocks, idLength)
    ensures ParseAfterStart(BodyThen(blocks[k], rest), blocks[k].id)
            == Interaction(TrimStartNewlines(blocks[k].body + "\n"), true, Some(blocks[k].code))
  {
    var b := blocks[k];
    MarkersAreOneLine(b.id);
    PlainLineHasNoMarker(b.body, ":end:" + b.id + ":");
    FindAfterLines(b.body + "\n", EndMarker(b.id), SignedDecimal(b.code) + ("\n" + rest));
    ExitCodeOfPrinted(b.code, rest);
  }

  lemma AfterStartIs(x: string, id: string, t: string)
    requires x == "" || x[|x| - 1] == '\n'
    requires '\n' !in StartMarker(id) && Find(x, StartMarker(id)).None?
    ensures Find(x + (StartMarker(id) + ("\n" + t)), StartMarker(id)).Some?
    ensures AfterStart(x + (StartMarker(id) + ("\n" + t)), id) == Some(t)
  {
    FindAfterLines(x, StartMarker(id), "\n" + t);
    assert DropNewline("\n" + t) == t;
  }

  lemma OwnBlockFound(blocks: seq<Block>, k: nat, idLength: nat, rest: string)
    requires k < |blocks| && AllWellFormed(blocks, idLength)
    ensures Find(BlockThen(blocks[k], rest), StartMarker(blocks[k].id)).Some?
    ensures AfterStart(BlockThen(blocks[k], rest), blocks[k].id) == Some(BodyThen(blocks[k], rest))
  {
    var b := blocks[k];
    MarkersAreOneLine(b.id);
    PlainLineHasNoMarker(b.before, ":start:" + b.id);
    AfterStartIs(Lines(b.before), b.id, BodyThen(b, rest));
  }

  lemma EndLineSkipped(b: Block, id: string, tail: string)
    requires forall i :: 0 <= i < |b.id| ==> IdChar(b.id[i])
    requires '\n' !in StartMarker(id) && Find(tail, StartMarker(id)).Some?
    ensures var s := EndMarker(b.id) + (SignedDecimal(b.code) + ("\n" + tail));
            Find(s, StartMarker(id)).Some? && AfterStart(s, id) == AfterStart(tail, id)
  {
    EndLineHasNoStart(id, b.id, b.code);
    AfterStartSkips(EndLine(b.id, b.code), tail, id);
    Assoc(SignedDecimal(b.code), "\n", tail);
    Assoc(EndMarker(b.id), SignedDecimal(b.code) + "\n", tail);
  }

  lemma BodySkipped(b: Block, id: string, tail: string)
    requires forall i :: 0 <= i < |b.id| ==> IdChar(b.id[i])
    requires !Contains(b.body, MARKER)
    requires '\n' !in StartMarker(id) && Find(tail, StartMarker(id)).Some?
    ensures Find(BodyThen(b, tail), StartMarker(id)).Some?
    ensures AfterStart(BodyThen(b, tail), id) == AfterStart(tail, id)
  {
    EndLineSkipped(b, id, tail);
    PlainLineHasNoMarker(b.body, ":start:" + id);
    AfterStartSkips(b.body + "\n", EndMarker(b.id) + (SignedDecimal(b.code) + ("\n" + tail)), id);
  }

  lemma OtherStartSkipped(other: string, id: string, t: string)
    requires |id| == |other| && id != other
    requires forall i :: 0 <= i < |other| ==> IdChar(other[i])
    requires '\n' !in StartMarker(id) && Find(t, StartMarker(id)).Some?
    ensures var s := StartMarker(other) + ("\n" + t);
            Find(s, StartMarker(id)).Some? && AfterStart(s, id) == AfterStart(t, id)
  {
    StartLineHasNoOther(id, other);
    AfterStartSkips(StartLine(other), t, id);
    Assoc(StartMarker(other), "\n", t);
  }

  lemma OtherBlockSkipped(blocks: seq<Block>, i: nat, k: nat, idLength: nat, tail: string)
    requires i < k < |blocks| && AllWellFormed(blocks, idLength)
    requires Find(tail, StartMarker(blocks[k].id)).Some?
    ensures Find(BlockThen(blocks[i], tail), StartMarker(blocks[k].id)).Some?
    ensures AfterStart(BlockThen(blocks[i], tail), blocks[k].id) == AfterStart(tail, blocks[k].id)
  {
    var b, id := blocks[i], blocks[k].id;
    MarkersAreOneLine(id);
    BodySkipped(b, id, tail);
    OtherStartSkipped(b.id, id, BodyThen(b, tail));
    PlainLineHasNoMarker(b.before, ":start:" + id);
    AfterStartSkips(Lines(b.before), StartMarker(b.id) + ("\n" + BodyThen(b, tail)), id);
  }

  lemma EarlierBlocksSkipped(blocks: seq<Block>, k: nat, idLength: nat, rest: string)
    requires k < |blocks| && AllWellFormed(blocks, idLength)
    requires Find(OutputFrom(blocks, k, rest), StartMarker(blocks[k].id)).Some?
    ensures AfterStart(OutputFrom(blocks, 0, rest), blocks[k].id)
            == AfterStart(OutputFrom(blocks, k, rest), blocks[k].id)
  {
    var id, i := blocks[k].id, k;
    while i > 0
      invariant i <= k
      invariant Find(OutputFrom(blocks, i, rest), StartMarker(id)).Some?
      invariant AfterStart(OutputFrom(blocks, i, rest), id) == AfterStart(OutputFrom(blocks, k, rest), id)
    {
      i := i - 1;
      OtherBlockSkipped(blocks, i, k, idLength, OutputFrom(blocks, i + 1, rest));
    }
  }

  /** In whatever the wrapper printed for interactions with distinct ids of one length, and
      with anything after it, parsing by an id gives that interaction's output (leading newlines
      dropped, the wrapper's own newline kept) and exit code. */
  lemma ParsingInvertsWrapper(blocks: seq<Block>, k: nat, idLength: nat, rest: string)
    requires k < |blocks|
    requires AllWellFormed(blocks, idLength)
    ensures ParseInteractionCapture(OutputFrom(blocks, 0, rest), blocks[k].id)
            == Some(Interaction(TrimStartNewlines(blocks[k].body + "\n"), true, Some(blocks[k].code)))
  {
    OwnBlockFound(blocks, k, idLength, OutputFrom(blocks, k + 1, rest));
    EarlierBlocksSkipped(blocks, k, idLength, rest);
    BodyRecovered(blocks, k, idLength, OutputFrom(blocks, k + 1, rest));
  }

  // ---------------------------------------------------------------- completion is final

  /** The capture holds the whole line of the end marker. */
  predicate CompletionLineSeen(content: string, id: string) {
    match AfterStart(content, id)
    case None => false
    case Some(afterStart) =>
      match Find(afterStart, EndMarker(id))
      case None => false
      case Some(end) => '\n' in afterStart[end + |EndMarker(id)|..]
  }

  lemma {:induction false} FirstLineExtends(s: string, t: string)
    requires '\n' in s
    ensures FirstLine(s + t) == FirstLine(s)
  {
    if s[0] != '\n' {
      assert (s + t)[1..] == s[1..] + t;
      assert s == [s[0]] + s[1..];
      FirstLineExtends(s[1..], t);
    }
  }

  lemma ParseAfterStartExtends(s: string, t: string, id: string)
    requires Find(s, EndMarker(id)).Some?
    requires '\n' in s[Find(s, EndMarker(id)).value + |EndMarker(id)|..]
    ensures ParseAfterStart(s + t, id) == ParseAfterStart(s, id)
  {
    FindExtends(s, t, EndMarker(id));
    var end := Find(s, EndMarker(id)).value;
    DropConcat(s, t, end);
    DropConcat(s, t, end + |EndMarker(id)|);
    FirstLineExtends(s[end + |EndMarker(id)|..], t);
  }

  lemma AfterStartExtends(content: string, more: string, id: string)
    requires AfterStart(content, id).Some? && AfterStart(content, id).value != ""
    ensures AfterStart(content + more, id) == Some(AfterStart(content, id).value + more)
  {
    FindExtends(content, more, StartMarker(id));
    var start := Find(content, StartMarker(id)).value + |StartMarker(id)|;
    DropConcat(content, more, start);
    if content[start..][0] == '\n' { DropConcat(content[start..], more, 1); }
  }

  /** Once a completion that ends in a newline has been seen, more output changes nothing. */
  lemma CompletionIsFinal(content: string, more: string, id: string)
    requires CompletionLineSeen(content, id)
    ensures ParseInteractionCapture(content, id).Some? && ParseInteractionCapture(content, id).value.completed
    ensures ParseInteractionCapture(content + more, id) == ParseInteractionCapture(content, id)
  {
    AfterStartExtends(content, more, id);
    ParseAfterStartExtends(AfterStart(content, id).value, more, id);
  }

  lemma OccursAfterDrop(s: string, p: string, i: nat, k: nat)
    requires OccursAt(s, p, i) && k <= i
    ensures OccursAt(s[k..], p, i - k)
  {
    assert s[k..][i - k..i - k + |p|] == s[i..i + |p|];
  }

  lemma DropKeepsOccurrence(s: string, p: string, i: nat)
    requires OccursAt(s, p, i) && i > 0
    ensures Find(DropNewline(s), p).Some?
  {
    OccursAfterDrop(s, p, i, 1);
    assert OccursAt(DropNewline(s), p, if s[0] == '\n' then i - 1 else i);
  }

  ghost predicate InOrder(s: string, p: string, q: string) {
    exists i: nat, j: nat :: OccursAt(s, p, i) && OccursAt(s, q, j) && i + |p| < j
  }

  ghost predicate FoundInOrder(s: string, p: string, q: string) {
    Find(s, p).Some? && Find(DropNewline(s[Find(s, p).value + |p|..]), q).Some?
  }

  lemma FoundAfterFirst(s: string, p: string, q: string, i: nat, j: nat)
    requires OccursAt(s, p, i) && OccursAt(s, q, j) && i + |p| < j
    ensures Find(s, p).Some? && Find(DropNewline(s[Find(s, p).value + |p|..]), q).Some?
  {
    var first := Find(s, p).value + |p|;
    OccursAfterDrop(s, q, j, first);
    DropKeepsOccurrence(s[first..], q, j - first);
  }

  lemma InOrderIsFound(s: string, p: string, q: string)
    requires InOrder(s, p, q)
    ensures FoundInOrder(s, p, q)
  {
    var i: nat, j: nat :| OccursAt(s, p, i) && OccursAt(s, q, j) && i + |p| < j;
    FoundAfterFirst(s, p, q, i, j);
  }

  lemma FoundIsCompleted(content: string, id: string)
    requires FoundInOrder(content, StartMarker(id), EndMarker(id))
    ensures ParseInteractionCapture(content, id).Some? && ParseInteractionCapture(content, id).value.completed
  {
  }

  lemma ConcatIsInOrder(a: string, p: string, b: string, q: string, c: string)
    requires b != ""
    ensures InOrder(a + (p + (b + (q + c))), p, q)
  {
    var s := a + (p + (b + (q + c)));
    assert OccursAt(s, p, |a|) && OccursAt(s, q, |a| + |p| + |b|);
  }

  /** An end marker anywhere after a start marker of the same id completes it, whatever stands
      around and between them. */
  lemma MarkersInOrderComplete(a: string, b: string, c: string, id: string)
    requires b != ""
    ensures var content := a + (StartMarker(id) + (b + (EndMarker(id) + c)));
            ParseInteractionCapture(content, id).Some? && ParseInteractionCapture(content, id).value.completed
  {
    var content := a + (StartMarker(id) + (b + (EndMarker(id) + c)));
    ConcatIsInOrder(a, StartMarker(id), b, EndMarker(id), c);
    InOrderIsFound(content, StartMarker(id), EndMarker(id));
    FoundIsCompleted(content, id);
  }
}
