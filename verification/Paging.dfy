/** Capture windows: resumable line paging, tail windows and the delta baseline. */
module Paging {
  import opened Text

  /** One past the largest `usize` of the daemon's 64-bit build. */
  const USIZE_LIMIT := 0x1_0000_0000_0000_0000
  /** No Rust string is longer than `isize::MAX`. */
  const STRING_LIMIT := 0x8000_0000_0000_0000

  // ---------------------------------------------------------------- lines

  /** The length of the first line, its newline included. */
  function LineLength(s: string): (n: nat)
    requires s != ""
    ensures 1 <= n <= |s|
  {
    if s[0] == '\n' || |s| == 1 then 1 else 1 + LineLength(s[1..])
  }

  lemma {:induction false} LineEndsAtFirstNewline(s: string)
    requires s != ""
    ensures '\n' !in s[..LineLength(s) - 1]
    ensures LineLength(s) < |s| ==> s[LineLength(s) - 1] == '\n'
  {
    if s[0] != '\n' && |s| > 1 {
      LineEndsAtFirstNewline(s[1..]);
      assert s[..LineLength(s) - 1] == [s[0]] + s[1..][..LineLength(s[1..]) - 1];
    }
  }

  /** `content.split_inclusive('\n')`. */
  function SplitInclusive(s: string): seq<string>
    decreases |s|
  {
    if s == "" then [] else [s[..LineLength(s)]] + SplitInclusive(s[LineLength(s)..])
  }

  function Concat(lines: seq<string>): string {
    if lines == [] then "" else lines[0] + Concat(lines[1..])
  }

  lemma ConcatCons(line: string, lines: seq<string>)
    ensures Concat([line] + lines) == line + Concat(lines)
  {
    assert ([line] + lines)[1..] == lines;
  }

  lemma {:induction false} ConcatOfSplit(s: string)
    ensures Concat(SplitInclusive(s)) == s
    decreases |s|
  {
    if s != "" {
      var n := LineLength(s);
      ConcatOfSplit(s[n..]);
      ConcatCons(s[..n], SplitInclusive(s[n..]));
    }
  }

  lemma {:induction false} SplitIsShort(s: string)
    ensures |SplitInclusive(s)| <= |s|
    decreases |s|
  {
    if s != "" { SplitIsShort(s[LineLength(s)..]); }
  }

  lemma {:induction false} ConcatAppends(a: seq<string>, b: seq<string>)
    ensures Concat(a + b) == Concat(a) + Concat(b)
  {
    if a == [] {
      assert a + b == b;
    } else {
      assert a + b == [a[0]] + (a[1..] + b);
      ConcatCons(a[0], a[1..] + b);
      ConcatAppends(a[1..], b);
      Assoc(a[0], Concat(a[1..]), Concat(b));
    }
  }

  /** Lines as `split_inclusive` leaves them: a newline ends every line but perhaps the last,
      and stands nowhere else. */
  ghost predicate ProperLines(lines: seq<string>) {
    forall i :: 0 <= i < |lines| ==>
      && lines[i] != ""
      && '\n' !in lines[i][..|lines[i]| - 1]
      && (i < |lines| - 1 ==> lines[i][|lines[i]| - 1] == '\n')
  }

  lemma {:induction false} SplitIsProper(s: string)
    ensures ProperLines(SplitInclusive(s))
    decreases |s|
  {
    if s != "" {
      LineEndsAtFirstNewline(s);
      SplitIsProper(s[LineLength(s)..]);
    }
  }

  lemma {:induction false} LineLengthIs(line: string, rest: string)
    requires line != "" && '\n' !in line[..|line| - 1]
    requires rest == "" || line[|line| - 1] == '\n'
    ensures LineLength(line + rest) == |line|
  {
    assert (line + rest)[0] == line[0];
    if |line| == 1 {
    } else {
      assert line[0] in line[..|line| - 1];
      assert (line + rest)[1..] == line[1..] + rest;
      assert line[1..][..|line| - 2] == line[..|line| - 1][1..];
      LineLengthIs(line[1..], rest);
    }
  }

  lemma {:induction false} SplitOfConcat(lines: seq<string>)
    requires ProperLines(lines)
    ensures SplitInclusive(Concat(lines)) == lines
  {
    if lines != [] {
      var rest := Concat(lines[1..]);
      assert ProperLines(lines[1..]);
      SplitOfConcat(lines[1..]);
      assert lines[1..] == [] ==> rest == "";
      LineLengthIs(lines[0], rest);
      assert (lines[0] + rest)[|lines[0]|..] == rest;
      assert (lines[0] + rest)[..|lines[0]|] == lines[0];
    }
  }

  // ---------------------------------------------------------------- windows

  function FormatLineCursor(offset: nat): string {
    "lines:" + Decimal(offset)
  }

  /** `None` is the INVALID_ARGUMENT error. */
  function ParseLineCursor(cursor: string): Option<nat> {
    match StripPrefix(cursor, "lines:")
    case None => None
    case Some(digits) => ParseUnsigned(digits, USIZE_LIMIT)
  }

  lemma CursorRoundTrip(offset: nat)
    ensures ParseLineCursor(FormatLineCursor(offset)) == if offset < USIZE_LIMIT then Some(offset) else None
  {
    assert StripPrefix(FormatLineCursor(offset), "lines:") == Some(Decimal(offset));
    ParseOfDecimal(offset, USIZE_LIMIT);
  }

  function Min(a: nat, b: nat): nat { if a < b then a else b }

  function SaturatingAdd(a: nat, b: nat): nat { Min(a + b, USIZE_LIMIT - 1) }

  /** A window on the content; `next` is the line the next one starts at. */
  datatype Window = Window(content: string, applied: bool, next: Option<nat>) {
    function NextCursor(): Option<string> {
      if next.Some? then Some(FormatLineCursor(next.value)) else None
    }
  }

  function LineWindow(content: string, lineOffset: Option<nat>, lineLimit: Option<nat>): Window {
    var start := if lineOffset.Some? then lineOffset.value else 0;
    if start == 0 && lineLimit.None? then
      Window(content, false, None)
    else
      var lines := SplitInclusive(content);
      var end := if lineLimit.Some? then Min(SaturatingAdd(start, lineLimit.value), |lines|) else |lines|;
      var window := if start >= |lines| || end < start then "" else Concat(lines[start..end]);
      Window(window, start > 0 || end < |lines|, if end < |lines| then Some(end) else None)
  }

  /** A client that asks for `limit` lines from a line on, and goes on from each `next`. */
  function FollowFrom(content: string, from: nat, limit: nat): seq<string>
    decreases |SplitInclusive(content)| - from
  {
    var w := LineWindow(content, Some(from), Some(limit));
    if w.next.None? || w.next.value <= from then [w.content]
    else [w.content] + FollowFrom(content, w.next.value, limit)
  }

  /** The same client working with the cursor strings it is given; a cursor that does not
      parse, or does not move on, would end the run. */
  function Follow(content: string, cursor: Option<string>, limit: nat): seq<string>
    decreases |SplitInclusive(content)| - CursorOffset(cursor)
  {
    var w := LineWindow(content, if cursor.None? then None else ParseLineCursor(cursor.value), Some(limit));
    if w.next.None? || CursorOffset(w.NextCursor()) <= CursorOffset(cursor) then [w.content]
    else CursorMovesOn(content, cursor, limit); [w.content] + Follow(content, w.NextCursor(), limit)
  }

  function CursorOffset(cursor: Option<string>): nat {
    match cursor
    case None => 0
    case Some(text) => match ParseLineCursor(text) case Some(n) => n case None => 0
  }

  lemma CursorMovesOn(content: string, cursor: Option<string>, limit: nat)
    ensures var w := LineWindow(content, if cursor.None? then None else ParseLineCursor(cursor.value), Some(limit));
            w.next.Some? && w.next.value < USIZE_LIMIT ==> CursorOffset(w.NextCursor()) == w.next.value
    ensures var w := LineWindow(content, if cursor.None? then None else ParseLineCursor(cursor.value), Some(limit));
            w.next.Some? ==> CursorOffset(w.NextCursor()) <= |SplitInclusive(content)|
  {
    var w := LineWindow(content, if cursor.None? then None else ParseLineCursor(cursor.value), Some(limit));
    if w.next.Some? { CursorRoundTrip(w.next.value); }
  }

  /** Going through cursor strings changes nothing. */
  lemma {:induction false} FollowIgnoresText(content: string, cursor: Option<string>, limit: nat)
    requires |content| < STRING_LIMIT
    requires cursor.Some? ==> ParseLineCursor(cursor.value).Some?
    ensures Follow(content, cursor, limit) == FollowFrom(content, CursorOffset(cursor), limit)
    decreases |SplitInclusive(content)| - CursorOffset(cursor)
  {
    SplitIsShort(content);
    CursorMovesOn(content, cursor, limit);
    var w := LineWindow(content, if cursor.None? then None else ParseLineCursor(cursor.value), Some(limit));
    if w.next.Some? {
      CursorRoundTrip(w.next.value);
      if w.next.value > CursorOffset(cursor) {
        FollowIgnoresText(content, w.NextCursor(), limit);
      }
    }
  }

  /** `lines / limit`, rounded up. */
  function CeilDiv(lines: nat, limit: nat): nat
    requires limit > 0
  {
    if lines == 0 then 0 else if lines <= limit then 1 else 1 + CeilDiv(lines - limit, limit)
  }

  lemma {:induction false} CeilDivIsCeiling(lines: nat, limit: nat)
    requires lines > 0 && limit > 0
    ensures (CeilDiv(lines, limit) - 1) * limit < lines <= CeilDiv(lines, limit) * limit
  {
    if lines > limit {
      CeilDivIsCeiling(lines - limit, limit);
      assert CeilDiv(lines, limit) * limit == CeilDiv(lines - limit, limit) * limit + limit;
    }
  }

  /** The pages make up the lines, are as few as the limit allows, and none is over the limit. */
  ghost predicate Covers(pages: seq<string>, lines: seq<string>, limit: nat)
    requires limit > 0
  {
    && Concat(pages) == Concat(lines)
    && |pages| == CeilDiv(|lines|, limit)
    && forall page :: page in pages ==> |SplitInclusive(page)| <= limit
  }

  lemma CoversLast(page: string, lines: seq<string>, limit: nat)
    requires 0 < |lines| <= limit
    requires page == Concat(lines) && SplitInclusive(page) == lines
    ensures Covers([page], lines, limit)
  {
    assert Concat([page]) == page + "" == page;
  }

  lemma CoversStep(page: string, rest: seq<string>, lines: seq<string>, limit: nat)
    requires 0 < limit < |lines|
    requires page == Concat(lines[..limit]) && SplitInclusive(page) == lines[..limit]
    requires Covers(rest, lines[limit..], limit)
    ensures Covers([page] + rest, lines, limit)
  {
    assert lines == lines[..limit] + lines[limit..];
    ConcatAppends(lines[..limit], lines[limit..]);
    ConcatCons(page, rest);
  }

  lemma SplitSlice(content: string, i: nat, j: nat)
    requires i <= j <= |SplitInclusive(content)|
    ensures SplitInclusive(Concat(SplitInclusive(content)[i..j])) == SplitInclusive(content)[i..j]
  {
    SplitIsProper(content);
    SplitOfConcat(SplitInclusive(content)[i..j]);
  }

  lemma PageAt(content: string, from: nat, limit: nat)
    requires |content| < STRING_LIMIT && 0 < limit < USIZE_LIMIT
    requires from < |SplitInclusive(content)|
    ensures var lines := SplitInclusive(content);
            var end := Min(from + limit, |lines|);
            LineWindow(content, Some(from), Some(limit))
            == Window(Concat(lines[from..end]), from > 0 || end < |lines|, if end < |lines| then Some(end) else None)
  {
    SplitIsShort(content);
  }

  lemma {:induction false} FollowCovers(content: string, from: nat, limit: nat)
    requires |content| < STRING_LIMIT && 0 < limit < USIZE_LIMIT
    requires from < |SplitInclusive(content)|
    ensures Covers(FollowFrom(content, from, limit), SplitInclusive(content)[from..], limit)
    decreases |SplitInclusive(content)| - from
  {
    var lines := SplitInclusive(content);
    var end := Min(from + limit, |lines|);
    PageAt(content, from, limit);
    SplitSlice(content, from, end);
    if end < |lines| {
      FollowCovers(content, end, limit);
      assert lines[from..][..limit] == lines[from..end] && lines[from..][limit..] == lines[end..];
      CoversStep(Concat(lines[from..end]), FollowFrom(content, end, limit), lines[from..], limit);
    } else {
      assert lines[from..end] == lines[from..];
      CoversLast(Concat(lines[from..]), lines[from..], limit);
    }
  }

  /** Paging loses nothing: the pages of any content put together are the content, there
      are as few as the limit allows (one for empty content), and none has more lines. */
  lemma PagingIsLossless(content: string, limit: nat)
    requires |content| < STRING_LIMIT && 0 < limit < USIZE_LIMIT
    ensures var lines := SplitInclusive(content);
            var pages := Follow(content, None, limit);
            && Concat(pages) == content
            && |pages| == (if lines == [] then 1 else CeilDiv(|lines|, limit))
            && forall page :: page in pages ==> |SplitInclusive(page)| <= limit
  {
    FollowIgnoresText(content, None, limit);
    ConcatOfSplit(content);
    if content != "" {
      FollowCovers(content, 0, limit);
      assert SplitInclusive(content)[0..] == SplitInclusive(content);
    } else {
      assert FollowFrom(content, 0, limit) == [""];
    }
  }

  // ---------------------------------------------------------------- tail windows

  function ChompReturn(line: string): string {
    if line != "" && line[|line| - 1] == '\r' then line[..|line| - 1] else line
  }

  /** A line as `lines()` yields it: without its "\n" or "\r\n". */
  function Chomp(line: string): string {
    if line != "" && line[|line| - 1] == '\n' then ChompReturn(line[..|line| - 1]) else line
  }

  function ChompAll(lines: seq<string>): seq<string> {
    if lines == [] then [] else [Chomp(lines[0])] + ChompAll(lines[1..])
  }

  function Join(lines: seq<string>): string {
    if lines == [] then "" else if |lines| == 1 then lines[0] else lines[0] + "\n" + Join(lines[1..])
  }

  predicate EndsWithNewline(s: string) {
    s != "" && s[|s| - 1] == '\n'
  }

  /** The kept lines joined again, with the content's own trailing newline. */
  function Rejoin(content: string, kept: seq<string>): string {
    if EndsWithNewline(content) then Join(ChompAll(kept)) + "\n" else Join(ChompAll(kept))
  }

  function TailLines(content: string, count: nat): (string, bool) {
    var lines := SplitInclusive(content);
    if |lines| <= count then (content, false) else (Rejoin(content, lines[|lines| - count..]), true)
  }

  predicate EndsWithCrlf(line: string) {
    |line| > 1 && line[|line| - 2..] == "\r\n"
  }

  function CrlfLines(lines: seq<string>): nat {
    if lines == [] then 0 else (if EndsWithCrlf(lines[0]) then 1 else 0) + CrlfLines(lines[1..])
  }

  lemma ChompKeeps(line: string)
    requires line != "" && '\n' !in line[..|line| - 1]
    ensures var kept := if EndsWithNewline(line) then Chomp(line) + "\n" else Chomp(line);
            && |line| == |kept| + (if EndsWithCrlf(line) then 1 else 0)
            && (!EndsWithCrlf(line) ==> kept == line)
  {
    if EndsWithNewline(line) && |line| > 1 && line[|line| - 2] == '\r' {
      assert line[|line| - 2..] == "\r\n";
    }
  }

  lemma {:induction false} JoinOfChomped(lines: seq<string>)
    requires ProperLines(lines) && lines != []
    ensures var last := lines[|lines| - 1];
            var joined := Join(ChompAll(lines)) + (if EndsWithNewline(last) then "\n" else "");
            && |Concat(lines)| == |joined| + CrlfLines(lines)
            && (CrlfLines(lines) == 0 ==> joined == Concat(lines))
  {
    ChompKeeps(lines[0]);
    if |lines| == 1 {
      assert Concat(lines) == lines[0] + "" == lines[0];
      assert ChompAll(lines) == [Chomp(lines[0])];
    } else {
      var rest := lines[1..];
      assert ProperLines(rest) && rest[|rest| - 1] == lines[|lines| - 1];
      JoinOfChomped(rest);
      var end := if EndsWithNewline(lines[|lines| - 1]) then "\n" else "";
      assert ChompAll(lines)[1..] == ChompAll(rest) && |ChompAll(rest)| >= 1;
      Assoc(Chomp(lines[0]) + "\n", Join(ChompAll(rest)), end);
    }
  }

  lemma {:induction false} LastLineEnds(s: string)
    requires s != ""
    ensures var lines := SplitInclusive(s);
            lines != [] && lines[|lines| - 1] != "" && EndsWithNewline(lines[|lines| - 1]) == EndsWithNewline(s)
    decreases |s|
  {
    if LineLength(s) < |s| { LastLineEnds(s[LineLength(s)..]); }
  }

  lemma TailOfKept(content: string, kept: seq<string>)
    requires kept != [] && EndsWithNewline(kept[|kept| - 1]) == EndsWithNewline(content)
    requires exists i :: 0 <= i < |SplitInclusive(content)| && kept == SplitInclusive(content)[i..]
    ensures |Concat(kept)| == |Rejoin(content, kept)| + CrlfLines(kept)
    ensures Rejoin(content, kept) == Concat(kept) <==> CrlfLines(kept) == 0
  {
    SplitIsProper(content);
    JoinOfChomped(kept);
    assert Join(ChompAll(kept)) + "" == Join(ChompAll(kept));
  }

  lemma WindowToEnd(content: string, from: nat)
    requires 0 < from <= |SplitInclusive(content)|
    ensures LineWindow(content, Some(from), None).content == Concat(SplitInclusive(content)[from..])
  {
    var lines := SplitInclusive(content);
    assert lines[from..|lines|] == lines[from..];
  }

  /** A tail window is the forward window that starts at the same line, except that it drops
      the '\r' of every "\r\n" line it keeps: the two agree exactly when it keeps none. */
  lemma TailAgreesWithWindow(content: string, from: nat)
    requires 0 < from < |SplitInclusive(content)|
    ensures var lines := SplitInclusive(content);
            TailLines(content, |lines| - from).0 == LineWindow(content, Some(from), None).content
            <==> CrlfLines(lines[from..]) == 0
  {
    var lines := SplitInclusive(content);
    LastLineEnds(content);
    TailOfKept(content, lines[from..]);
    WindowToEnd(content, from);
  }

  lemma CrlfIsChomped()
    ensures Chomp("b\r\n") == "b"
  {
    assert "b\r\n"[..2] == "b\r" && "b\r"[..1] == "b";
  }

  lemma TwoCrlfLines()
    ensures SplitInclusive("a\r\nb\r\n") == ["a\r\n", "b\r\n"]
  {
    var first, last := "a\r\n", "b\r\n";
    assert first[..2] == "a\r" && last[..2] == "b\r";
    assert [first, last][1..] == [last] && [last][1..] == [];
    assert Concat([last]) == last + "" == last;
    assert Concat([first, last]) == first + last == "a\r\nb\r\n";
    SplitOfConcat([first, last]);
  }

  lemma RejoinedCrlf(content: string)
    requires EndsWithNewline(content)
    ensures Rejoin(content, ["b\r\n"]) == "b\n"
  {
    CrlfIsChomped();
    assert ["b\r\n"][1..] == [] && ChompAll(["b\r\n"]) == ["b"];
    assert "b" + "\n" == "b\n";
  }

  /** They do differ: the last line of "a", "b", when both end in "\r\n", is kept with its '\r' by
      the forward window and without it by the tail window. */
  lemma TailDropsReturn()
    ensures TailLines("a\r\nb\r\n", 1) == ("b\n", true)
    ensures LineWindow("a\r\nb\r\n", Some(1), None).content == "b\r\n"
  {
    var content, last := "a\r\nb\r\n", "b\r\n";
    TwoCrlfLines();
    assert ["a\r\n", last][1..] == [last];
    RejoinedCrlf(content);
    WindowToEnd(content, 1);
    ConcatCons(last, []);
    assert [last] + [] == [last];
  }

  // ---------------------------------------------------------------- deltas

  function SuffixAfterBaseline(content: string, baseline: Option<string>): string {
    if baseline.Some? && baseline.value <= content then content[|baseline.value|..] else content
  }

  /** A delta on top of the text it was taken against gives back the whole text. */
  lemma DeltaCompletesBaseline(content: string, baseline: Option<string>)
    requires baseline.Some? ==> baseline.value <= content
    ensures (if baseline.Some? then baseline.value else "") + SuffixAfterBaseline(content, baseline) == content
  {
  }
}
