/** Newline framing of one connection's byte stream, received in arbitrary chunks. */
module Framing {
  import opened Common
  import opened Sequences

  const NEWLINE: byte := 10

  /** The bytes `bytes.strip` removes. */
  predicate IsSpace(b: byte) {
    b == 32 || 9 <= b <= 13
  }

  predicate IsBlank(line: Bytes) {
    forall i | 0 <= i < |line| :: IsSpace(line[i])
  }

  predicate NewlineFree(s: Bytes) {
    forall i | 0 <= i < |s| :: s[i] != NEWLINE
  }

  /** The position of the first newline. */
  function FirstNewline(s: Bytes): (k: nat)
    requires !NewlineFree(s)
    ensures k < |s| && s[k] == NEWLINE
    ensures forall i | 0 <= i < k :: s[i] != NEWLINE
  {
    if s[0] == NEWLINE then 0 else
      assert s == [s[0]] + s[1..];
      var k := FirstNewline(s[1..]);
      assert forall i | 1 <= i <= k :: s[i] == s[1..][i - 1];
      k + 1
  }

  function LineOf(s: Bytes): Bytes
    requires !NewlineFree(s)
  {
    s[..FirstNewline(s)]
  }

  function AfterLine(s: Bytes): (tail: Bytes)
    requires !NewlineFree(s)
    ensures |tail| < |s|
  {
    s[FirstNewline(s) + 1..]
  }

  /** The newline-terminated lines of a stream, without their newlines. */
  function Lines(s: Bytes): seq<Bytes>
    decreases |s|
  {
    if NewlineFree(s) then [] else [LineOf(s)] + Lines(AfterLine(s))
  }

  /** What follows the last newline of a stream. */
  function Rest(s: Bytes): (r: Bytes)
    ensures NewlineFree(r)
    decreases |s|
  {
    if NewlineFree(s) then s else Rest(AfterLine(s))
  }

  function NonBlank(lines: seq<Bytes>): seq<Bytes> {
    if lines == [] then []
    else if IsBlank(lines[0]) then NonBlank(lines[1..])
    else [lines[0]] + NonBlank(lines[1..])
  }

  /** Lines written back with a line feed, byte 10, after each. */
  function Join(lines: seq<Bytes>): Bytes {
    if lines == [] then [] else lines[0] + [10] + Join(lines[1..])
  }

  predicate HasNoLineFeed(s: Bytes) {
    forall i | 0 <= i < |s| :: s[i] != 10
  }

  /** A way to cut a stream at all of its line feeds. */
  ghost predicate IsFraming(s: Bytes, lines: seq<Bytes>, rest: Bytes) {
    && Join(lines) + rest == s
    && HasNoLineFeed(rest)
    && forall i | 0 <= i < |lines| :: HasNoLineFeed(lines[i])
  }

  /** The line has a byte other than tab, line feed, vertical tab, form feed, carriage return and space. */
  predicate Visible(line: Bytes) {
    exists i | 0 <= i < |line| :: line[i] !in {9, 10, 11, 12, 13, 32}
  }

  function VisibleBefore(lines: seq<Bytes>, j: nat): nat
    requires j <= |lines|
  {
    if j == 0 then 0 else VisibleBefore(lines, j - 1) + if Visible(lines[j - 1]) then 1 else 0
  }

  /**
   * The chosen lines are exactly the visible ones, in order and each as often as it
   * occurs: each stands behind as many others as there are visible lines before it.
   */
  predicate Selects(lines: seq<Bytes>, chosen: seq<Bytes>) {
    && |chosen| == VisibleBefore(lines, |lines|)
    && forall j | 0 <= j < |lines| && Visible(lines[j]) ::
         VisibleBefore(lines, j) < |chosen| && chosen[VisibleBefore(lines, j)] == lines[j]
  }

  /** The bytes received before the peer closes, which `recv` reports as an empty chunk. */
  function Received(chunks: seq<Bytes>): Bytes {
    if chunks == [] || chunks[0] == [] then [] else chunks[0] + Received(chunks[1..])
  }

  /** The receive loop: hands the visible lines of the stream to the dispatcher and keeps the unfinished rest. */
  method Handle(chunks: seq<Bytes>) returns (dispatched: seq<Bytes>, buf: Bytes)
    ensures Selects(Lines(Received(chunks)), dispatched)
    ensures buf == Rest(Received(chunks))
  {
    dispatched, buf := [], [];
    ghost var stream: Bytes := [];
    var i := 0;
    while i < |chunks|
      invariant 0 <= i <= |chunks|
      invariant stream + Received(chunks[i..]) == Received(chunks)
      invariant dispatched == NonBlank(Lines(stream)) && buf == Rest(stream)
    {
      var chunk := chunks[i];
      i := i + 1;
      if chunk == [] {
        break;
      }
      ReceivedNext(stream, chunks[i - 1..]);
      assert chunks[i - 1..][1..] == chunks[i..];
      ChunkArrives(stream, chunk);
      stream := stream + chunk;
      buf := buf + chunk;
      while !NewlineFree(buf)
        invariant dispatched + NonBlank(Lines(buf)) == NonBlank(Lines(stream))
        invariant Rest(buf) == Rest(stream)
        decreases |buf|
      {
        var k := FirstNewline(buf);
        var line := buf[..k];
        LineSplit(dispatched, buf);
        buf := buf[k + 1..];
        if !IsBlank(line) {
          dispatched := dispatched + [line];
        }
      }
    }
    assert stream + [] == stream;
    NonBlankSelects(Lines(stream));
  }

  lemma {:induction false} VisiblePrefix(lines: seq<Bytes>, n: nat, j: nat)
    requires j <= n <= |lines|
    ensures VisibleBefore(lines[..n], j) == VisibleBefore(lines, j)
  {
    if j > 0 {
      VisiblePrefix(lines, n, j - 1);
    }
  }

  /** A selection from all lines but the last, continued to the last. */
  lemma SelectsNext(lines: seq<Bytes>, chosen: seq<Bytes>)
    requires lines != [] && Selects(lines[..|lines| - 1], chosen)
    ensures var last := lines[|lines| - 1]; Selects(lines, if Visible(last) then chosen + [last] else chosen)
  {
    var n := |lines| - 1;
    var before := lines[..n];
    VisiblePrefix(lines, n, n);
    forall j | 0 <= j < n && Visible(lines[j])
      ensures VisibleBefore(lines, j) < |chosen| && chosen[VisibleBefore(lines, j)] == lines[j]
    {
      VisiblePrefix(lines, n, j);
      assert before[j] == lines[j];
    }
  }

  lemma LastBlankOrNot(line: Bytes)
    ensures NonBlank([line]) == if Visible(line) then [line] else []
  {
    assert [line][1..] == [];
    assert IsBlank(line) <==> !Visible(line);
  }

  /** The lines that are not blank are the visible ones. */
  lemma {:induction false} NonBlankSelects(lines: seq<Bytes>)
    ensures Selects(lines, NonBlank(lines))
  {
    if lines != [] {
      var n := |lines| - 1;
      NonBlankSelects(lines[..n]);
      SelectsNext(lines, NonBlank(lines[..n]));
      SplitLast(lines);
      NonBlankAppend(lines[..n], [lines[n]]);
      LastBlankOrNot(lines[n]);
      assert NonBlank(lines[..n]) + [] == NonBlank(lines[..n]);
    }
  }

  lemma ChunkArrives(stream: Bytes, chunk: Bytes)
    ensures NonBlank(Lines(stream + chunk)) == NonBlank(Lines(stream)) + NonBlank(Lines(Rest(stream) + chunk))
    ensures Rest(stream + chunk) == Rest(Rest(stream) + chunk)
  {
    LinesAppend(stream, chunk);
    NonBlankAppend(Lines(stream), Lines(Rest(stream) + chunk));
  }

  /** Taking one line off the buffer moves it, unless blank, to the dispatched lines. */
  lemma LineSplit(dispatched: seq<Bytes>, buf: Bytes)
    requires !NewlineFree(buf)
    ensures (if IsBlank(LineOf(buf)) then dispatched else dispatched + [LineOf(buf)]) + NonBlank(Lines(AfterLine(buf)))
         == dispatched + NonBlank(Lines(buf))
    ensures Rest(AfterLine(buf)) == Rest(buf)
  {
    PassOn(dispatched, LineOf(buf), Lines(AfterLine(buf)));
  }

  lemma PassOn(dispatched: seq<Bytes>, line: Bytes, more: seq<Bytes>)
    ensures (if IsBlank(line) then dispatched else dispatched + [line]) + NonBlank(more)
         == dispatched + NonBlank([line] + more)
  {
    NonBlankCons(line, more);
    if !IsBlank(line) {
      AppendAssociative(dispatched, [line], NonBlank(more));
    }
  }

  lemma NonBlankCons(line: Bytes, more: seq<Bytes>)
    ensures NonBlank([line] + more) == if IsBlank(line) then NonBlank(more) else [line] + NonBlank(more)
  {
    assert ([line] + more)[1..] == more;
  }

  lemma ReceivedNext(stream: Bytes, chunks: seq<Bytes>)
    requires chunks != [] && chunks[0] != []
    ensures stream + Received(chunks) == (stream + chunks[0]) + Received(chunks[1..])
  {
  }

  lemma {:induction false} NonBlankAppend(a: seq<Bytes>, b: seq<Bytes>)
    ensures NonBlank(a + b) == NonBlank(a) + NonBlank(b)
  {
    if a == [] {
      assert a + b == b;
    } else {
      NonBlankAppend(a[1..], b);
      assert (a + b)[1..] == a[1..] + b;
    }
  }

  lemma Associative(a: Bytes, b: Bytes, c: Bytes)
    ensures (a + b) + c == a + (b + c)
  {
  }

  lemma {:induction false} JoinAppend(a: seq<Bytes>, b: seq<Bytes>)
    ensures Join(a + b) == Join(a) + Join(b)
  {
    if a == [] {
      assert a + b == b;
    } else {
      JoinAppend(a[1..], b);
      assert (a + b)[1..] == a[1..] + b;
      Associative(a[0] + [NEWLINE], Join(a[1..]), Join(b));
    }
  }

  lemma CutAt(s: Bytes, k: nat)
    requires k < |s|
    ensures s[..k] + [s[k]] + s[k + 1..] == s
  {
  }

  lemma ConsFraming(line: Bytes, s: Bytes, lines: seq<Bytes>, rest: Bytes)
    requires NewlineFree(line) && IsFraming(s, lines, rest)
    ensures IsFraming(line + [NEWLINE] + s, [line] + lines, rest)
  {
    assert ([line] + lines)[1..] == lines;
    Associative(line + [NEWLINE], Join(lines), rest);
  }

  /** Lines and rest, written back, are the stream. */
  lemma {:induction false} LinesAreFraming(s: Bytes)
    ensures IsFraming(s, Lines(s), Rest(s))
    decreases |s|
  {
    if NewlineFree(s) {
      assert [] + s == s;
    } else {
      var k := FirstNewline(s);
      LinesAreFraming(s[k + 1..]);
      ConsFraming(s[..k], s[k + 1..], Lines(s[k + 1..]), Rest(s));
      CutAt(s, k);
    }
  }

  lemma FirstLine(line: Bytes, tail: Bytes)
    requires NewlineFree(line)
    ensures var s := line + [NEWLINE] + tail;
            !NewlineFree(s) && FirstNewline(s) == |line| && s[..|line|] == line && s[|line| + 1..] == tail
  {
    var s := line + [NEWLINE] + tail;
    assert s[|line|] == NEWLINE;
    assert forall i | 0 <= i < |line| :: s[i] == line[i];
  }

  /** There is only one way to cut a stream at its newlines. */
  lemma {:induction false} FramingIsUnique(s: Bytes, lines: seq<Bytes>, rest: Bytes)
    requires IsFraming(s, lines, rest)
    ensures lines == Lines(s) && rest == Rest(s)
    decreases |lines|
  {
    if lines == [] {
      assert Join(lines) + rest == rest;
    } else {
      var tail := Join(lines[1..]) + rest;
      Associative(lines[0] + [NEWLINE], Join(lines[1..]), rest);
      FirstLine(lines[0], tail);
      assert s == lines[0] + [NEWLINE] + tail;
      FramingIsUnique(tail, lines[1..], rest);
      assert Lines(s) == [lines[0]] + Lines(tail);
      assert lines == [lines[0]] + lines[1..];
    }
  }

  /** A later chunk only extends the unfinished line. */
  lemma LinesAppend(a: Bytes, b: Bytes)
    ensures Lines(a + b) == Lines(a) + Lines(Rest(a) + b)
    ensures Rest(a + b) == Rest(Rest(a) + b)
  {
    var tail := Rest(a) + b;
    LinesAreFraming(a);
    LinesAreFraming(tail);
    JoinAppend(Lines(a), Lines(tail));
    Associative(Join(Lines(a)), Join(Lines(tail)), Rest(tail));
    Associative(Join(Lines(a)), Rest(a), b);
    assert IsFraming(a + b, Lines(a) + Lines(tail), Rest(tail));
    FramingIsUnique(a + b, Lines(a) + Lines(tail), Rest(tail));
  }

  function Concat(chunks: seq<Bytes>): Bytes {
    if chunks == [] then [] else chunks[0] + Concat(chunks[1..])
  }

  /** The stream is what arrives before the first empty chunk, which stands for the closed connection. */
  lemma {:induction false} ReceivedIsConcat(chunks: seq<Bytes>, after: seq<Bytes>)
    requires [] !in chunks && (after == [] || after[0] == [])
    ensures Received(chunks + after) == Concat(chunks)
  {
    if chunks == [] {
      assert chunks + after == after;
    } else {
      assert (chunks + after)[1..] == chunks[1..] + after;
      ReceivedIsConcat(chunks[1..], after);
    }
  }

  /** Every position is that of a visible line. */
  lemma {:induction false} PositionFilled(lines: seq<Bytes>, p: nat, n: nat) returns (j: nat)
    requires n <= |lines| && p < VisibleBefore(lines, n)
    ensures j < n && Visible(lines[j]) && VisibleBefore(lines, j) == p
  {
    if Visible(lines[n - 1]) && VisibleBefore(lines, n - 1) == p {
      j := n - 1;
    } else {
      j := PositionFilled(lines, p, n - 1);
    }
  }

  /** There is one selection of the visible lines. */
  lemma SelectionIsUnique(lines: seq<Bytes>, a: seq<Bytes>, b: seq<Bytes>)
    requires Selects(lines, a) && Selects(lines, b)
    ensures a == b
  {
    forall p | 0 <= p < |a|
      ensures a[p] == b[p]
    {
      var j := PositionFilled(lines, p, |lines|);
    }
  }

  /**
   * However a stream is cut into non-empty chunks, and whatever follows the
   * closing of the connection: the lines `Handle` selects from are those of the one
   * framing of the stream, and what it keeps is the rest of that framing.
   */
  lemma ChunkingInvariance(chunks: seq<Bytes>, after: seq<Bytes>, lines: seq<Bytes>, rest: Bytes)
    requires [] !in chunks && (after == [] || after[0] == []) && IsFraming(Concat(chunks), lines, rest)
    ensures Lines(Received(chunks + after)) == lines && Rest(Received(chunks + after)) == rest
  {
    ReceivedIsConcat(chunks, after);
    FramingIsUnique(Concat(chunks), lines, rest);
  }
}
