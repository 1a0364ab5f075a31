/** `UartImpl::readline`: one loop over single bytes, one over chunks, both stopping at the first terminator. */
module Readline {

  import opened EventFrame

  const CR: Byte := 13
  const LF: Byte := 10

  datatype EscapeSequence = Null | LineFeed | CrLf

  function EndOfLine(e: EscapeSequence): (end: seq<Byte>)
    ensures 1 <= |end| <= 2
  {
    match e
    case Null => [0]
    case LineFeed => [LF]
    case CrLf => [CR, LF]
  }

  /** The terminator is the last thing in the first n bytes. */
  predicate EndsAt(end: seq<Byte>, input: seq<Byte>, n: nat) {
    |end| <= n <= |input| && input[n - |end|..n] == end
  }

  /** n is where reading must stop: at the end of the first terminator, or at the end of the input if there is none. */
  ghost predicate IsStop(end: seq<Byte>, input: seq<Byte>, n: nat) {
    && n <= |input|
    && (forall j: nat :: j < n ==> !EndsAt(end, input, j))
    && (EndsAt(end, input, n) || n == |input|)
  }

  /** The line for the bytes consumed: the bytes themselves, except that for "\r\n" a run of '\r' followed by another byte than '\n' gains one '\r'. */
  function Line(e: EscapeSequence, consumed: seq<Byte>): seq<Byte> {
    if consumed == [] then []
    else
      var n := |consumed| - 1;
      var ch := consumed[n];
      var extra := if e == CrLf && n > 0 && consumed[n - 1] == CR && ch != CR && ch != LF then [CR] else [];
      Line(e, consumed[..n]) + extra + [ch]
  }

  lemma {:induction false} PlainLine(e: EscapeSequence, consumed: seq<Byte>)
    requires e != CrLf
    ensures Line(e, consumed) == consumed
  {
    if consumed != [] { PlainLine(e, consumed[..|consumed| - 1]); }
  }

  /** Somewhere a '\r' is followed by a byte other than '\r' and '\n'. */
  ghost predicate HasBrokenRun(consumed: seq<Byte>) {
    exists k :: 0 < k < |consumed| && BreaksRun(consumed, k)
  }

  predicate BreaksRun(consumed: seq<Byte>, k: nat)
    requires 0 < k < |consumed|
  {
    consumed[k - 1] == CR && consumed[k] != CR && consumed[k] != LF
  }

  /** How many such places there are. */
  function BrokenRuns(consumed: seq<Byte>): nat {
    if |consumed| < 2 then 0
    else BrokenRuns(consumed[..|consumed| - 1]) + (if BreaksRun(consumed, |consumed| - 1) then 1 else 0)
  }

  /** A "\r\n" line has one byte more than was consumed for each run of '\r' that another byte than '\n' ends. */
  lemma {:induction false} LineLength(consumed: seq<Byte>)
    ensures |Line(CrLf, consumed)| == |consumed| + BrokenRuns(consumed)
  {
    if consumed != [] { LineLength(consumed[..|consumed| - 1]); }
  }

  lemma {:induction false} NoneBroken(consumed: seq<Byte>)
    ensures BrokenRuns(consumed) == 0 <==> !HasBrokenRun(consumed)
  {
    if |consumed| >= 2 {
      var n := |consumed| - 1;
      NoneBroken(consumed[..n]);
      if HasBrokenRun(consumed[..n]) {
        var k :| 0 < k < n && BreaksRun(consumed[..n], k);
        assert BreaksRun(consumed, k);
      }
      if HasBrokenRun(consumed) && !BreaksRun(consumed, n) {
        var k :| 0 < k < |consumed| && BreaksRun(consumed, k);
        assert BreaksRun(consumed[..n], k);
      }
    }
  }

  lemma {:induction false} UnbrokenLine(consumed: seq<Byte>)
    requires BrokenRuns(consumed) == 0
    ensures Line(CrLf, consumed) == consumed
  {
    if consumed != [] { UnbrokenLine(consumed[..|consumed| - 1]); }
  }

  /** The line returned is the bytes consumed exactly when no '\r' among them is followed by a byte other than '\r' and '\n'. */
  lemma LineIsConsumedIff(e: EscapeSequence, consumed: seq<Byte>)
    ensures Line(e, consumed) == consumed <==> e != CrLf || !HasBrokenRun(consumed)
  {
    if e == CrLf {
      LineLength(consumed);
      NoneBroken(consumed);
      if BrokenRuns(consumed) == 0 { UnbrokenLine(consumed); }
    } else {
      PlainLine(e, consumed);
    }
  }

  /** "\rA" comes back as "\r\rA". */
  lemma LoneReturnIsDoubled()
    ensures Line(CrLf, [CR, 65]) == [CR, CR, 65] && IsStop(EndOfLine(CrLf), [CR, 65], 2)
  {
    var consumed: seq<Byte> := [CR, 65];
    assert consumed[..1] == [CR];
    assert Line(CrLf, [CR]) == [CR] by {
      assert Line(CrLf, []) == [] && [CR][..0] == [];
    }
    assert Line(CrLf, consumed) == Line(CrLf, consumed[..1]) + [CR] + [65];
  }

  /** Progress of the matcher after some bytes without a terminator. */
  predicate Matched(e: EscapeSequence, seen: seq<Byte>, endIdx: nat) {
    endIdx == if e == CrLf && |seen| > 0 && seen[|seen| - 1] == CR then 1 else 0
  }

  ghost predicate NoTerminator(end: seq<Byte>, input: seq<Byte>, n: nat) {
    forall j: nat :: j <= n ==> !EndsAt(end, input, j)
  }

  lemma LineSnoc(e: EscapeSequence, input: seq<Byte>, n: nat)
    requires n < |input|
    ensures Line(e, input[..n + 1]) ==
      Line(e, input[..n])
      + (if e == CrLf && n > 0 && input[n - 1] == CR && input[n] != CR && input[n] != LF then [CR] else [])
      + [input[n]]
  {
    assert input[..n + 1][..n] == input[..n];
  }

  /** A terminator can only end at n + 1 when the matcher has seen all but its last byte. */
  lemma TerminatorEnds(e: EscapeSequence, input: seq<Byte>, n: nat, endIdx: nat)
    requires n < |input| && Matched(e, input[..n], endIdx)
    ensures EndsAt(EndOfLine(e), input, n + 1) <==> endIdx + 1 == |EndOfLine(e)| && input[n] == EndOfLine(e)[endIdx]
  {
    var end := EndOfLine(e);
    if |end| == 1 {
      assert input[n..n + 1] == [input[n]];
    } else if n >= 1 {
      assert input[n - 1..n + 1] == [input[n - 1], input[n]];
    }
  }

  /** Where both loops stand after n bytes without a terminator. */
  ghost predicate Scanning(e: EscapeSequence, input: seq<Byte>, n: nat, line: seq<Byte>, endIdx: nat) {
    && n <= |input| && endIdx < |EndOfLine(e)|
    && Matched(e, input[..n], endIdx)
    && NoTerminator(EndOfLine(e), input, n)
    && line == Line(e, input[..n])
  }

  /** What is returned once n bytes have been consumed. */
  ghost predicate Returned(e: EscapeSequence, input: seq<Byte>, n: nat, line: seq<Byte>) {
    IsStop(EndOfLine(e), input, n) && line == Line(e, input[..n])
  }

  lemma ScanStarts(e: EscapeSequence, input: seq<Byte>)
    ensures Scanning(e, input, 0, [], 0)
  {
  }

  lemma ScanExhausts(e: EscapeSequence, input: seq<Byte>, line: seq<Byte>, endIdx: nat)
    requires Scanning(e, input, |input|, line, endIdx)
    ensures Returned(e, input, |input|, line)
  {
  }

  lemma ScanIndex(e: EscapeSequence, input: seq<Byte>, n: nat, line: seq<Byte>, endIdx: nat)
    requires Scanning(e, input, n, line, endIdx)
    ensures n <= |input| && endIdx < |EndOfLine(e)|
  {
  }

  /** One byte: what the statements inside both loops compute. */
  ghost predicate Took(end: seq<Byte>, ch: Byte, line: seq<Byte>, endIdx: nat, line': seq<Byte>, endIdx': nat, done: bool)
    requires endIdx < |end|
  {
    if ch == end[endIdx] then line' == line + [ch] && endIdx' == endIdx + 1 && done == (endIdx' == |end|)
    else if endIdx == 0 then line' == line + [ch] && endIdx' == 0 && !done
    else if ch == end[0] then line' == line + end[..endIdx] && endIdx' == 1 && !done
    else line' == line + end[..endIdx] + [ch] && endIdx' == 0 && !done
  }

  /** The statements both loops run for one byte. */
  method Take(end: seq<Byte>, ch: Byte, line: seq<Byte>, endIdx: nat) returns (line': seq<Byte>, endIdx': nat, done: bool)
    requires endIdx < |end|
    ensures Took(end, ch, line, endIdx, line', endIdx', done)
  {
    line', endIdx', done := line, endIdx, false;
    if endIdx' < |end| && ch == end[endIdx'] {
      endIdx' := endIdx' + 1;
      line' := line' + [ch];
      done := endIdx' == |end|;
    } else if endIdx' > 0 {
      var i := 0;
      while i < endIdx'
        invariant 0 <= i <= endIdx' && line' == line + end[..i]
      {
        line' := line' + [end[i]];
        i := i + 1;
      }
      endIdx' := 0;
      if ch == end[0] { endIdx' := 1; } else { line' := line' + [ch]; }
    } else {
      line' := line' + [ch];
    }
  }

  /** One byte either ends the line at the first terminator or keeps the scan going. */
  lemma TakeKeeps(e: EscapeSequence, input: seq<Byte>, n: nat, line: seq<Byte>, endIdx: nat, line': seq<Byte>, endIdx': nat, done: bool)
    requires n < |input| && Scanning(e, input, n, line, endIdx)
    requires Took(EndOfLine(e), input[n], line, endIdx, line', endIdx', done)
    ensures done ==> Returned(e, input, n + 1, line')
    ensures !done ==> Scanning(e, input, n + 1, line', endIdx')
  {
    LineSnoc(e, input, n);
    TerminatorEnds(e, input, n, endIdx);
  }

  // ---------- byte at a time ----------

  /** What one ReadFile call for a single byte yields. */
  datatype ByteRead = Failed | Nothing | Got(ch: Byte)

  /** The bytes delivered before the first failure; running out of results counts as failure. */
  function Delivered(results: seq<ByteRead>): seq<Byte> {
    if results == [] || results[0].Failed? then []
    else if results[0].Nothing? then Delivered(results[1..])
    else [results[0].ch] + Delivered(results[1..])
  }

  lemma NextResult(results: seq<ByteRead>, i: nat, input: seq<Byte>, consumed: nat)
    requires i < |results| && !results[i].Failed? && consumed <= |input| && Delivered(results[i..]) == input[consumed..]
    ensures results[i].Nothing? ==> Delivered(results[i + 1..]) == input[consumed..]
    ensures results[i].Got? ==>
      consumed < |input| && input[consumed] == results[i].ch && Delivered(results[i + 1..]) == input[consumed + 1..]
  {
    assert results[i..][1..] == results[i + 1..];
    if results[i].Got? { assert input[consumed..][1..] == input[consumed + 1..]; }
  }

  lemma NoMoreResults(rest: seq<ByteRead>)
    requires rest == [] || rest[0].Failed?
    ensures Delivered(rest) == []
  {
  }

  /** The byte-wise version; `consumed` counts the bytes it took from the device. */
  method ReadlineByByte(e: EscapeSequence, results: seq<ByteRead>) returns (line: seq<Byte>, consumed: nat)
    ensures Returned(e, Delivered(results), consumed, line)
  {
    hide Scanning, Returned, Took, EndOfLine, Delivered;
    var end := EndOfLine(e);
    ghost var input := Delivered(results);
    line, consumed := [], 0;
    var endIdx, i := 0, 0;
    ScanStarts(e, input);
    while i < |results| && !results[i].Failed?
      invariant 0 <= i <= |results| && consumed <= |input| && 0 <= endIdx < |end|
      invariant Delivered(results[i..]) == input[consumed..]
      invariant Scanning(e, input, consumed, line, endIdx)
    {
      NextResult(results, i, input, consumed);
      if results[i].Got? {
        var done;
        ghost var before, was := line, endIdx;
        line, endIdx, done := Take(end, results[i].ch, line, endIdx);
        TakeKeeps(e, input, consumed, before, was, line, endIdx, done);
        consumed := consumed + 1;
        if done { return; }
        ScanIndex(e, input, consumed, line, endIdx);
      }
      i := i + 1;
    }
    NoMoreResults(results[i..]);
    ScanExhausts(e, input, line, endIdx);
  }

  // ---------- in chunks ----------

  /** The bytes of the reads before the first that returns nothing; running out of reads counts as one. */
  function Flatten(chunks: seq<seq<Byte>>): seq<Byte> {
    if chunks == [] || chunks[0] == [] then [] else chunks[0] + Flatten(chunks[1..])
  }

  lemma NextChunk(chunks: seq<seq<Byte>>, k: nat)
    requires k < |chunks| && chunks[k] != []
    ensures Flatten(chunks[k..]) == chunks[k] + Flatten(chunks[k + 1..])
  {
    assert chunks[k..][1..] == chunks[k + 1..];
  }

  lemma NoMoreChunks(rest: seq<seq<Byte>>)
    requires rest == [] || rest[0] == []
    ensures Flatten(rest) == []
  {
  }

  /** The chunked version; bytes behind the terminator in its chunk are dropped. */
  method ReadlineByChunk(e: EscapeSequence, chunks: seq<seq<Byte>>) returns (line: seq<Byte>, consumed: nat)
    requires forall k :: 0 <= k < |chunks| ==> |chunks[k]| <= 255
    ensures Returned(e, Flatten(chunks), consumed, line)
  {
    hide Scanning, Returned, Took, EndOfLine, Flatten;
    var end := EndOfLine(e);
    ghost var input := Flatten(chunks);
    line, consumed := [], 0;
    var endIdx, k := 0, 0;
    ScanStarts(e, input);
    while k < |chunks| && chunks[k] != []
      invariant 0 <= k <= |chunks| && consumed <= |input| && 0 <= endIdx < |end|
      invariant Flatten(chunks[k..]) == input[consumed..]
      invariant Scanning(e, input, consumed, line, endIdx)
    {
      var buffer := chunks[k];
      ghost var start := consumed;
      NextChunk(chunks, k);
      var i := 0;
      while i < |buffer|
        invariant 0 <= i <= |buffer| && consumed == start + i && 0 <= endIdx < |end|
        invariant start + |buffer| <= |input| && input[start..] == buffer + Flatten(chunks[k + 1..])
        invariant Scanning(e, input, consumed, line, endIdx)
      {
        assert input[consumed] == input[start..][i] == buffer[i];
        var done;
        ghost var before, was := line, endIdx;
        line, endIdx, done := Take(end, buffer[i], line, endIdx);
        TakeKeeps(e, input, consumed, before, was, line, endIdx, done);
        consumed := consumed + 1;
        if done { return; }
        ScanIndex(e, input, consumed, line, endIdx);
        i := i + 1;
      }
      assert input[consumed..] == input[start..][|buffer|..];
      k := k + 1;
    }
    NoMoreChunks(chunks[k..]);
    ScanExhausts(e, input, line, endIdx);
  }

  // ---------- agreement ----------

  lemma StopUnique(end: seq<Byte>, input: seq<Byte>, m: nat, n: nat)
    requires IsStop(end, input, m) && IsStop(end, input, n)
    ensures m == n
  {
  }

  /** However the same bytes are cut, both versions return the same line and stop at the same byte. */
  method BothVersionsAgree(e: EscapeSequence, results: seq<ByteRead>, chunks: seq<seq<Byte>>) returns (byByte: (seq<Byte>, nat), byChunk: (seq<Byte>, nat))
    requires Delivered(results) == Flatten(chunks)
    requires forall k :: 0 <= k < |chunks| ==> |chunks[k]| <= 255
    ensures byByte == byChunk
  {
    var l1, n1 := ReadlineByByte(e, results);
    var l2, n2 := ReadlineByChunk(e, chunks);
    StopUnique(EndOfLine(e), Flatten(chunks), n1, n2);
    byByte, byChunk := (l1, n1), (l2, n2);
  }
}
