/** `transfer.py`: loops that move a bulk stream between descriptors, whose calls may each move
    less than they were asked to. */
module Movers {
  import opened Framing

  /** The readable end of a socket: the bytes still to arrive before the peer closes. */
  class Source {
    var stream: Bytes

    constructor (stream: Bytes)
      ensures this.stream == stream
    {
      this.stream := stream;
    }

    /** `os.read`: a short read returns at least one byte, and nothing only at the end. */
    method Read(max: nat) returns (chunk: Bytes)
      requires max > 0
      modifies this
      ensures |chunk| <= max && old(stream) == chunk + stream
      ensures chunk == [] <==> old(stream) == []
    {
      if stream == [] {
        return [];
      }
      var k: nat :| 1 <= k <= max && k <= |stream|;
      chunk := stream[..k];
      stream := stream[k..];
    }
  }

  /** A writable target, a descriptor or a file object: everything it has accepted so far.  A
      `buffered` file object takes whatever it is given; a raw one may take less. */
  class Sink {
    const buffered: bool
    var written: Bytes

    constructor (buffered: bool)
      ensures written == [] && this.buffered == buffered
    {
      this.buffered := buffered;
      written := [];
    }

    /** `os.write` on a blocking descriptor: a short write still accepts at least one byte. */
    method Write(data: Bytes) returns (n: nat)
      requires data != []
      modifies this
      ensures 1 <= n <= |data| && written == old(written) + data[..n]
    {
      n :| 1 <= n <= |data|;
      written := written + data[..n];
    }

    /** `file.write` of a file object. */
    method WriteObject(data: Bytes) returns (n: nat)
      modifies this
      ensures n <= |data| && written == old(written) + data[..n]
      ensures buffered ==> n == |data|
    {
      n :| n <= |data| && (buffered ==> n == |data|);
      written := written + data[..n];
    }
  }

  /** A kernel pipe with the bytes it holds. */
  class Pipe {
    var held: Bytes

    constructor ()
      ensures held == []
    {
      held := [];
    }
  }

  datatype Spliced = Count(n: nat) | OsError

  /** One call of `os.splice`, from the socket into the pipe or out of it, and what it came to. */
  datatype Call = In(result: Spliced) | Out(result: Spliced)

  /** The system as a transfer finds it: whether there is an `os.splice`, and every call of it. */
  class Kernel {
    const hasSplice: bool
    ghost var calls: seq<Call>

    constructor (hasSplice: bool)
      ensures this.hasSplice == hasSplice && calls == []
    {
      this.hasSplice, calls := hasSplice, [];
    }

    /** `os.splice` from a socket into a pipe. */
    method SpliceIn(src: Source, pipe: Pipe, max: nat) returns (r: Spliced)
      requires max > 0
      modifies this, src, pipe
      ensures calls == old(calls) + [In(r)]
      ensures r.OsError? ==> src.stream == old(src.stream) && pipe.held == old(pipe.held)
      ensures r.Count? ==> r.n <= max && r.n <= old(|src.stream|)
                           && src.stream == old(src.stream)[r.n..]
                           && pipe.held == old(pipe.held) + old(src.stream)[..r.n]
      ensures r.Count? ==> (r.n == 0 <==> old(src.stream) == [])
    {
      var refused: bool := *;
      if refused {
        r := OsError;
      } else {
        var chunk := src.Read(max);
        pipe.held := pipe.held + chunk;
        r := Count(|chunk|);
      }
      calls := calls + [In(r)];
    }

    /** `os.splice` from a pipe that holds something into a descriptor. */
    method SpliceOut(pipe: Pipe, dst: Sink, max: nat) returns (r: Spliced)
      requires 1 <= max <= |pipe.held|
      modifies this, pipe, dst
      ensures calls == old(calls) + [Out(r)]
      ensures r.OsError? ==> pipe.held == old(pipe.held) && dst.written == old(dst.written)
      ensures r.Count? ==> 1 <= r.n <= max
                           && dst.written == old(dst.written) + old(pipe.held)[..r.n]
                           && pipe.held == old(pipe.held)[r.n..]
    {
      var failed: bool := *;
      if failed {
        r := OsError;
      } else {
        var n := dst.Write(pipe.held[..max]);
        assert pipe.held[..max][..n] == pipe.held[..n];
        pipe.held := pipe.held[n..];
        r := Count(n);
      }
      calls := calls + [Out(r)];
    }
  }

  /** The bytes that the calls took off the socket. */
  function TakenIn(calls: seq<Call>): nat {
    if calls == [] then 0
    else
      var last := calls[|calls| - 1];
      TakenIn(calls[..|calls| - 1]) + if last.In? && last.result.Count? then last.result.n else 0
  }

  /** The bytes that the calls gave to the descriptor. */
  function GivenOut(calls: seq<Call>): nat {
    if calls == [] then 0
    else
      var last := calls[|calls| - 1];
      GivenOut(calls[..|calls| - 1]) + if last.Out? && last.result.Count? then last.result.n else 0
  }

  /** No call failed. */
  predicate Clean(calls: seq<Call>) {
    forall i :: 0 <= i < |calls| ==> calls[i].result.Count?
  }

  /** The kernel rejected the very first call. */
  predicate Rejected(calls: seq<Call>) {
    calls == [In(OsError)]
  }

  /** A call out of the pipe failed, or one into it after a byte had been moved. */
  predicate Broke(calls: seq<Call>) {
    && calls != [] && calls[|calls| - 1].result.OsError? && Clean(calls[..|calls| - 1])
    && (calls[|calls| - 1].In? ==> GivenOut(calls) > 0)
  }

  lemma {:induction false} OneMoreSplice(calls: seq<Call>, call: Call)
    ensures TakenIn(calls + [call]) == TakenIn(calls) + if call.In? && call.result.Count? then call.result.n else 0
    ensures GivenOut(calls + [call]) == GivenOut(calls) + if call.Out? && call.result.Count? then call.result.n else 0
    ensures Clean(calls + [call]) <==> Clean(calls) && call.result.Count?
  {
    var all := calls + [call];
    assert all[..|calls|] == calls && all[|calls|] == call;
    assert forall i :: 0 <= i < |calls| ==> all[i] == calls[i];
  }

  lemma {:induction false} OneMoreIn(calls: seq<Call>, taken: Spliced)
    requires Clean(calls)
    ensures TakenIn(calls + [In(taken)]) == TakenIn(calls) + (if taken.Count? then taken.n else 0)
    ensures GivenOut(calls + [In(taken)]) == GivenOut(calls)
    ensures Clean(calls + [In(taken)]) <==> taken.Count?
    ensures Broke(calls + [In(taken)]) <==> taken.OsError? && GivenOut(calls) > 0
  {
    OneMoreSplice(calls, In(taken));
    assert (calls + [In(taken)])[..|calls|] == calls;
  }

  lemma {:induction false} CleanIsNotBroken(calls: seq<Call>)
    requires Clean(calls)
    ensures !Broke(calls) && !Rejected(calls)
  {}

  lemma {:induction false} NothingPassed(made: seq<Call>)
    requires made == [] || Rejected(made)
    ensures TakenIn(made) == GivenOut(made) == 0 && !Broke(made) && (Clean(made) <==> made == [])
  {
    assert made != [] ==> made[..0] == [];
  }

  /** How many of `count` bytes a stream of `available` bytes can give. */
  function Taken(count: int, available: nat): (t: nat)
    ensures t <= available && (t <= count || t == 0) && (t < count ==> t == available)
  {
    if count <= 0 then 0 else if count <= available then count else available
  }

  method WriteAll(dst: Sink, data: Bytes)
    modifies dst
    ensures dst.written == old(dst.written) + data
  {
    var off := 0;
    while off < |data|
      invariant off <= |data| && dst.written == old(dst.written) + data[..off]
    {
      var n := dst.Write(data[off..]);
      assert data[..off + n] == data[..off] + data[off..][..n];
      off := off + n;
    }
    assert data[..off] == data;
  }

  /** How a move ended: with a count, refused before anything moved, or by an exception. */
  datatype Outcome = Moved(n: nat) | Refused | Raised

  /** What `dst` has got is the stream's first `n` bytes, and `src` has given exactly those. */
  twostate predicate Transferred(src: Source, dst: Sink, n: nat)
    reads src, dst
  {
    Passed(src, dst, n, n)
  }

  /** `src` has given its first `taken` bytes and `dst` has got the first `given` of them. */
  twostate predicate Passed(src: Source, dst: Sink, taken: nat, given: nat)
    reads src, dst
  {
    && given <= taken <= old(|src.stream|)
    && dst.written == old(dst.written) + old(src.stream)[..given]
    && src.stream == old(src.stream)[taken..]
  }

  /** The inner loop: drain the `|held|` bytes just spliced in. */
  method DrainPipe(kernel: Kernel, pipe: Pipe, dst: Sink, ghost before: seq<Call>)
    returns (drained: bool, ghost off: nat, ghost made: seq<Call>)
    requires Clean(before)
    modifies kernel, pipe, dst
    ensures kernel.calls == old(kernel.calls) + made
    ensures off <= old(|pipe.held|) && dst.written == old(dst.written) + old(pipe.held)[..off]
    ensures TakenIn(before + made) == TakenIn(before) && GivenOut(before + made) == GivenOut(before) + off
    ensures drained ==> off == old(|pipe.held|) && pipe.held == [] && Clean(before + made)
    ensures !drained ==> Broke(before + made) && !Clean(before + made) && !Rejected(before + made)
  {
    var n, done := |pipe.held|, 0;
    ghost var held := pipe.held;
    off, made := 0, [];
    assert before + [] == before && kernel.calls + [] == kernel.calls;
    hide TakenIn, GivenOut, Clean;
    while done < n
      invariant 0 <= done == off <= n == |held| && pipe.held == held[off..]
      invariant dst.written == old(dst.written) + held[..off]
      invariant kernel.calls == old(kernel.calls) + made && Clean(before + made)
      invariant TakenIn(before + made) == TakenIn(before) && GivenOut(before + made) == GivenOut(before) + off
    {
      var step := kernel.SpliceOut(pipe, dst, n - done);
      OneMoreSplice(before + made, Out(step));
      assert before + (made + [Out(step)]) == (before + made) + [Out(step)];
      made := made + [Out(step)];
      if step.OsError? {
        assert (before + made)[..|before + made| - 1] == before + made[..|made| - 1];
        assert made[..|made| - 1] + [Out(step)] == made;
        return false, off, made;
      }
      assert held[..off + step.n] == held[..off] + held[off..][..step.n];
      done, off := done + step.n, off + step.n;
    }
    drained := true;
  }

  lemma {:induction false} Pieces(before: Bytes, stream: Bytes, moved: nat, n: nat, off: nat)
    requires off <= n && moved + n <= |stream|
    ensures (before + stream[..moved]) + stream[moved..][..off] == before + stream[..moved + off]
    ensures stream[moved..][n..] == stream[moved + n..]
  {}

  lemma {:induction false} BrokenIsNotClean(calls: seq<Call>)
    requires Broke(calls)
    ensures !Clean(calls) && !Rejected(calls)
  {
    if Rejected(calls) {
      NothingPassed(calls);
    }
  }

  /** One turn of the outer loop: splice in, and drain what came. */
  method SpliceTurn(kernel: Kernel, src: Source, pipe: Pipe, dst: Sink, max: nat, ghost before: seq<Call>)
    returns (taken: Spliced, drained: bool, ghost off: nat, ghost made: seq<Call>)
    requires max > 0 && pipe.held == [] && Clean(before) && GivenOut(before) == TakenIn(before)
    modifies kernel, src, pipe, dst
    ensures kernel.calls == old(kernel.calls) + made && made != [] && made[0] == In(taken)
    ensures var n := if taken.Count? then taken.n else 0;
            && n <= max && Passed(src, dst, n, off)
            && TakenIn(before + made) == TakenIn(before) + n && GivenOut(before + made) == GivenOut(before) + off
            && (drained ==> off == n)
    ensures taken.Count? ==> (taken.n == 0 <==> old(src.stream) == [])
    ensures drained ==> taken.Count? && pipe.held == [] && Clean(before + made)
    ensures !drained && taken.Count? ==> Broke(before + made)
    ensures taken.OsError? ==>
              made == [In(OsError)] && !drained && (Broke(before + made) <==> GivenOut(before) > 0)
  {
    hide TakenIn, GivenOut, Clean, Broke;
    taken := kernel.SpliceIn(src, pipe, max);
    OneMoreIn(before, taken);
    made := [In(taken)];
    if taken.OsError? || taken.n == 0 {
      return taken, taken.Count?, 0, made;
    }
    ghost var outs;
    drained, off, outs := DrainPipe(kernel, pipe, dst, before + made);
    made := made + outs;
    assert (before + [In(taken)]) + outs == before + made;
    assert old(src.stream)[..taken.n][..off] == old(src.stream)[..off];
  }

  /** Every outcome follows from the splice calls that were made: refused when there is no splice
      or the kernel rejects the first call, raised when a later one fails, and else the count. */
  method SpliceSocketToFd(kernel: Kernel, src: Source, dst: Sink, count: int)
    returns (r: Outcome, ghost made: seq<Call>)
    modifies kernel, src, dst
    ensures kernel.calls == old(kernel.calls) + made && (!kernel.hasSplice ==> made == [])
    ensures Passed(src, dst, TakenIn(made), GivenOut(made)) && TakenIn(made) <= Taken(count, old(|src.stream|))
    ensures r.Refused? <==> !kernel.hasSplice || Rejected(made)
    ensures r.Raised? <==> Broke(made)
    ensures r.Moved? <==> kernel.hasSplice && Clean(made)
    ensures r.Moved? ==> r.n == TakenIn(made) == GivenOut(made) == Taken(count, old(|src.stream|))
  {
    made := [];
    NothingPassed(made);
    assert kernel.calls + [] == kernel.calls;
    if !kernel.hasSplice {
      return Refused, made;
    }
    hide TakenIn, GivenOut, Clean, Broke;
    ghost var stream := src.stream;
    var pipe := new Pipe();
    var moved := 0;
    while moved < count
      invariant 0 <= moved && (moved <= count || moved == 0) && pipe.held == []
      invariant Passed(src, dst, moved, moved) && kernel.calls == old(kernel.calls) + made
      invariant Clean(made) && TakenIn(made) == GivenOut(made) == moved && (moved == 0 <==> made == [])
      decreases count - moved
    {
      var taken, drained, off, more := SpliceTurn(kernel, src, pipe, dst, count - moved, made);
      var n := if taken.Count? then taken.n else 0;
      Pieces(old(dst.written), stream, moved, n, off);
      assert (old(kernel.calls) + made) + more == old(kernel.calls) + (made + more);
      made := made + more;
      if taken.OsError? && moved == 0 {
        NothingPassed(made);
        return Refused, made;
      }
      if !drained {
        BrokenIsNotClean(made);
        return Raised, made;
      }
      if taken.n == 0 {
        break;
      }
      moved := moved + taken.n;
    }
    CleanIsNotBroken(made);
    r := Moved(moved);
  }

  const CHUNK := 0x10_0000

  /** One turn of the buffered copy: how much was read, and how much of that the target took. */
  datatype Turn = Turn(read: nat, took: nat)

  function ReadBy(turns: seq<Turn>): nat {
    if turns == [] then 0 else ReadBy(turns[..|turns| - 1]) + turns[|turns| - 1].read
  }

  predicate Fit(turns: seq<Turn>, stream: Bytes) {
    ReadBy(turns) <= |stream| && forall i :: 0 <= i < |turns| ==> turns[i].took <= turns[i].read
  }

  /** Every write took its whole chunk. */
  predicate Whole(turns: seq<Turn>) {
    forall i :: 0 <= i < |turns| ==> turns[i].took == turns[i].read
  }

  /** What the target has got after the turns. */
  function WrittenBy(stream: Bytes, turns: seq<Turn>): Bytes
    requires Fit(turns, stream)
  {
    if turns == [] then []
    else
      var n := |turns| - 1;
      assert Fit(turns[..n], stream);
      var start := ReadBy(turns[..n]);
      WrittenBy(stream, turns[..n]) + stream[start..start + turns[n].took]
  }

  lemma {:induction false} OneMoreTurn(stream: Bytes, turns: seq<Turn>, turn: Turn)
    requires Fit(turns, stream) && turn.took <= turn.read && ReadBy(turns) + turn.read <= |stream|
    ensures ReadBy(turns + [turn]) == ReadBy(turns) + turn.read && Fit(turns + [turn], stream)
    ensures WrittenBy(stream, turns + [turn]) ==
            WrittenBy(stream, turns) + stream[ReadBy(turns)..ReadBy(turns) + turn.took]
    ensures Whole(turns + [turn]) <==> Whole(turns) && turn.took == turn.read
  {
    var all := turns + [turn];
    assert all[..|turns|] == turns && all[|turns|] == turn;
    assert forall i :: 0 <= i < |turns| ==> all[i] == turns[i];
  }

  lemma {:induction false} NoTurns(stream: Bytes)
    ensures ReadBy([]) == 0 && Fit([], stream) && WrittenBy(stream, []) == [] && Whole([])
  {}

  lemma {:induction false} TakeMore(stream: Bytes, start: nat, n: nat)
    requires start + n <= |stream|
    ensures stream[..start] + stream[start..start + n] == stream[..start + n]
  {}

  lemma {:induction false} WrittenLength(stream: Bytes, turns: seq<Turn>)
    requires Fit(turns, stream)
    ensures |WrittenBy(stream, turns)| <= ReadBy(turns)
    ensures |WrittenBy(stream, turns)| == ReadBy(turns) ==> Whole(turns)
    ensures Whole(turns) ==> WrittenBy(stream, turns) == stream[..ReadBy(turns)]
  {
    if turns != [] {
      var front, last := turns[..|turns| - 1], turns[|turns| - 1];
      assert turns == front + [last] && Fit(front, stream);
      WrittenLength(stream, front);
      OneMoreTurn(stream, front, last);
      hide WrittenBy, Whole, Fit, ReadBy;
      TakeMore(stream, ReadBy(front), last.took);
    }
  }

  /** The copy into the target is exact if and only if every write took its whole chunk. */
  lemma {:induction false} ExactIffWhole(stream: Bytes, turns: seq<Turn>)
    requires Fit(turns, stream)
    ensures WrittenBy(stream, turns) == stream[..ReadBy(turns)] <==> Whole(turns)
  {
    WrittenLength(stream, turns);
  }

  /** The smallest failing input: two bytes arrive, a raw file object takes one of them, and two
      are reported. */
  lemma {:induction false} ShortWriteLosesAByte(a: byte, b: byte)
    ensures var stream, turns := [a, b], [Turn(2, 1)];
            Fit(turns, stream) && ReadBy(turns) == 2 && WrittenBy(stream, turns) == [a]
  {
    var stream, turns := [a, b], [Turn(2, 1)];
    assert turns[..0] == [] && turns == [] + [Turn(2, 1)];
    OneMoreTurn(stream, [], Turn(2, 1));
  }

  lemma {:induction false} SamePrefix(before: Bytes, a: Bytes, b: Bytes)
    ensures before + a == before + b <==> a == b
  {
    assert (before + a)[|before|..] == a && (before + b)[|before|..] == b;
  }

  /** `write(chunk)`: a descriptor is written with the loop over short writes, a file object with
      one call whose count nobody looks at. */
  method WriteChunk(dst: Sink, isFd: bool, chunk: Bytes) returns (ghost took: nat)
    modifies dst
    ensures took <= |chunk| && dst.written == old(dst.written) + chunk[..took]
    ensures isFd || dst.buffered ==> took == |chunk|
  {
    took := |chunk|;
    assert chunk[..took] == chunk;
    if isFd {
      WriteAll(dst, chunk);
    } else {
      took := dst.WriteObject(chunk);
    }
  }

  /** The buffered copy. */
  method CopyChunks(src: Source, dst: Sink, isFd: bool, count: int) returns (got: nat, ghost turns: seq<Turn>)
    modifies src, dst
    ensures got == Taken(count, old(|src.stream|)) && src.stream == old(src.stream)[got..]
    ensures Fit(turns, old(src.stream)) && ReadBy(turns) == got
    ensures dst.written == old(dst.written) + WrittenBy(old(src.stream), turns)
    ensures isFd || dst.buffered ==> Whole(turns)
    ensures forall i :: 0 <= i < |turns| ==> 1 <= turns[i].read <= CHUNK
  {
    ghost var stream, before := src.stream, dst.written;
    turns := [];
    got := 0;
    NoTurns(stream);
    assert before + [] == before;
    hide ReadBy, Fit, WrittenBy, Whole;
    while got < count
      invariant got <= count || got == 0
      invariant got <= |stream| && src.stream == stream[got..]
      invariant Fit(turns, stream) && ReadBy(turns) == got
      invariant dst.written == before + WrittenBy(stream, turns)
      invariant isFd || dst.buffered ==> Whole(turns)
      invariant forall i :: 0 <= i < |turns| ==> 1 <= turns[i].read <= CHUNK
      decreases count - got
    {
      var chunk := src.Read(if count - got < CHUNK then count - got else CHUNK);
      if chunk == [] {
        break;
      }
      ghost var took := WriteChunk(dst, isFd, chunk);
      OneMoreChunk(stream, before, turns, got, chunk, src.stream, took);
      turns := turns + [Turn(|chunk|, took)];
      got := got + |chunk|;
    }
  }

  lemma {:induction false} NextChunk(stream: Bytes, got: nat, chunk: Bytes, rest: Bytes, took: nat)
    requires got <= |stream| && stream[got..] == chunk + rest && took <= |chunk|
    ensures got + |chunk| <= |stream| && stream[got + |chunk|..] == rest
    ensures stream[got..got + took] == chunk[..took]
  {
    assert stream[got..][|chunk|..] == rest && stream[got..][..took] == chunk[..took];
  }

  lemma {:induction false} OneMoreChunk(
    stream: Bytes, before: Bytes, turns: seq<Turn>, got: nat, chunk: Bytes, rest: Bytes, took: nat)
    requires Fit(turns, stream) && ReadBy(turns) == got <= |stream| && stream[got..] == chunk + rest && took <= |chunk|
    ensures got + |chunk| <= |stream| && stream[got + |chunk|..] == rest
    ensures var all := turns + [Turn(|chunk|, took)];
            && Fit(all, stream) && ReadBy(all) == got + |chunk|
            && (before + WrittenBy(stream, turns)) + chunk[..took] == before + WrittenBy(stream, all)
            && (Whole(all) <==> Whole(turns) && took == |chunk|)
  {
    NextChunk(stream, got, chunk, rest, took);
    OneMoreTurn(stream, turns, Turn(|chunk|, took));
    hide ReadBy, Fit, WrittenBy, Whole;
    Regroup(before, WrittenBy(stream, turns), chunk[..took]);
  }

  lemma {:induction false} Regroup(a: Bytes, b: Bytes, c: Bytes)
    ensures (a + b) + c == a + (b + c)
  {}

  /** `FileTransfer.recvfile`: the splice path for a descriptor, else a buffered copy in `turns`.
      It raises if and only if a splice call fails that is not the first one. */
  method RecvFile(kernel: Kernel, src: Source, dst: Sink, isFd: bool, count: int)
    returns (r: Outcome, ghost made: seq<Call>, ghost turns: seq<Turn>)
    modifies kernel, src, dst
    ensures kernel.calls == old(kernel.calls) + made && (!isFd || !kernel.hasSplice ==> made == [])
    ensures !r.Refused? && (r.Raised? <==> Broke(made))
    ensures r.Moved? ==>
              && r.n == Taken(count, old(|src.stream|)) && src.stream == old(src.stream)[r.n..]
              && (r.n < count ==> src.stream == [])
    ensures r.Moved? && (isFd || dst.buffered) ==> Transferred(src, dst, r.n)
    ensures r.Moved? && !isFd ==>
              && Fit(turns, old(src.stream)) && ReadBy(turns) == r.n
              && (forall i :: 0 <= i < |turns| ==> 1 <= turns[i].read <= CHUNK)
              && dst.written == old(dst.written) + WrittenBy(old(src.stream), turns)
              && (Transferred(src, dst, r.n) <==> Whole(turns))
    ensures r.Raised? ==>
              && isFd && Passed(src, dst, TakenIn(made), GivenOut(made))
              && TakenIn(made) <= Taken(count, old(|src.stream|))
  {
    hide ReadBy, Fit, WrittenBy, Whole, TakenIn, GivenOut, Clean;
    made := [];
    if isFd {
      var moved;
      moved, made := SpliceSocketToFd(kernel, src, dst, count);
      if !moved.Refused? {
        return moved, made, [];
      }
    }
    ghost var stream, before := old(src.stream), old(dst.written);
    NothingPassed(made);
    assert src.stream == stream && dst.written == before;
    var got;
    got, turns := CopyChunks(src, dst, isFd, count);
    ExactIffWhole(stream, turns);
    SamePrefix(before, WrittenBy(stream, turns), stream[..got]);
    r := Moved(got);
  }

  /** `os.sendfile`: nothing at the end of the file or once the peer is gone. */
  method OsSendFile(dst: Sink, file: Bytes, pos: nat, max: nat, open: bool) returns (n: nat)
    requires max > 0
    modifies dst
    ensures n <= max && (n > 0 ==> pos + n <= |file|)
    ensures open && pos < |file| ==> n > 0
    ensures n == 0 ==> dst.written == old(dst.written)
    ensures n > 0 ==> dst.written == old(dst.written) + file[pos..pos + n]
  {
    var gone: bool := *;
    if pos >= |file| || (gone && !open) {
      return 0;
    }
    n :| 1 <= n <= max && pos + n <= |file|;
    dst.written := dst.written + file[pos..pos + n];
  }

  /** `FileTransfer.sendfile`; a missing `count` is the rest of the file. */
  method SendFile(dst: Sink, file: Bytes, offset: nat, given: bool, count: int, open: bool) returns (sent: nat)
    modifies dst
    ensures var want := if given then count else |file| - offset;
            && (sent > 0 ==> sent <= want && offset + sent <= |file|)
            && (open && offset <= |file| ==> sent == Taken(want, |file| - offset))
    ensures sent == 0 ==> dst.written == old(dst.written)
    ensures sent > 0 ==> dst.written == old(dst.written) + file[offset..offset + sent]
  {
    var want := if given then count else |file| - offset;
    sent := 0;
    while sent < want
      invariant sent > 0 ==> sent <= want && offset + sent <= |file|
      invariant sent == 0 ==> dst.written == old(dst.written)
      invariant sent > 0 ==> dst.written == old(dst.written) + file[offset..offset + sent]
      decreases want - sent
    {
      var n := OsSendFile(dst, file, offset + sent, want - sent, open);
      if n == 0 {
        break;
      }
      assert file[offset..offset + sent + n] == file[offset..offset + sent] + file[offset + sent..offset + sent + n];
      sent := sent + n;
    }
  }
}
