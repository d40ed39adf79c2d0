/**
 * `Josh.iocopy`: the pump that moves bytes from one stream to another, its two
 * short-circuits for closed streams, and the copy loop its worker thread runs. The thread
 * is not modelled: its body runs to completion inside the call, as `start()`'s future
 * waits for it before it completes.
 */
module Pump {
  import opened Bytes
  import opened Records
  import opened Streams
  import opened Opts

  /** The objects whose state a read or close of `src` may change. */
  function InRepr(src: Input): set<object>
  {
    match src
    case StdIn => {}
    case PassIn(t) => {t}
    case LiteralIn(b) => {b}
    case StringerIn(s) => {s}
    case ClosedIn(_) => {}
    case MagicIn(_) => {}
    case PipeIn(p) => {p}
  }

  /** The objects whose state a write or close of `dst` may change. */
  function OutRepr(dst: Output): set<object>
  {
    match dst
    case StringerOut(o) => {o, o.sink}
    case PassOut(t) => {t}
    case PipeOut(p) => {p}
    case _ => {}
  }

  /** The bytes that reads of `src` will still deliver, in order. */
  ghost function Pending(src: Input): Bytes
    reads InRepr(src)
  {
    match src
    case PassIn(t) => t.remaining
    case LiteralIn(b) => b.remaining
    case PipeIn(p) => p.remaining
    case StringerIn(s) => s.Pending()
    case _ => []
  }

  /** Decreases with every read that does not report end of stream. */
  ghost function Measure(src: Input): nat
    reads InRepr(src)
  {
    match src
    case PassIn(t) => |t.remaining|
    case LiteralIn(b) => |b.remaining|
    case PipeIn(p) => |p.remaining|
    case StringerIn(s) => s.Size()
    case _ => 0
  }

  /** Sinks that keep what they accept: a line collector, the terminal, a pipe. */
  predicate Keeps(dst: Output)
  {
    dst.StringerOut? || dst.PassOut? || dst.PipeOut?
  }

  /** The bytes `dst` has accepted: for a collector, its records then its buffer. */
  ghost function Received(dst: Output): (r: Bytes)
    reads OutRepr(dst)
    ensures !Keeps(dst) ==> r == []
  {
    match dst
    case StringerOut(o) => Concat(o.sink.records) + o.buffer
    case PassOut(t) => t.shown
    case PipeOut(p) => p.written
    case _ => []
  }

  /** A line collector's records and buffer; nothing for any other sink. */
  ghost function Lines(dst: Output): Collected
    reads OutRepr(dst)
  {
    match dst
    case StringerOut(o) => Collected(o.sink.records, o.buffer)
    case _ => Collected([], [])
  }

  /** `l0` followed by `data` as the collector behind `dst` takes them. */
  ghost function Collects(dst: Output, l0: Collected, data: Bytes): Collected
    requires dst.StringerOut?
  {
    Collect(l0, data, dst.stringer.breakOnFlush, dst.stringer.breakByte)
  }

  /**
   * How many more bytes `dst` takes before its writes fail: none for a closed stream or a
   * closed pipe, the pipe's own room for an open pipe, no limit (`None`) for the rest.
   */
  ghost function Room(dst: Output): Option<nat>
    reads OutRepr(dst)
  {
    match dst
    case ClosedOut(_) => Some(0)
    case PipeOut(p) => if p.closed then Some(0) else p.room
    case _ => None
  }

  /** Whether the file descriptor behind a pipe has been closed. */
  ghost predicate PipeClosedIn(src: Input)
    reads InRepr(src)
  {
    src.PipeIn? && src.pipe.closed
  }

  ghost predicate PipeClosedOut(dst: Output)
    reads OutRepr(dst)
  {
    dst.PipeOut? && dst.pipe.closed
  }

  /** What `out.close()` has done once it returns. */
  ghost predicate ClosedDone(dst: Output)
    reads OutRepr(dst)
  {
    && (dst.PipeOut? ==> dst.pipe.closed)
    && (dst.StringerOut? ==> dst.stringer.buffer == [])
  }

  /** `read(buf)` on a byte array stream, a pipe or the terminal. */
  method ReadBytes(t: ByteSource, buf: array<byte>) returns (k: int)
    modifies t, buf
    ensures t.closed == old(t.closed)
    ensures -1 <= k <= buf.Length
    ensures k == -1 ==> old(t.remaining) == [] && t.remaining == []
    ensures k != -1 ==> buf[..k] + t.remaining == old(t.remaining)
    ensures k != -1 && buf.Length > 0 ==> |t.remaining| < old(|t.remaining|)
  {
    var r := t.Read(buf, 0, buf.Length);
    k := r.value;
    if k != -1 {
      assert buf[..k] == buf[0..k];
      assert old(t.remaining) == old(t.remaining)[..k] + old(t.remaining)[k..];
    }
  }

  /** `read(buf)` on an InputStringer, in terms of its pending bytes. */
  method ReadStringer(s: InputStringer, buf: array<byte>) returns (k: int)
    modifies s, buf
    ensures -1 <= k <= buf.Length
    ensures k == -1 ==> old(s.Pending()) == [] && s.buffer == [] && s.source == []
    ensures k == -1 ==> s.buffer == old(s.buffer) && s.source == old(s.source)
    ensures k != -1 ==> buf[..k] + s.Pending() == old(s.Pending())
    ensures k != -1 && buf.Length > 0 ==> s.Size() < old(s.Size())
  {
    PumpKeepsPending(s.buffer, s.source);
    ghost var chunk := Current(s.buffer, s.source);
    ghost var rest := AfterPump(s.buffer, s.source);
    if s.buffer == [] && s.source != [] {
      assert Concat(s.source) == s.source[0] + Concat(s.source[1..]);
    }
    var r := s.ReadInto(buf, 0, buf.Length);
    k := r.value;
    if k != -1 {
      assert s.buffer == chunk[k..] && s.source == rest;
      assert buf[..k] == buf[0..k] == chunk[..k];
      assert chunk == chunk[..k] + chunk[k..];
    }
  }

  /** `in.read(buf)`, dispatched on the stream's class. */
  method ReadChunk(src: Input, buf: array<byte>) returns (k: int)
    requires !src.StdIn?
    requires buf !in InRepr(src)
    modifies InRepr(src), buf
    ensures PipeClosedIn(src) == old(PipeClosedIn(src))
    ensures -1 <= k <= buf.Length
    ensures k == -1 ==> old(Pending(src)) == [] && Pending(src) == [] && Measure(src) == old(Measure(src))
    ensures k != -1 ==> buf[..k] + Pending(src) == old(Pending(src))
    ensures k != -1 && buf.Length > 0 ==> Measure(src) < old(Measure(src))
  {
    match src
    case PassIn(t) =>
      k := ReadBytes(t, buf);
    case LiteralIn(b) =>
      k := ReadBytes(b, buf);
    case PipeIn(p) =>
      k := ReadBytes(p, buf);
    case StringerIn(s) =>
      k := ReadStringer(s, buf);
    case ClosedIn(c) =>
      k := c.ReadInto(buf, 0, buf.Length);
    case MagicIn(m) =>
      k := m.ReadInto(buf, 0, buf.Length);
  }

  /** `write(buf, 0, k)` on a line collector, in terms of the bytes it has accepted. */
  method WriteStringer(o: OutputStringer, buf: array<byte>, k: int)
    requires 0 <= k <= buf.Length
    modifies o, o.sink
    ensures Concat(o.sink.records) + o.buffer == old(Concat(o.sink.records) + o.buffer) + buf[..k]
    ensures Collected(o.sink.records, o.buffer) ==
      Collect(old(Collected(o.sink.records, o.buffer)), buf[..k], o.breakOnFlush, o.breakByte)
  {
    ghost var records0, buffer0 := o.sink.records, o.buffer;
    var r := o.Write(buf, 0, k);
    assert r.Ok?;
    assert buf[0..k] == buf[..k];
    if !o.breakOnFlush {
      var c := Split(buffer0, buf[..k], o.breakByte);
      SplitConserves(buffer0, buf[..k], o.breakByte);
      ConcatJoin(records0, c.records);
      assert o.sink.records == records0 + c.records && o.buffer == c.rest;
      calc {
        Concat(o.sink.records) + o.buffer;
        Concat(records0) + (Concat(c.records) + c.rest);
        Concat(records0) + (buffer0 + buf[..k]);
      }
    }
  }

  /** `out.write(buf, 0, k)`, dispatched on the stream's class; false when it throws. */
  method WriteChunk(dst: Output, buf: array<byte>, k: int) returns (ok: bool)
    requires !dst.StdOut? && !dst.StdErr?
    requires 0 <= k <= buf.Length
    modifies OutRepr(dst)
    ensures PipeClosedOut(dst) == old(PipeClosedOut(dst))
    ensures ok <==> !dst.ClosedOut? && Fits(old(Room(dst)), k)
    ensures Room(dst) == After(old(Room(dst)), k)
    ensures Keeps(dst) ==> Received(dst) == old(Received(dst)) + buf[..Taken(old(Room(dst)), k)]
    ensures dst.StringerOut? ==> Lines(dst) == Collects(dst, old(Lines(dst)), buf[..k])
  {
    match dst
    case StringerOut(o) =>
      WriteStringer(o, buf, k);
      ok := true;
    case PassOut(t) =>
      var r := t.Write(buf, 0, k);
      ok := r.Ok?;
      assert buf[0..k] == buf[..k];
    case PipeOut(p) =>
      var r := p.Write(buf, 0, k);
      ok := r.Ok?;
      assert buf[0..Taken(old(Room(dst)), k)] == buf[..Taken(old(Room(dst)), k)];
    case NullOut(n) =>
      var r := n.Write(buf, 0, k);
      ok := r.Ok?;
    case MagicOut(m) =>
      var r := m.Write(buf, 0, k);
      ok := r.Ok?;
    case ClosedOut(c) =>
      var r := c.Write(buf, 0, k);
      ok := r.Ok?;
  }

  /** `in.close()`: only a pipe is closed; every other stream ignores it. */
  method CloseInput(src: Input)
    modifies InRepr(src)
    ensures Pending(src) == old(Pending(src))
    ensures PipeClosedIn(src) <==> src.PipeIn?
  {
    match src
    case PipeIn(p) => p.Close();
    case _ =>
  }

  /**
   * `out.close()`: a pipe is closed, a line collector emits its residue, the wrappers of
   * the terminal and the stubs ignore it. Nothing accepted is lost.
   */
  method CloseOutput(dst: Output)
    modifies OutRepr(dst)
    ensures Received(dst) == old(Received(dst))
    ensures Room(dst) == if dst.PipeOut? then Some(0) else old(Room(dst))
    ensures ClosedDone(dst)
    ensures dst.StringerOut? ==>
      dst.stringer.sink.records == if old(dst.stringer.buffer) == [] then old(dst.stringer.sink.records)
                                   else old(dst.stringer.sink.records) + [old(dst.stringer.buffer)]
  {
    match dst
    case PipeOut(p) => p.Close();
    case StringerOut(o) =>
      ghost var records0, buffer0 := o.sink.records, o.buffer;
      o.Close();
      ConcatAppend(records0, buffer0);
    case ClosedOut(c) =>
      var _ := c.Close();
    case NullOut(n) =>
      var _ := n.Close();
    case _ =>
  }

  /**
   * What the sink has taken so far: `written` has gone in, so the room it had at the start,
   * `room0`, has shrunk by that much, a sink that keeps bytes holds `r0` followed by
   * `written`, and a line collector that held `l0` has taken `written` as its lines.
   */
  ghost predicate Progress(dst: Output, r0: Bytes, room0: Option<nat>, l0: Collected, written: Bytes)
    reads OutRepr(dst)
  {
    && Fits(room0, |written|)
    && Room(dst) == After(room0, |written|)
    && (Keeps(dst) ==> Received(dst) == r0 + written)
    && (dst.StringerOut? ==> Lines(dst) == Collects(dst, l0, written))
  }

  /**
   * The copier's progress: `written` has gone to the sink, `buf[..k]` is in hand (none once
   * `k` is -1, end of stream), and together with what the source still holds they make up
   * `p0`, the source's bytes when the copier started.
   */
  ghost predicate Copied(src: Input, dst: Output, buf: array<byte>, k: int,
                         p0: Bytes, r0: Bytes, room0: Option<nat>, l0: Collected, written: Bytes)
    reads InRepr(src), OutRepr(dst), buf
  {
    && -1 <= k <= buf.Length
    && (k == -1 ==> written == p0 && Pending(src) == [])
    && (k != -1 ==> written + buf[..k] + Pending(src) == p0)
    && Progress(dst, r0, room0, l0, written)
  }

  /** The copier between a write and the next read: `written` and the source's bytes make up `p0`. */
  ghost predicate Delivered(src: Input, dst: Output,
                            p0: Bytes, r0: Bytes, room0: Option<nat>, l0: Collected, written: Bytes)
    reads InRepr(src), OutRepr(dst)
  {
    && written + Pending(src) == p0
    && Progress(dst, r0, room0, l0, written)
  }

  /**
   * How a copy of `p0` into a sink that held `r0` and had `room0` left ends: it runs to end
   * of stream exactly when all of `p0` fits, and then the sink holds `r0` and all of `p0`;
   * otherwise the sink is a pipe whose reader went away, and it holds `r0` and as much of
   * `p0` as there was room for, while the source keeps only a tail of `p0` that starts after
   * the room: the bytes of the failing chunk beyond the room are lost from both. A line
   * collector that held `l0` has taken `p0` as its lines once the copy runs to the end.
   */
  ghost predicate Finished(src: Input, dst: Output, ok: bool,
                           p0: Bytes, r0: Bytes, room0: Option<nat>, l0: Collected)
    reads InRepr(src), OutRepr(dst)
  {
    && (ok <==> Fits(room0, |p0|))
    && (ok ==> Pending(src) == [] && (Keeps(dst) ==> Received(dst) == r0 + p0))
    && (ok && dst.StringerOut? ==> Lines(dst) == Collects(dst, l0, p0))
    && (!ok ==>
          && dst.PipeOut? && room0.Some? && room0.value < |p0|
          && Received(dst) == r0 + p0[..room0.value]
          && room0.value < |p0| - |Pending(src)|
          && Pending(src) == p0[|p0| - |Pending(src)|..])
  }

  /** Room arithmetic for a write of `k` bytes after `w` bytes have gone in. */
  lemma RoomStep(room0: Option<nat>, w: nat, k: nat)
    requires Fits(room0, w)
    ensures Fits(After(room0, w), k) <==> Fits(room0, w + k)
    ensures Fits(room0, w + k) ==> After(After(room0, w), k) == After(room0, w + k)
    ensures !Fits(room0, w + k) ==> room0.Some? && w + Taken(After(room0, w), k) == room0.value
  {
  }

  /**
   * `out.write(buf, 0, k)` once `written` has gone in: the sink takes the chunk, or, when it
   * has no room for all of it, as much as fits and then throws.
   */
  method Offer(dst: Output, buf: array<byte>, k: int,
               ghost r0: Bytes, ghost room0: Option<nat>, ghost l0: Collected, ghost written: Bytes)
    returns (ok: bool, ghost written': Bytes)
    requires !dst.StdOut? && !dst.StdErr? && !dst.ClosedOut?
    requires 0 <= k <= buf.Length && buf !in OutRepr(dst)
    requires Progress(dst, r0, room0, l0, written)
    modifies OutRepr(dst)
    ensures PipeClosedOut(dst) == old(PipeClosedOut(dst))
    ensures Progress(dst, r0, room0, l0, written')
    ensures ok <==> Fits(room0, |written| + k)
    ensures written' == written + buf[..Taken(After(room0, |written|), k)]
    ensures !ok ==> dst.PipeOut?
  {
    ghost var room := Room(dst);
    RoomStep(room0, |written|, k);
    ok := WriteChunk(dst, buf, k);
    written' := written + buf[..Taken(room, k)];
    assert Keeps(dst) ==> Received(dst) == r0 + written' by {
      assert (r0 + written) + buf[..Taken(room, k)] == r0 + (written + buf[..Taken(room, k)]);
    }
    if dst.StringerOut? {
      CollectJoin(l0, written, buf[..k], dst.stringer.breakOnFlush, dst.stringer.breakByte);
    }
  }

  /** Where the bytes of `p0` stand after a write of `chunk` that took its first `t` bytes. */
  lemma Cut(p0: Bytes, written: Bytes, chunk: Bytes, rest: Bytes, room0: Option<nat>, t: nat)
    requires written + chunk + rest == p0
    requires Fits(room0, |written|) && t == Taken(After(room0, |written|), |chunk|)
    ensures Fits(room0, |written| + |chunk|) ==> written + chunk[..t] + rest == p0
    ensures !Fits(room0, |written| + |chunk|) ==>
      room0.Some? && room0.value < |p0| && written + chunk[..t] == p0[..room0.value]
  {
    RoomStep(room0, |written|, |chunk|);
    if Fits(room0, |written| + |chunk|) {
      assert chunk[..t] == chunk;
    } else {
      assert p0 == (written + chunk[..t]) + (chunk[t..] + rest) by {
        assert chunk == chunk[..t] + chunk[t..];
      }
    }
  }

  /**
   * The write half of a round: `out.write(buf, 0, k)`. When it throws, the sink is a pipe
   * whose reader went away: it took exactly its room, a proper prefix of `p0`.
   */
  method WriteStep(src: Input, dst: Output, buf: array<byte>, k: int,
                   ghost p0: Bytes, ghost r0: Bytes, ghost room0: Option<nat>, ghost l0: Collected,
                   ghost written: Bytes)
    returns (ok: bool, ghost written': Bytes)
    requires !dst.StdOut? && !dst.StdErr? && !dst.ClosedOut?
    requires InRepr(src) !! OutRepr(dst) && buf !in OutRepr(dst)
    requires k != -1 && Copied(src, dst, buf, k, p0, r0, room0, l0, written)
    modifies OutRepr(dst)
    ensures PipeClosedOut(dst) == old(PipeClosedOut(dst))
    ensures PipeClosedIn(src) == old(PipeClosedIn(src)) && Measure(src) == old(Measure(src))
    ensures ok ==> Delivered(src, dst, p0, r0, room0, l0, written')
    ensures !ok ==> Finished(src, dst, false, p0, r0, room0, l0)
  {
    ghost var chunk, rest := buf[..k], Pending(src);
    ok, written' := Offer(dst, buf, k, r0, room0, l0, written);
    Cut(p0, written, chunk, rest, room0, Taken(After(room0, |written|), k));
    assert p0 == (written + chunk) + rest;
  }

  /** The read half of a round: `k = in.read(buf)`. */
  method ReadStep(src: Input, dst: Output, buf: array<byte>,
                  ghost p0: Bytes, ghost r0: Bytes, ghost room0: Option<nat>, ghost l0: Collected,
                  ghost written: Bytes)
    returns (k: int)
    requires !src.StdIn?
    requires InRepr(src) !! OutRepr(dst) && buf !in InRepr(src) && buf !in OutRepr(dst)
    requires 0 < buf.Length && Delivered(src, dst, p0, r0, room0, l0, written)
    modifies InRepr(src), buf
    ensures PipeClosedIn(src) == old(PipeClosedIn(src)) && PipeClosedOut(dst) == old(PipeClosedOut(dst))
    ensures Copied(src, dst, buf, k, p0, r0, room0, l0, written)
    ensures k == -1 ==> Finished(src, dst, true, p0, r0, room0, l0)
    ensures Measure(src) + (if k == -1 then 0 else 1) <= old(Measure(src))
  {
    ghost var pending := Pending(src);
    k := ReadChunk(src, buf);
    if k != -1 {
      ghost var got := buf[..k];
      assert got + Pending(src) == pending;
      assert written + got + Pending(src) == written + (got + Pending(src));
    }
  }

  /**
   * The copier's loop: read 8 KiB chunks until end of stream, writing each one; false as
   * soon as a write throws, which happens exactly when the sink has no room for all the
   * source's bytes.
   */
  method CopyLoop(src: Input, dst: Output) returns (ok: bool)
    requires !src.StdIn? && !dst.StdOut? && !dst.StdErr? && !dst.ClosedOut?
    requires InRepr(src) !! OutRepr(dst)
    modifies InRepr(src), OutRepr(dst)
    ensures PipeClosedOut(dst) == old(PipeClosedOut(dst)) && PipeClosedIn(src) == old(PipeClosedIn(src))
    ensures Finished(src, dst, ok, old(Pending(src)), old(Received(dst)), old(Room(dst)), old(Lines(dst)))
  {
    ghost var p0, r0, room0, l0 := Pending(src), Received(dst), Room(dst), Lines(dst);
    ghost var written: Bytes := [];
    var buf := new byte[1024 * 8];
    var k := ReadStep(src, dst, buf, p0, r0, room0, l0, written);
    while k != -1
      invariant buf !in InRepr(src) && buf !in OutRepr(dst)
      invariant Copied(src, dst, buf, k, p0, r0, room0, l0, written)
      invariant k == -1 ==> Finished(src, dst, true, p0, r0, room0, l0)
      invariant PipeClosedOut(dst) == old(PipeClosedOut(dst)) && PipeClosedIn(src) == old(PipeClosedIn(src))
      decreases Measure(src) + (if k == -1 then 0 else 1)
    {
      ok, written := WriteStep(src, dst, buf, k, p0, r0, room0, l0, written);
      if !ok {
        return false;
      }
      k := ReadStep(src, dst, buf, p0, r0, room0, l0, written);
    }
    return true;
  }

  /** What became of the copier: never started, ran to end of stream, or stopped on a throw. */
  datatype Run = NotStarted | Drained | Aborted

  /**
   * `iocopy(in, out)`. A `ClosedOutputStream` sink wins: the source is closed and no copier
   * runs. Otherwise a `ClosedInputStream` source closes the sink, and no copier runs.
   * Otherwise the copier reads 8 KiB chunks until end of stream, writing each to the sink,
   * and closes the sink; if a write throws (a pipe whose reader went away after taking
   * part of the input) it closes both and stops, and the bytes not yet copied are lost.
   */
  method IoCopy(src: Input, dst: Output) returns (run: Run)
    requires !src.StdIn? && !dst.StdOut? && !dst.StdErr?
    requires InRepr(src) !! OutRepr(dst)
    modifies InRepr(src), OutRepr(dst)
    ensures dst.ClosedOut? ==>
      run == NotStarted && PipeClosedIn(src) == src.PipeIn? && Pending(src) == old(Pending(src))
    ensures !dst.ClosedOut? && src.ClosedIn? ==>
      run == NotStarted && ClosedDone(dst) && Received(dst) == old(Received(dst))
    ensures !dst.ClosedOut? && !src.ClosedIn? ==>
      run != NotStarted && (run == Drained <==> Fits(old(Room(dst)), |old(Pending(src))|))
    ensures run == Drained ==>
      && Pending(src) == []
      && (Keeps(dst) ==> Received(dst) == old(Received(dst)) + old(Pending(src)))
      && ClosedDone(dst)
      && PipeClosedIn(src) == old(PipeClosedIn(src))
      && (dst.StringerOut? ==>
            var c := Collects(dst, old(Lines(dst)), old(Pending(src)));
            dst.stringer.sink.records == c.records + (if c.rest == [] then [] else [c.rest]))
    ensures run == Aborted ==>
      && dst.PipeOut? && old(Room(dst)).Some? && old(Room(dst)).value < |old(Pending(src))|
      && Received(dst) == old(Received(dst)) + old(Pending(src))[..old(Room(dst)).value]
      && old(Room(dst)).value < |old(Pending(src))| - |Pending(src)|
      && Pending(src) == old(Pending(src))[|old(Pending(src))| - |Pending(src)|..]
      && PipeClosedIn(src) == src.PipeIn?
      && ClosedDone(dst)
  {
    if dst.ClosedOut? {
      CloseInput(src);
      return NotStarted;
    }
    if src.ClosedIn? {
      CloseOutput(dst);
      return NotStarted;
    }
    var ok := CopyLoop(src, dst);
    if !ok {
      CloseInput(src);
      CloseOutput(dst);
      return Aborted;
    }
    CloseOutput(dst);
    return Drained;
  }

  /**
   * A child that reads one byte of a three-byte `in(byte[])` and closes its stdin: the first
   * write throws "Broken pipe" after the pipe took that byte. The copier had already taken
   * that chunk out of the source, so the source keeps at most the last byte, and what it
   * took beyond the pipe's room is lost.
   */
  method ChildStopsReading() returns (run: Run, delivered: Bytes, left: Bytes)
    ensures run == Aborted && delivered == [1]
    ensures |left| < 2 && left == [2, 3][2 - |left|..]
  {
    var literal := new ByteSource([1, 2, 3]);
    var pipe := new ByteSink(Some(1));
    run := IoCopy(LiteralIn(literal), PipeOut(pipe));
    delivered := pipe.written;
    left := literal.remaining;
  }

  /**
   * A child that prints "A\nB" to a fresh `out(Collection<String>)`: the copy drains the
   * pipe, the first line comes out at its break byte and the unterminated rest as the last
   * record when the collector is closed.
   */
  method ChildPrintsTwoLines() returns (run: Run, records: seq<Bytes>)
    ensures run == Drained && records == [[65, 10], [66]]
  {
    var child := new ByteSource([65, 10, 66]);
    var sink := new RecordList();
    var o := new OutputStringer(sink);
    run := IoCopy(PipeIn(child), StringerOut(o));
    records := sink.records;
    ghost var a, ab, abc: Bytes := [65], [65, 10], [65, 10, 66];
    assert abc[..2] == ab && ab[..1] == a && a[..0] == [] && a + [10] == ab;
    assert Split([], a, 10) == Collected([], a);
    assert Split([], ab, 10) == Collected([ab], []);
    assert Split([], abc, 10) == Collected([ab], [66]);
  }
}
