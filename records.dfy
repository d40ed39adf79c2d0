/**
 * The line collector of OutputStringer as a function on values: bytes go into a pending
 * buffer, and each break byte closes the buffer into a record that keeps the break byte.
 */
module Records {
  import opened Bytes

  /** The records emitted by a run of the collector, and the bytes still pending. */
  datatype Collected = Collected(records: seq<Bytes>, rest: Bytes)

  /** A record as the collector emits it: non-empty, ends with `brk`, no `brk` before that. */
  ghost predicate IsLine(r: Bytes, brk: byte)
  {
    |r| > 0 && r[|r| - 1] == brk && brk !in r[..|r| - 1]
  }

  /** Every record in `rs` ends with the break byte. */
  ghost predicate AllEndWith(rs: seq<Bytes>, brk: byte)
  {
    forall i :: 0 <= i < |rs| ==> |rs[i]| > 0 && rs[i][|rs[i]| - 1] == brk
  }

  /** One byte through the collector: append it, emit the buffer when it is the break byte. */
  function Step(c: Collected, x: byte, brk: byte): Collected
  {
    if x == brk then Collected(c.records + [c.rest + [x]], [])
    else Collected(c.records, c.rest + [x])
  }

  /**
   * Feeding `data` byte by byte, in order, to a collector whose buffer holds `pending`:
   * the records it emits and the buffer it leaves.
   */
  function Split(pending: Bytes, data: Bytes, brk: byte): Collected
    decreases |data|
  {
    if data == [] then Collected([], pending)
    else Step(Split(pending, data[..|data| - 1], brk), data[|data| - 1], brk)
  }

  /** No byte is lost, duplicated or reordered: records then buffer spell pending then data. */
  lemma {:induction false} SplitConserves(pending: Bytes, data: Bytes, brk: byte)
    ensures var c := Split(pending, data, brk); Concat(c.records) + c.rest == pending + data
  {
    if data != [] {
      var init := data[..|data| - 1];
      var x := data[|data| - 1];
      var c0 := Split(pending, init, brk);
      SplitConserves(pending, init, brk);
      assert data == init + [x];
      var c := Split(pending, data, brk);
      assert c == Step(c0, x, brk);
      if x == brk {
        ConcatAppend(c0.records, c0.rest + [x]);
        assert Concat(c.records) + c.rest == Concat(c0.records) + c0.rest + [x];
      } else {
        assert Concat(c.records) + c.rest == Concat(c0.records) + (c0.rest + [x]);
      }
      assert pending + data == (pending + init) + [x];
    }
  }

  /** Every emitted record ends with the break byte, which is kept. */
  lemma {:induction false} SplitRecordsEndWithBreak(pending: Bytes, data: Bytes, brk: byte)
    ensures AllEndWith(Split(pending, data, brk).records, brk)
  {
    if data != [] {
      var c0 := Split(pending, data[..|data| - 1], brk);
      var x := data[|data| - 1];
      SplitRecordsEndWithBreak(pending, data[..|data| - 1], brk);
      assert Split(pending, data, brk) == Step(c0, x, brk);
      if x == brk {
        var rs := c0.records + [c0.rest + [x]];
        forall i | 0 <= i < |rs| ensures |rs[i]| > 0 && rs[i][|rs[i]| - 1] == brk {
          if i < |c0.records| {
            assert rs[i] == c0.records[i];
          } else {
            assert rs[i] == c0.rest + [x];
          }
        }
      }
    }
  }

  /**
   * When the buffer starts free of break bytes, every record is a line (the break byte occurs
   * only at its end) and the buffer left behind holds no break byte.
   */
  lemma {:induction false} SplitRecordsAreLines(pending: Bytes, data: Bytes, brk: byte)
    requires brk !in pending
    ensures var c := Split(pending, data, brk);
      (forall i :: 0 <= i < |c.records| ==> IsLine(c.records[i], brk)) && brk !in c.rest
  {
    if data != [] {
      var init := data[..|data| - 1];
      var x := data[|data| - 1];
      var c0 := Split(pending, init, brk);
      SplitRecordsAreLines(pending, init, brk);
      if x == brk {
        var r := c0.rest + [x];
        assert r[..|r| - 1] == c0.rest;
      }
    }
  }

  /**
   * Writing `a` and then `b` emits the same records and leaves the same buffer as writing
   * `a + b` at once: how the input is cut into chunks does not matter.
   */
  lemma {:induction false} SplitJoin(pending: Bytes, a: Bytes, b: Bytes, brk: byte)
    ensures var ca := Split(pending, a, brk);
      var cb := Split(ca.rest, b, brk);
      Split(pending, a + b, brk) == Collected(ca.records + cb.records, cb.rest)
  {
    var ca := Split(pending, a, brk);
    if b == [] {
      assert a + b == a;
    } else {
      var init := b[..|b| - 1];
      var x := b[|b| - 1];
      SplitJoin(pending, a, init, brk);
      assert (a + b)[..|a + b| - 1] == a + init;
      assert (a + b)[|a + b| - 1] == x;
      var cb0 := Split(ca.rest, init, brk);
      if x == brk {
        assert ca.records + cb0.records + [cb0.rest + [x]] == ca.records + (cb0.records + [cb0.rest + [x]]);
      }
    }
  }

  /**
   * A collector that held `c` after `data` is written to it: in flush mode the bytes only
   * join the buffer, otherwise they go through `Split` and its records are added.
   */
  function Collect(c: Collected, data: Bytes, flushMode: bool, brk: byte): Collected
  {
    if flushMode then Collected(c.records, c.rest + data)
    else
      var s := Split(c.rest, data, brk);
      Collected(c.records + s.records, s.rest)
  }

  /** Writing `a` and then `b` leaves a collector as writing `a + b` at once. */
  lemma CollectJoin(c: Collected, a: Bytes, b: Bytes, flushMode: bool, brk: byte)
    ensures Collect(Collect(c, a, flushMode, brk), b, flushMode, brk) == Collect(c, a + b, flushMode, brk)
  {
    if !flushMode {
      var sa := Split(c.rest, a, brk);
      var sb := Split(sa.rest, b, brk);
      SplitJoin(c.rest, a, b, brk);
      assert c.records + sa.records + sb.records == c.records + (sa.records + sb.records);
    }
  }

  /** Complete lines only, and a buffer without a break byte: what a fresh collector holds. */
  ghost predicate InLines(c: Collected, brk: byte)
  {
    (forall i :: 0 <= i < |c.records| ==> IsLine(c.records[i], brk)) && brk !in c.rest
  }

  /** Whatever is written, a collector out of flush mode keeps holding complete lines only. */
  lemma CollectKeepsLines(c: Collected, data: Bytes, brk: byte)
    requires InLines(c, brk)
    ensures InLines(Collect(c, data, false, brk), brk)
  {
    var s := Split(c.rest, data, brk);
    SplitRecordsAreLines(c.rest, data, brk);
    var rs := c.records + s.records;
    forall i | 0 <= i < |rs| ensures IsLine(rs[i], brk) {
      if i < |c.records| {
        assert rs[i] == c.records[i];
      } else {
        assert rs[i] == s.records[i - |c.records|];
      }
    }
  }

  /** A first line fed to a collector with an empty buffer comes out as one record. */
  lemma {:induction false} SplitOneLine(line: Bytes, brk: byte)
    requires IsLine(line, brk)
    ensures Split([], line, brk) == Collected([line], [])
  {
    var body := line[..|line| - 1];
    calc {
      Split([], line, brk);
      Step(Split([], body, brk), brk, brk);
      { SplitNoBreak([], body, brk); assert [] + body == body; }
      Step(Collected([], body), brk, brk);
      Collected([body + [brk]], []);
      { assert body + [brk] == line; }
      Collected([line], []);
    }
  }

  /** Bytes without a break byte only grow the buffer. */
  lemma {:induction false} SplitNoBreak(pending: Bytes, data: Bytes, brk: byte)
    requires brk !in data
    ensures Split(pending, data, brk) == Collected([], pending + data)
  {
    if data != [] {
      var init := data[..|data| - 1];
      assert brk !in init by {
        forall i | 0 <= i < |init| ensures init[i] != brk {
          assert init[i] == data[i];
        }
      }
      SplitNoBreak(pending, init, brk);
      assert data == init + [data[|data| - 1]];
    }
  }

  /**
   * `write(int)` as written: the low eight bits of `b` are buffered, but the break test
   * compares the whole `int` with the sign-extended break byte.
   */
  function StepInt(c: Collected, b: int, brk: byte): Collected
  {
    var x := LowByte(b);
    if b == Signed(brk) then Collected(c.records + [c.rest + [x]], [])
    else Collected(c.records, c.rest + [x])
  }

  /** `write(int)` as intended: the byte actually written decides whether a record ends. */
  function StepIntIntended(c: Collected, b: int, brk: byte): (r: Collected)
    ensures r == Step(c, LowByte(b), brk)
    ensures brk !in c.rest ==> brk !in r.rest
    ensures Concat(r.records) + r.rest == Concat(c.records) + c.rest + [LowByte(b)]
  {
    ConcatAppend(c.records, c.rest + [LowByte(b)]);
    Step(c, LowByte(b), brk)
  }

  /** For byte values in Java's signed range the two agree. */
  lemma StepIntAgreesOnSignedBytes(c: Collected, b: int, brk: byte)
    requires -128 <= b < 128
    ensures StepInt(c, b, brk) == StepIntIntended(c, b, brk)
  {
    assert (b == Signed(brk)) == (LowByte(b) == brk);
  }

  /** With the default break byte `'\n'`, `write(266)` buffers a `'\n'` and emits nothing. */
  lemma StepIntMissesBreakAbove255()
    ensures StepInt(Collected([], []), 266, 10) == Collected([], [10])
    ensures StepIntIntended(Collected([], []), 266, 10) == Collected([[10]], [])
  {
  }

  /** With break byte 0xFF, `write(0xFF)` buffers the break byte and emits nothing. */
  lemma StepIntMissesHighBreakByte()
    ensures StepInt(Collected([], []), 255, 255) == Collected([], [255])
    ensures StepIntIntended(Collected([], []), 255, 255) == Collected([[255]], [])
  {
  }
}
