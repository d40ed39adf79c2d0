/**
 * The stream classes that Opts hands to a command: the string-queue input, the line
 * collector, the closed and null stubs, and the two byte endpoints that stand for a
 * literal input, a process pipe and the terminal.
 */
module Streams {
  import opened Bytes
  import opened Records

  /** `0 <= off`, `0 <= len` and the range `[off, off + len)` lies inside `b`. */
  predicate InBounds(b: array<byte>, off: int, len: int)
  {
    0 <= off && 0 <= len && off + len <= b.Length
  }

  /**
   * A finite source of bytes read front to back: `java.io.ByteArrayInputStream` (what
   * `in(String)` and `in(byte[])` install), the read end of a child's stdout or stderr
   * pipe (its content is what the child writes), and the terminal behind `System.in`.
   */
  class ByteSource {
    /** The bytes not read yet. */
    var remaining: Bytes
    /** Whether `close()` was called; only a pipe acts on it. */
    var closed: bool

    constructor(data: Bytes)
      ensures remaining == data && !closed
    {
      remaining := data;
      closed := false;
    }

    /** `read(b, off, len)`: bounds first, then end of data, then at most `len` bytes. */
    method Read(b: array<byte>, off: int, len: int) returns (r: Result<int>)
      modifies this, b
      ensures closed == old(closed)
      ensures !InBounds(b, off, len) ==>
        r == Err(IndexOutOfBounds) && remaining == old(remaining) && b[..] == old(b[..])
      ensures InBounds(b, off, len) && old(remaining) == [] ==>
        r == Ok(-1) && remaining == [] && b[..] == old(b[..])
      ensures InBounds(b, off, len) && old(remaining) != [] ==>
        var n := if len < |old(remaining)| then len else |old(remaining)|;
        && r == Ok(n)
        && b[off..off + n] == old(remaining)[..n]
        && remaining == old(remaining)[n..]
        && (forall j :: 0 <= j < b.Length && !(off <= j < off + n) ==> b[j] == old(b[j]))
    {
      if !InBounds(b, off, len) {
        return Err(IndexOutOfBounds);
      }
      if remaining == [] {
        return Ok(-1);
      }
      var n := if len < |remaining| then len else |remaining|;
      forall i | 0 <= i < n {
        b[off + i] := remaining[i];
      }
      remaining := remaining[n..];
      return Ok(n);
    }

    method Close()
      modifies this
      ensures closed && remaining == old(remaining)
    {
      closed := true;
    }
  }

  /** Whether a pipe with `room` left takes `n` more bytes; `None` is a reader that reads to the end. */
  predicate Fits(room: Option<nat>, n: nat)
  {
    room.None? || n <= room.value
  }

  /** How many of `n` bytes a pipe with `room` left takes before its reader is gone. */
  function Taken(room: Option<nat>, n: nat): (t: nat)
    ensures t <= n
    ensures t == n <==> Fits(room, n)
  {
    if Fits(room, n) then n else room.value
  }

  /** The room left once `n` more bytes have gone in; none at all once the reader is gone. */
  function After(room: Option<nat>, n: nat): (r: Option<nat>)
    ensures r.None? <==> room.None?
    ensures !Fits(room, n) ==> r == Some(0)
  {
    match room
    case None => None
    case Some(left) => Some(if n <= left then left - n else 0)
  }

  /**
   * The write end of a child's stdin pipe. The child may close its end after reading part
   * of the input (as `head -n 1` does): `room` is how many more bytes the pipe takes before
   * that happens, `None` when the child reads to the end. A write that does not fit hands
   * over what does fit and then fails with "Broken pipe".
   */
  class ByteSink {
    /** Everything written so far, in order. */
    var written: Bytes
    var closed: bool
    var room: Option<nat>

    constructor(room: Option<nat>)
      ensures written == [] && !closed && this.room == room
    {
      written := [];
      closed := false;
      this.room := room;
    }

    /** `write(b, off, len)`: bounds first, an empty write does nothing, then the descriptor. */
    method Write(b: array<byte>, off: int, len: int) returns (r: Result<()>)
      modifies this
      ensures closed == old(closed)
      ensures !InBounds(b, off, len) ==>
        r == Err(IndexOutOfBounds) && written == old(written) && room == old(room)
      ensures InBounds(b, off, len) && len == 0 ==>
        r == Ok(()) && written == old(written) && room == old(room)
      ensures InBounds(b, off, len) && len > 0 && closed ==>
        r == Err(IOException("Stream Closed")) && written == old(written) && room == old(room)
      ensures InBounds(b, off, len) && len > 0 && !closed ==>
        && written == old(written) + b[off..off + Taken(old(room), len)]
        && room == After(old(room), len)
        && r == if Fits(old(room), len) then Ok(()) else Err(IOException("Broken pipe"))
    {
      if !InBounds(b, off, len) {
        return Err(IndexOutOfBounds);
      }
      if len == 0 {
        return Ok(());
      }
      if closed {
        return Err(IOException("Stream Closed"));
      }
      var n := Taken(room, len);
      written := written + b[off..off + n];
      room := After(room, len);
      if n < len {
        return Err(IOException("Broken pipe"));
      }
      return Ok(());
    }

    method Close()
      modifies this
      ensures closed && written == old(written) && room == old(room)
    {
      closed := true;
    }
  }

  /**
   * The terminal behind `System.out` / `System.err`: a `PrintStream`, which records an I/O
   * failure in an internal flag instead of throwing it, so only a bad range gets out.
   */
  class Terminal {
    /** Everything written so far, in order. */
    var shown: Bytes

    constructor()
      ensures shown == []
    {
      shown := [];
    }

    method Write(b: array<byte>, off: int, len: int) returns (r: Result<()>)
      modifies this
      ensures r.Ok? <==> InBounds(b, off, len)
      ensures r.Ok? ==> shown == old(shown) + b[off..off + len]
      ensures r.Err? ==> r == Err(IndexOutOfBounds) && shown == old(shown)
    {
      if !InBounds(b, off, len) {
        return Err(IndexOutOfBounds);
      }
      shown := shown + b[off..off + len];
      return Ok(());
    }
  }

  /** The chunk `pump()` leaves current: the buffer, or the next queued string once it is empty. */
  function Current(buffer: Bytes, source: seq<Bytes>): Bytes
  {
    if buffer != [] || source == [] then buffer else source[0]
  }

  /** The queue after `pump()`: one string is taken off only when the buffer was drained. */
  function AfterPump(buffer: Bytes, source: seq<Bytes>): seq<Bytes>
  {
    if buffer != [] || source == [] then source else source[1..]
  }

  /** `pump()` keeps every pending byte, in order. */
  lemma PumpKeepsPending(buffer: Bytes, source: seq<Bytes>)
    ensures Current(buffer, source) + Concat(AfterPump(buffer, source)) == buffer + Concat(source)
  {
  }

  /**
   * The single-byte `read()` of InputStringer as written: -1 when nothing is queued, the
   * next byte sign-extended otherwise, and `BufferUnderflowException` when `pump()` has just
   * taken an empty string off the queue.
   */
  function ReadByteAsWritten(buffer: Bytes, source: seq<Bytes>): Result<int>
  {
    if buffer == [] && source == [] then Ok(-1)
    else
      var chunk := Current(buffer, source);
      if chunk == [] then Err(BufferUnderflow) else Ok(Signed(chunk[0]))
  }

  /**
   * The single-byte read as `InputStream.read()` promises it: the next pending byte as a
   * value 0..255, skipping empty queued strings, and -1 only once every byte is consumed.
   */
  function ReadByteIntended(buffer: Bytes, source: seq<Bytes>): (r: int)
    ensures r == -1 <==> buffer + Concat(source) == []
    ensures r != -1 ==> 0 <= r < 256 && r == (buffer + Concat(source))[0] as int
    decreases |source|
  {
    if buffer != [] then buffer[0] as int
    else if source == [] then -1
    else ReadByteIntended(source[0], source[1..])
  }

  /**
   * A byte of 0x80 or more comes back negative: the first byte of "é" (UTF-8 `C3 A9`) reads
   * as -61, outside the range 0..255 that `read()` promises. UTF-8 never holds the byte 0xFF,
   * so from queued strings only 0x80..0xFE occur, and these read as -128..-2, never as the
   * end-of-stream value -1.
   */
  lemma ReadByteNonAsciiIsNegative()
    ensures ReadByteAsWritten([0xC3, 0xA9], []) == Ok(-61)
    ensures ReadByteIntended([0xC3, 0xA9], []) == 0xC3
    ensures forall b: byte :: 0x80 <= b < 0xFF ==>
      ReadByteAsWritten([b], []) == Ok(b as int - 256) && b as int - 256 < -1
  {
  }

  /** An empty queued string makes the single-byte read throw instead of moving on. */
  lemma ReadByteEmptyStringUnderflows()
    ensures ReadByteAsWritten([], [[], [65]]) == Err(BufferUnderflow)
    ensures ReadByteIntended([], [[], [65]]) == 65
  {
  }

  /** For a byte below 0x80 at the head of a non-empty chunk the two agree. */
  lemma ReadByteAgreesOnAscii(buffer: Bytes, source: seq<Bytes>)
    requires Current(buffer, source) != [] && Current(buffer, source)[0] < 128
    ensures ReadByteAsWritten(buffer, source) == Ok(ReadByteIntended(buffer, source))
  {
  }

  /**
   * InputStringer: a queue of strings (each taken as its UTF-8 bytes) read as one byte
   * stream. `buffer` is what is left of the string taken off the queue last.
   */
  class InputStringer {
    var source: seq<Bytes>
    var buffer: Bytes

    constructor(source: seq<Bytes>)
      ensures this.source == source && buffer == []
    {
      this.source := source;
      buffer := [];
    }

    /** The bytes still to be read, in order. */
    ghost function Pending(): Bytes
      reads this
    {
      buffer + Concat(source)
    }

    /** Falls with every bulk read that does not report end of stream, empty strings included. */
    ghost function Size(): nat
      reads this
    {
      |buffer| + |Concat(source)| + |source|
    }

    /** `pump()`: refill a drained buffer from the queue; false when both are empty. */
    method Pump() returns (more: bool)
      modifies this
      ensures more <==> old(buffer) != [] || old(source) != []
      ensures buffer == Current(old(buffer), old(source))
      ensures source == AfterPump(old(buffer), old(source))
    {
      if buffer == [] {
        if source == [] {
          return false;
        }
        buffer := source[0];
        source := source[1..];
      }
      return true;
    }

    method Available() returns (n: int)
      ensures n == |buffer|
    {
      n := |buffer|;
    }

    /** `read()`, as written. */
    method Read() returns (r: Result<int>)
      modifies this
      ensures r == ReadByteAsWritten(old(buffer), old(source))
      ensures source == AfterPump(old(buffer), old(source))
      ensures var chunk := Current(old(buffer), old(source));
        buffer == if chunk == [] then [] else chunk[1..]
    {
      var more := Pump();
      if !more {
        return Ok(-1);
      }
      if buffer == [] {
        return Err(BufferUnderflow);
      }
      r := Ok(Signed(buffer[0]));
      buffer := buffer[1..];
    }

    /**
     * `read(b, off, len)`: refill, then copy `min(len, available())` bytes of the current
     * string only, so that one call never spans two queued strings.
     */
    method ReadInto(b: array?<byte>, off: int, len: int) returns (r: Result<int>)
      modifies this, b
      ensures old(buffer) == [] && old(source) == [] ==>
        r == Ok(-1) && buffer == [] && source == [] && (b != null ==> b[..] == old(b[..]))
      ensures old(buffer) != [] || old(source) != [] ==>
        var chunk := Current(old(buffer), old(source));
        var n := if len < |chunk| then len else |chunk|;
        && source == AfterPump(old(buffer), old(source))
        && (b == null ==> r == Err(NullPointer) && buffer == chunk)
        && (b != null && !InBounds(b, off, n) ==>
              r == Err(IndexOutOfBounds) && buffer == chunk && b[..] == old(b[..]))
        && (b != null && InBounds(b, off, n) ==>
              && r == Ok(n)
              && b[off..off + n] == chunk[..n]
              && buffer == chunk[n..]
              && (forall j :: 0 <= j < b.Length && !(off <= j < off + n) ==> b[j] == old(b[j])))
    {
      var more := Pump();
      if !more {
        return Ok(-1);
      }
      var n := if len < |buffer| then len else |buffer|;
      if b == null {
        return Err(NullPointer);
      }
      if !InBounds(b, off, n) {
        return Err(IndexOutOfBounds);
      }
      forall i | 0 <= i < n {
        b[off + i] := buffer[i];
      }
      buffer := buffer[n..];
      return Ok(n);
    }
  }

  /** `ClosedInputStream`: end of stream at once, on every read. */
  class ClosedInputStream {
    constructor() {}

    method Available() returns (n: int)
      ensures n == 0
    {
      n := 0;
    }

    method Read() returns (r: int)
      ensures r == -1
    {
      r := -1;
    }

    method ReadInto(b: array?<byte>, off: int, len: int) returns (r: int)
      ensures r == -1
    {
      r := -1;
    }
  }

  /** `MagicInputStream`, installed by `in_direct()`: reads like a closed stream. */
  class MagicInputStream {
    constructor() {}

    method ReadInto(b: array?<byte>, off: int, len: int) returns (r: int)
      ensures r == -1
    {
      r := -1;
    }
  }

  /** The caller's `Collection<String>` that an OutputStringer adds its records to. */
  class RecordList {
    var records: seq<Bytes>

    constructor()
      ensures records == []
    {
      records := [];
    }
  }

  /**
   * OutputStringer: collects written bytes into records added to `sink`. With
   * `breakOnFlush` false a record ends at each `breakByte` (kept in the record); with it
   * true a record is the whole buffer at each `flush()`.
   */
  class OutputStringer {
    const sink: RecordList
    const breakOnFlush: bool
    const breakByte: byte
    /** The `ByteArrayOutputStream` of bytes not yet emitted. */
    var buffer: Bytes

    constructor(sink: RecordList)
      ensures this.sink == sink && !breakOnFlush && breakByte == 10 && buffer == []
    {
      this.sink := sink;
      breakOnFlush := false;
      breakByte := 10;
      buffer := [];
    }

    constructor WithFlush(sink: RecordList, breakOnFlush: bool)
      ensures this.sink == sink && this.breakOnFlush == breakOnFlush && breakByte == 10
      ensures buffer == []
    {
      this.sink := sink;
      this.breakOnFlush := breakOnFlush;
      breakByte := 10;
      buffer := [];
    }

    constructor WithBreak(sink: RecordList, breakOnFlush: bool, breakByte: byte)
      ensures this.sink == sink && this.breakOnFlush == breakOnFlush
      ensures this.breakByte == breakByte && buffer == []
    {
      this.sink := sink;
      this.breakOnFlush := breakOnFlush;
      this.breakByte := breakByte;
      buffer := [];
    }

    /** `push()`: hand the buffer to the sink as one record and empty it. */
    method Push()
      modifies this, sink
      ensures sink.records == old(sink.records) + [old(buffer)] && buffer == []
    {
      sink.records := sink.records + [buffer];
      buffer := [];
    }

    /** `write(int)`, as written: see `Records.StepInt`. */
    method WriteInt(b: int)
      modifies this, sink
      ensures breakOnFlush ==>
        sink.records == old(sink.records) && buffer == old(buffer) + [LowByte(b)]
      ensures !breakOnFlush ==>
        var c := StepInt(Collected([], old(buffer)), b, breakByte);
        sink.records == old(sink.records) + c.records && buffer == c.rest
    {
      buffer := buffer + [LowByte(b)];
      if !breakOnFlush && b == Signed(breakByte) {
        Push();
      }
    }

    /**
     * `write(b, off, len)`: argument errors are thrown before anything changes; the bytes
     * are buffered, and without `breakOnFlush` each break byte emits a record.
     */
    method Write(b: array?<byte>, off: int, len: int) returns (r: Result<()>)
      modifies this, sink
      ensures b == null ==> r == Err(NullPointer)
      ensures b != null && !InBounds(b, off, len) ==> r == Err(IndexOutOfBounds)
      ensures r.Err? ==> sink.records == old(sink.records) && buffer == old(buffer)
      ensures b != null && InBounds(b, off, len) ==> r == Ok(())
      ensures r.Ok? && breakOnFlush ==>
        sink.records == old(sink.records) && buffer == old(buffer) + b[off..off + len]
      ensures r.Ok? && !breakOnFlush ==>
        var c := Split(old(buffer), b[off..off + len], breakByte);
        sink.records == old(sink.records) + c.records && buffer == c.rest
    {
      if b == null {
        return Err(NullPointer);
      }
      if off < 0 || off > b.Length || len < 0 || off + len > b.Length || off + len < 0 {
        return Err(IndexOutOfBounds);
      }
      if len == 0 {
        assert b[off..off + len] == [];
        return Ok(());
      }
      if breakOnFlush {
        buffer := buffer + b[off..off + len];
      } else {
        var i := 0;
        while i < len
          invariant 0 <= i <= len
          invariant sink.records == old(sink.records) + Split(old(buffer), b[off..off + i], breakByte).records
          invariant buffer == Split(old(buffer), b[off..off + i], breakByte).rest
        {
          var a := b[off + i];
          assert b[off..off + i + 1][..i] == b[off..off + i];
          buffer := buffer + [a];
          if a == breakByte {
            Push();
          }
          i := i + 1;
        }
      }
      return Ok(());
    }

    /** `flush()`: emits the whole buffer, even when empty, only with `breakOnFlush`. */
    method Flush()
      modifies this, sink
      ensures breakOnFlush ==> sink.records == old(sink.records) + [old(buffer)] && buffer == []
      ensures !breakOnFlush ==> sink.records == old(sink.records) && buffer == old(buffer)
    {
      if breakOnFlush {
        Push();
      }
    }

    /** `close()`: emits what is left as a last record, but never an empty one. */
    method Close()
      modifies this, sink
      ensures buffer == []
      ensures sink.records == if old(buffer) == [] then old(sink.records)
                              else old(sink.records) + [old(buffer)]
    {
      if |buffer| > 0 {
        Push();
      }
    }
  }

  /** `ClosedOutputStream`: every write throws, flush and close succeed. */
  class ClosedOutputStream {
    constructor() {}

    method WriteInt(b: int) returns (r: Result<()>)
      ensures r == Err(IOException("closed"))
    {
      r := Err(IOException("closed"));
    }

    method Write(b: array?<byte>, off: int, len: int) returns (r: Result<()>)
      ensures r == Err(IOException("closed"))
    {
      r := Err(IOException("closed"));
    }

    method Flush() returns (r: Result<()>)
      ensures r == Ok(())
    {
      r := Ok(());
    }

    method Close() returns (r: Result<()>)
      ensures r == Ok(())
    {
      r := Ok(());
    }
  }

  /** `NullOutputStream`: every call succeeds and has no effect. */
  class NullOutputStream {
    constructor() {}

    method WriteInt(b: int) returns (r: Result<()>)
      ensures r == Ok(())
    {
      r := Ok(());
    }

    method Write(b: array?<byte>, off: int, len: int) returns (r: Result<()>)
      ensures r == Ok(())
    {
      r := Ok(());
    }

    method Flush() returns (r: Result<()>)
      ensures r == Ok(())
    {
      r := Ok(());
    }

    method Close() returns (r: Result<()>)
      ensures r == Ok(())
    {
      r := Ok(());
    }
  }

  /** `MagicOutputStream`, installed by `out_direct()` / `err_direct()`: discards everything. */
  class MagicOutputStream {
    constructor() {}

    method Write(b: array?<byte>, off: int, len: int) returns (r: Result<()>)
      ensures r == Ok(())
    {
      r := Ok(());
    }
  }
}
