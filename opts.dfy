/**
 * The I/O options of a command: which stream feeds the child's stdin and which streams take
 * its stdout and stderr. The Java holder keeps object references; here each reference is a
 * tag that says which stream class it points to, carrying the object itself.
 */
module Opts {
  import opened Bytes
  import opened Streams

  /** An `InputStream` as the command runner sees it. */
  datatype Input =
    | StdIn                                  // the JVM's `System.in` object itself
    | PassIn(terminal: ByteSource)           // `UnclosableInputStream` over `System.in`
    | LiteralIn(literal: ByteSource)         // `ByteArrayInputStream`
    | StringerIn(stringer: InputStringer)
    | ClosedIn(closedIn: ClosedInputStream)
    | MagicIn(magicIn: MagicInputStream)
    | PipeIn(pipe: ByteSource)               // a child's stdout or stderr pipe

  /** An `OutputStream` as the command runner sees it. */
  datatype Output =
    | StdOut                                 // the JVM's `System.out` object itself
    | StdErr                                 // the JVM's `System.err` object itself
    | PassOut(terminal: Terminal)            // `UnclosableOutputStream` over `System.out`/`err`
    | StringerOut(stringer: OutputStringer)
    | NullOut(discard: NullOutputStream)
    | ClosedOut(closedOut: ClosedOutputStream)
    | MagicOut(magicOut: MagicOutputStream)
    | PipeOut(pipe: ByteSink)                // a child's stdin pipe

  /** The three slots of an `Opts`; `None` is Java's `null`, "leave this channel as it is". */
  datatype Slots = Slots(stdin: Option<Input>, stdout: Option<Output>, stderr: Option<Output>)

  /** `Opts`: a mutable holder whose setters fill one slot each and return the holder. */
  class Opts {
    var stdin: Option<Input>
    var stdout: Option<Output>
    var stderr: Option<Output>

    function Snapshot(): (s: Slots)
      reads this
      ensures s.stdin == stdin && s.stdout == stdout && s.stderr == stderr
    {
      Slots(stdin, stdout, stderr)
    }

    constructor()
      ensures Snapshot() == Slots(None, None, None)
    {
      stdin, stdout, stderr := None, None, None;
    }

    /** The copy constructor: all three slots, as they are. */
    constructor Copy(cpy: Opts)
      ensures Snapshot() == old(cpy.Snapshot())
    {
      stdin, stdout, stderr := cpy.stdin, cpy.stdout, cpy.stderr;
    }

    /** `in(String)` with the string's UTF-8 bytes, and `in(byte[])`: a fresh byte array stream. */
    method InBytes(data: Bytes) returns (self: Opts)
      modifies this
      ensures self == this && stdout == old(stdout) && stderr == old(stderr)
      ensures stdin.Some? && stdin.value.LiteralIn? && fresh(stdin.value.literal)
      ensures stdin.value.literal.remaining == data && !stdin.value.literal.closed
    {
      var s := new ByteSource(data);
      stdin := Some(LiteralIn(s));
      return this;
    }

    /** `in(Queue<String>)`, each queued string taken as its UTF-8 bytes. */
    method InQueue(queue: seq<Bytes>) returns (self: Opts)
      modifies this
      ensures self == this && stdout == old(stdout) && stderr == old(stderr)
      ensures stdin.Some? && stdin.value.StringerIn? && fresh(stdin.value.stringer)
      ensures stdin.value.stringer.source == queue && stdin.value.stringer.buffer == []
    {
      var s := new InputStringer(queue);
      stdin := Some(StringerIn(s));
      return this;
    }

    /** `in(InputStream)`: the given stream, as it is. */
    method InStream(input: Input) returns (self: Opts)
      modifies this
      ensures self == this && stdin == Some(input)
      ensures stdout == old(stdout) && stderr == old(stderr)
    {
      stdin := Some(input);
      return this;
    }

    method InNull() returns (self: Opts)
      modifies this
      ensures self == this && stdout == old(stdout) && stderr == old(stderr)
      ensures stdin.Some? && stdin.value.ClosedIn? && fresh(stdin.value.closedIn)
    {
      var c := new ClosedInputStream();
      stdin := Some(ClosedIn(c));
      return this;
    }

    /** `in_pass()`: `System.in` behind a wrapper that ignores `close()`. */
    method InPass(systemIn: ByteSource) returns (self: Opts)
      modifies this
      ensures self == this && stdin == Some(PassIn(systemIn))
      ensures stdout == old(stdout) && stderr == old(stderr)
    {
      stdin := Some(PassIn(systemIn));
      return this;
    }

    /** `in_direct()`: a fresh `MagicInputStream`, meant to ask for native inheritance. */
    method InDirect() returns (self: Opts)
      modifies this
      ensures self == this && stdout == old(stdout) && stderr == old(stderr)
      ensures stdin.Some? && stdin.value.MagicIn? && fresh(stdin.value.magicIn)
    {
      var m := new MagicInputStream();
      stdin := Some(MagicIn(m));
      return this;
    }

    /** `out(OutputStream)` and `out(OutputStringer)`: the given stream, as it is. */
    method OutStream(output: Output) returns (self: Opts)
      modifies this
      ensures self == this && stdout == Some(output)
      ensures stdin == old(stdin) && stderr == old(stderr)
    {
      stdout := Some(output);
      return this;
    }

    /** `out(Collection<String>)`: a fresh line collector adding to `sink`. */
    method OutCollection(sink: RecordList) returns (self: Opts)
      modifies this
      ensures self == this && stdin == old(stdin) && stderr == old(stderr)
      ensures stdout.Some? && stdout.value.StringerOut? && fresh(stdout.value.stringer)
      ensures stdout.value.stringer.sink == sink && !stdout.value.stringer.breakOnFlush
      ensures stdout.value.stringer.breakByte == 10 && stdout.value.stringer.buffer == []
    {
      var o := new OutputStringer(sink);
      stdout := Some(StringerOut(o));
      return this;
    }

    method OutNull() returns (self: Opts)
      modifies this
      ensures self == this && stdin == old(stdin) && stderr == old(stderr)
      ensures stdout.Some? && stdout.value.NullOut? && fresh(stdout.value.discard)
    {
      var n := new NullOutputStream();
      stdout := Some(NullOut(n));
      return this;
    }

    method OutClosed() returns (self: Opts)
      modifies this
      ensures self == this && stdin == old(stdin) && stderr == old(stderr)
      ensures stdout.Some? && stdout.value.ClosedOut? && fresh(stdout.value.closedOut)
    {
      var c := new ClosedOutputStream();
      stdout := Some(ClosedOut(c));
      return this;
    }

    /** `out_pass()`: `System.out` behind a wrapper that ignores `close()`. */
    method OutPass(systemOut: Terminal) returns (self: Opts)
      modifies this
      ensures self == this && stdout == Some(PassOut(systemOut))
      ensures stdin == old(stdin) && stderr == old(stderr)
    {
      stdout := Some(PassOut(systemOut));
      return this;
    }

    /** `out_direct()`: a fresh `MagicOutputStream`, meant to ask for native inheritance. */
    method OutDirect() returns (self: Opts)
      modifies this
      ensures self == this && stdin == old(stdin) && stderr == old(stderr)
      ensures stdout.Some? && stdout.value.MagicOut? && fresh(stdout.value.magicOut)
    {
      var m := new MagicOutputStream();
      stdout := Some(MagicOut(m));
      return this;
    }

    /** `err(OutputStream)` and `err(OutputStringer)`: the given stream, as it is. */
    method ErrStream(output: Output) returns (self: Opts)
      modifies this
      ensures self == this && stderr == Some(output)
      ensures stdin == old(stdin) && stdout == old(stdout)
    {
      stderr := Some(output);
      return this;
    }

    /** `err(Collection<String>)`: a fresh line collector adding to `sink`. */
    method ErrCollection(sink: RecordList) returns (self: Opts)
      modifies this
      ensures self == this && stdin == old(stdin) && stdout == old(stdout)
      ensures stderr.Some? && stderr.value.StringerOut? && fresh(stderr.value.stringer)
      ensures stderr.value.stringer.sink == sink && !stderr.value.stringer.breakOnFlush
      ensures stderr.value.stringer.breakByte == 10 && stderr.value.stringer.buffer == []
    {
      var o := new OutputStringer(sink);
      stderr := Some(StringerOut(o));
      return this;
    }

    method ErrNull() returns (self: Opts)
      modifies this
      ensures self == this && stdin == old(stdin) && stdout == old(stdout)
      ensures stderr.Some? && stderr.value.NullOut? && fresh(stderr.value.discard)
    {
      var n := new NullOutputStream();
      stderr := Some(NullOut(n));
      return this;
    }

    method ErrClosed() returns (self: Opts)
      modifies this
      ensures self == this && stdin == old(stdin) && stdout == old(stdout)
      ensures stderr.Some? && stderr.value.ClosedOut? && fresh(stderr.value.closedOut)
    {
      var c := new ClosedOutputStream();
      stderr := Some(ClosedOut(c));
      return this;
    }

    /** `err_pass()`: `System.err` behind a wrapper that ignores `close()`. */
    method ErrPass(systemErr: Terminal) returns (self: Opts)
      modifies this
      ensures self == this && stderr == Some(PassOut(systemErr))
      ensures stdin == old(stdin) && stdout == old(stdout)
    {
      stderr := Some(PassOut(systemErr));
      return this;
    }

    /** `err_direct()`: a fresh `MagicOutputStream`, meant to ask for native inheritance. */
    method ErrDirect() returns (self: Opts)
      modifies this
      ensures self == this && stdin == old(stdin) && stdout == old(stdout)
      ensures stderr.Some? && stderr.value.MagicOut? && fresh(stderr.value.magicOut)
    {
      var m := new MagicOutputStream();
      stderr := Some(MagicOut(m));
      return this;
    }
  }

  /** `Opts.DefaultIO`: every channel passed through the JVM's own stdio. */
  method DefaultIO(systemIn: ByteSource, systemOut: Terminal, systemErr: Terminal) returns (o: Opts)
    ensures fresh(o)
    ensures o.Snapshot() == Slots(Some(PassIn(systemIn)), Some(PassOut(systemOut)), Some(PassOut(systemErr)))
  {
    o := new Opts();
    o := o.InPass(systemIn);
    o := o.OutPass(systemOut);
    o := o.ErrPass(systemErr);
  }

  /** `Opts.DirectIO`: a magic stream on every channel. */
  method DirectIO() returns (o: Opts)
    ensures fresh(o)
    ensures o.stdin.Some? && o.stdin.value.MagicIn?
    ensures o.stdout.Some? && o.stdout.value.MagicOut?
    ensures o.stderr.Some? && o.stderr.value.MagicOut?
  {
    o := new Opts();
    o := o.InDirect();
    o := o.OutDirect();
    o := o.ErrDirect();
  }

  /** `Opts.NullIO`: stdin closed, stdout and stderr discarded. */
  method NullIO() returns (o: Opts)
    ensures fresh(o)
    ensures o.stdin.Some? && o.stdin.value.ClosedIn?
    ensures o.stdout.Some? && o.stdout.value.NullOut?
    ensures o.stderr.Some? && o.stderr.value.NullOut?
  {
    o := new Opts();
    o := o.InNull();
    o := o.OutNull();
    o := o.ErrNull();
  }
}
