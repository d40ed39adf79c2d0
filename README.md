# josh: command templates and stdio streams, in Dafny

This project models the core of josh, a Java library for running child processes. Its two
parts are modelled as follows.

- **The command template (`Josh.java`).** This is a value holding a command,
  its arguments, the environment, the working directory, the three stdio channels and the
  exit codes that count as success. Every builder copies the template and replaces one
  field, so building from a template never changes it (arrays a caller passes in are
  copied here; see "Left out"). `start()` makes three decisions before it hands off to the
  operating system:
  - the argument vector;
  - for each channel, whether the child inherits the JVM's own descriptor or gets a pipe
    with a copier thread;
  - how the exit code is judged.
- **The copier (`iocopy`).** It pumps a stream into a pipe, or a pipe into a stream, until
  end of stream. Two short-circuits handle closed streams. A child that closes its stdin
  after reading part of the input makes a later write fail; the copier then closes both
  ends and the bytes it has not copied are lost.
- **The stdio endpoints (`Opts.java`).** The `Opts` holder has three channel slots and
  setters that fill one slot each. It also defines the stream classes those setters
  install:
  - `InputStringer` reads a queue of strings as one byte stream.
  - `OutputStringer` cuts output into records at a break byte or at `flush()`.
  - `ClosedInputStream`, `ClosedOutputStream` and `NullOutputStream` are stubs.
  - The "magic" streams are installed by the `*_direct()` setters.

Layout, one module per file:

- `bytes.dfy` (`Bytes`):
  - Java's `byte`, kept as its unsigned value.
  - The sign extension Java applies when a `byte` becomes an `int`.
  - The exceptions the streams throw.
  - Concatenation of chunks.
- `records.dfy` (`Records`): the record splitting of `OutputStringer`, as functions on
  values (`Split`), with its conservation and shape lemmas.
- `streams.dfy` (`Streams`): the stream classes of `Opts.java`, with `modifies` frames.
  It also has small classes for the JDK streams they meet:
  - `ByteSource` stands for `ByteArrayInputStream`, a child's output pipe and the
    terminal behind `System.in`.
  - `ByteSink` is a child's input pipe. Its `room` is how many more bytes it takes before
    the child closes its end; after that a write throws "Broken pipe".
  - `Terminal` is the `PrintStream` behind `System.out` and `System.err`.
- `opts.dfy` (`Opts`): the holder class and its setters. A stream reference is a tag
  naming its class (`Input`, `Output`) that carries the object itself. The reference
  test `opts.in == System.in` becomes a test for the tags `StdIn`, `StdOut` and `StdErr`.
- `pump.dfy` (`Pump`): `iocopy` and its loop. Reads and writes are dispatched on the tag.
  The copy is proved in terms of `Pending` (the bytes a source will still deliver),
  `Received` (the bytes a sink has accepted) and `Room` (how many more bytes a sink takes).
- `josh.dfy` (`Josh`): the template datatype, its builders, the launch decisions of
  `start()`, and the exit-code test.

## Model

| member | source | states |
|---|---|---|
| Bytes.Signed | src/main/net/polydawn/josh/Opts.java:173 | widening a byte gives a value in -128..127 that is congruent to it mod 256, and it is negative exactly for bytes 0x80 and above |
| Bytes.LowByte | src/main/net/polydawn/josh/Opts.java:456 | the byte stored for an `int` is congruent to it mod 256, and equals it when it is already in 0..255 |
| Records.SplitConserves | src/main/net/polydawn/josh/Opts.java:474-479 | the records emitted and the bytes left in the buffer spell exactly the old buffer followed by the written bytes: none lost, duplicated or reordered |
| Records.SplitRecordsEndWithBreak | src/main/net/polydawn/josh/Opts.java:474-479 | every emitted record ends with the break byte, which is retained |
| Records.SplitRecordsAreLines | src/main/net/polydawn/josh/Opts.java:474-479 | when the buffer starts free of break bytes, each record contains the break byte only at its end, and the buffer left holds no break byte |
| Records.SplitJoin | src/main/net/polydawn/josh/Opts.java:464-481 | writing two pieces one after the other gives the same records and buffer as writing them at once, so chunk boundaries do not matter |
| Records.SplitOneLine | src/main/net/polydawn/josh/Opts.java:474-479 | a single complete line written to an empty collector comes out as exactly one record and leaves the buffer empty |
| Records.SplitNoBreak | src/main/net/polydawn/josh/Opts.java:474-479 | bytes without a break byte emit nothing and only grow the buffer |
| Records.CollectJoin | src/main/net/polydawn/josh/Opts.java:464-481 | writing two chunks one after the other leaves a collector, in either mode, as writing them at once |
| Records.CollectKeepsLines | src/main/net/polydawn/josh/Opts.java:464-481 | a collector out of flush mode that holds complete lines and a break-free buffer keeps doing so whatever is written to it |
| Records.StepIntIntended | src/main/net/polydawn/josh/Opts.java:455-459 | a single-byte write as intended: the byte actually stored decides whether a record ends; it keeps the break-free buffer invariant and conserves bytes |
| Records.StepIntAgreesOnSignedBytes | src/main/net/polydawn/josh/Opts.java:455-459 | for arguments in -128..127 the written `write(int)` and the intended one agree |
| Records.StepIntMissesBreakAbove255 | src/main/net/polydawn/josh/Opts.java:455-459 | `write(266)` with break byte `'\n'` buffers a `'\n'` and emits no record |
| Records.StepIntMissesHighBreakByte | src/main/net/polydawn/josh/Opts.java:455-459 | with break byte 0xFF, `write(255)` buffers the break byte and emits no record |
| Streams.PumpKeepsPending | src/main/net/polydawn/josh/Opts.java:159-165 | refilling the buffer from the queue keeps every pending byte, in order |
| Streams.ReadByteIntended | src/main/net/polydawn/josh/Opts.java:171-174 | the single-byte read as `InputStream` promises it: -1 exactly when no byte is pending, otherwise the next pending byte as a value in 0..255 |
| Streams.ReadByteNonAsciiIsNegative | src/main/net/polydawn/josh/Opts.java:171-174 | the UTF-8 byte 0xC3 reads as -61 instead of 195; UTF-8 never holds 0xFF, so every high byte it produces lies in 0x80..0xFE, and each of those reads as a negative value below -1 |
| Streams.ReadByteEmptyStringUnderflows | src/main/net/polydawn/josh/Opts.java:159-174 | with `""` then `"A"` queued, `read()` throws `BufferUnderflowException`; the intended read gives `'A'` |
| Streams.ReadByteAgreesOnAscii | src/main/net/polydawn/josh/Opts.java:171-174 | when the current chunk starts with a byte below 0x80, the written read and the intended one agree |
| Streams.InputStringer.constructor | src/main/net/polydawn/josh/Opts.java:150-154 | the stringer holds the queue and an empty buffer |
| Streams.InputStringer.Pump | src/main/net/polydawn/josh/Opts.java:159-165 | it answers false exactly when buffer and queue are both empty; a string is taken off the queue only when the buffer is drained |
| Streams.InputStringer.Available | src/main/net/polydawn/josh/Opts.java:167-169 | the bytes left in the current chunk only |
| Streams.InputStringer.Read | src/main/net/polydawn/josh/Opts.java:171-174 | as written: -1 with nothing queued, otherwise the next byte sign-extended, or `BufferUnderflowException` on an empty queued string; the byte is consumed |
| Streams.InputStringer.ReadInto | src/main/net/polydawn/josh/Opts.java:180-185 | -1 only when buffer and queue are empty; otherwise it refills, then returns `min(len, available)` bytes of the current chunk, never spanning two queued strings (an empty queued string reads 0 bytes); `NullPointerException` for a null array and `IndexOutOfBoundsException` for a bad range, after the refill; array bytes outside the range are untouched |
| Streams.ClosedInputStream.Available | src/main/net/polydawn/josh/Opts.java:195-197 | always 0 |
| Streams.ClosedInputStream.Read | src/main/net/polydawn/josh/Opts.java:199-201 | always end of stream |
| Streams.ClosedInputStream.ReadInto | src/main/net/polydawn/josh/Opts.java:203-209 | always end of stream, whatever the arguments |
| Streams.MagicInputStream.ReadInto | src/main/net/polydawn/josh/Opts.java:287-293 | always end of stream |
| Streams.OutputStringer.constructor | src/main/net/polydawn/josh/Opts.java:423-425 | record per line, break byte `'\n'`, empty buffer |
| Streams.OutputStringer.WithFlush | src/main/net/polydawn/josh/Opts.java:427-429 | the given flush mode, break byte `'\n'`, empty buffer |
| Streams.OutputStringer.WithBreak | src/main/net/polydawn/josh/Opts.java:431-436 | the given flush mode and break byte, empty buffer |
| Streams.OutputStringer.Push | src/main/net/polydawn/josh/Opts.java:483-491 | the whole buffer becomes one more record and the buffer is emptied |
| Streams.OutputStringer.WriteInt | src/main/net/polydawn/josh/Opts.java:455-459 | as written: the low eight bits are buffered, and outside flush mode a record is emitted when the `int` equals the sign-extended break byte |
| Streams.OutputStringer.Write | src/main/net/polydawn/josh/Opts.java:464-481 | a null array or bad range throws before any state changes; an empty write changes nothing; in flush mode the bytes are only buffered; otherwise the records added and the new buffer are those of `Split` |
| Streams.OutputStringer.Flush | src/main/net/polydawn/josh/Opts.java:494-497 | in flush mode: exactly one record, the whole buffer (even when empty), and the buffer is emptied; otherwise nothing changes |
| Streams.OutputStringer.Close | src/main/net/polydawn/josh/Opts.java:499-502 | the residue becomes a last record exactly when it is non-empty, and the buffer ends empty, so a second close emits nothing |
| Streams.ClosedOutputStream.WriteInt | src/main/net/polydawn/josh/Opts.java:512-514 | always throws `IOException("closed")` |
| Streams.ClosedOutputStream.Write | src/main/net/polydawn/josh/Opts.java:516-522 | always throws `IOException("closed")` |
| Streams.ClosedOutputStream.Flush | src/main/net/polydawn/josh/Opts.java:524 | succeeds |
| Streams.ClosedOutputStream.Close | src/main/net/polydawn/josh/Opts.java:526 | succeeds |
| Streams.NullOutputStream.WriteInt | src/main/net/polydawn/josh/Opts.java:532 | succeeds, with no effect |
| Streams.NullOutputStream.Write | src/main/net/polydawn/josh/Opts.java:534-536 | succeeds, with no effect |
| Streams.NullOutputStream.Flush | src/main/net/polydawn/josh/Opts.java:538 | succeeds |
| Streams.NullOutputStream.Close | src/main/net/polydawn/josh/Opts.java:540 | succeeds |
| Streams.MagicOutputStream.Write | src/main/net/polydawn/josh/Opts.java:594-596 | succeeds and discards the bytes |
| Opts.Opts.constructor | src/main/net/polydawn/josh/Opts.java:28 | all three slots empty ("leave it") |
| Opts.Opts.Copy | src/main/net/polydawn/josh/Opts.java:61-65 | all three slots copied as they are |
| Opts.Opts.InBytes | src/main/net/polydawn/josh/Opts.java:107-120 | stdin becomes a fresh byte array stream over the given bytes; the other slots are unchanged; the same holder is returned |
| Opts.Opts.InQueue | src/main/net/polydawn/josh/Opts.java:112-115 | stdin becomes a fresh stringer over the queue with an empty buffer; other slots unchanged; same holder |
| Opts.Opts.InStream | src/main/net/polydawn/josh/Opts.java:122-125 | stdin becomes the given stream; other slots unchanged; same holder |
| Opts.Opts.InNull | src/main/net/polydawn/josh/Opts.java:127-130 | stdin becomes a fresh closed input stream; other slots unchanged; same holder |
| Opts.Opts.InPass | src/main/net/polydawn/josh/Opts.java:132-135 | stdin becomes the wrapper around the JVM's standard input; other slots unchanged; same holder |
| Opts.Opts.InDirect | src/main/net/polydawn/josh/Opts.java:142-145 | stdin becomes a fresh magic input stream; other slots unchanged; same holder |
| Opts.Opts.OutStream | src/main/net/polydawn/josh/Opts.java:302-323 | stdout becomes the given stream or stringer; other slots unchanged; same holder |
| Opts.Opts.OutCollection | src/main/net/polydawn/josh/Opts.java:315-318 | stdout becomes a fresh line collector (no flush mode, `'\n'`, empty buffer) adding to the given collection; other slots unchanged |
| Opts.Opts.OutNull | src/main/net/polydawn/josh/Opts.java:335-338 | stdout becomes a fresh null stream; other slots unchanged; same holder |
| Opts.Opts.OutClosed | src/main/net/polydawn/josh/Opts.java:340-343 | stdout becomes a fresh closed output stream; other slots unchanged; same holder |
| Opts.Opts.OutPass | src/main/net/polydawn/josh/Opts.java:345-348 | stdout becomes the wrapper around the JVM's standard output; other slots unchanged; same holder |
| Opts.Opts.OutDirect | src/main/net/polydawn/josh/Opts.java:355-358 | stdout becomes a fresh magic output stream; other slots unchanged; same holder |
| Opts.Opts.ErrStream | src/main/net/polydawn/josh/Opts.java:362-383 | stderr becomes the given stream or stringer; other slots unchanged; same holder |
| Opts.Opts.ErrCollection | src/main/net/polydawn/josh/Opts.java:375-378 | stderr becomes a fresh line collector adding to the given collection; other slots unchanged |
| Opts.Opts.ErrNull | src/main/net/polydawn/josh/Opts.java:395-398 | stderr becomes a fresh null stream; other slots unchanged; same holder |
| Opts.Opts.ErrClosed | src/main/net/polydawn/josh/Opts.java:400-403 | stderr becomes a fresh closed output stream; other slots unchanged; same holder |
| Opts.Opts.ErrPass | src/main/net/polydawn/josh/Opts.java:405-408 | stderr becomes the wrapper around the JVM's standard error; other slots unchanged; same holder |
| Opts.Opts.ErrDirect | src/main/net/polydawn/josh/Opts.java:415-418 | stderr becomes a fresh magic output stream; other slots unchanged; same holder |
| Opts.DefaultIO | src/main/net/polydawn/josh/Opts.java:36-40 | all three channels go through the wrappers around the JVM's own stdio |
| Opts.DirectIO | src/main/net/polydawn/josh/Opts.java:46-50 | a magic stream on every channel |
| Opts.NullIO | src/main/net/polydawn/josh/Opts.java:55-59 | stdin closed, stdout and stderr discarded |
| Streams.ByteSink.Write | src/main/net/polydawn/josh/Josh.java:200 | a write to the child's stdin pipe checks the range first, does nothing for an empty range, throws on a closed pipe, and otherwise takes the bytes that fit in its room, throwing "Broken pipe" when not all of them did |
| Pump.ReadStringer | src/main/net/polydawn/josh/Opts.java:159-185 | a bulk read of a stringer hands out a prefix of the pending bytes and keeps the rest in order, so successive reads concatenate to the queued strings' bytes; -1 only when nothing is pending |
| Pump.ReadChunk | src/main/net/polydawn/josh/Josh.java:199 | `in.read(buf)` on any source: -1 only when nothing is pending, otherwise the chunk read followed by what is still pending is what was pending; each non-final read lowers the measure |
| Pump.WriteStringer | src/main/net/polydawn/josh/Opts.java:464-481 | writing a chunk to a collector appends it to the bytes the collector has accepted (records, then buffer), and leaves the collector exactly as `Collect` says: in flush mode the chunk joins the buffer, otherwise the `Split` records of the old buffer and the chunk are added and its rest is the new buffer |
| Pump.WriteChunk | src/main/net/polydawn/josh/Josh.java:200 | `out.write(buf, 0, k)` on any sink: it succeeds exactly when the sink is not a closed output stream and has room for the chunk; the sink's room shrinks by the chunk, and a keeping sink takes the chunk, or, when it has too little room, as much of it as fits; a line collector's records and buffer become `Collect` of the old ones and the chunk |
| Pump.CloseInput | src/main/net/polydawn/josh/Josh.java:180-187 | closing a source closes a pipe and nothing else, and loses no pending byte |
| Pump.CloseOutput | src/main/net/polydawn/josh/Josh.java:188-202 | closing a sink closes a pipe or flushes a collector's residue as a last record, and loses no accepted byte |
| Pump.Offer | src/main/net/polydawn/josh/Josh.java:200 | a write after `written` has gone in keeps the sink's progress: it succeeds exactly when the sink's starting room covers `written` and the chunk, and otherwise it is a pipe that took the part of the chunk that fit |
| Pump.Cut | src/main/net/polydawn/josh/Josh.java:198-201 | when a write takes the whole chunk, what has gone in and what is still pending again make up the source's bytes; when it does not, what has gone in is exactly the source's first `room` bytes, fewer than all of them |
| Pump.WriteStep | src/main/net/polydawn/josh/Josh.java:200 | one write of the copier keeps the copy invariant; when it throws, the sink is a pipe that had room for only a proper prefix of the source's bytes and holds exactly that prefix |
| Pump.ReadStep | src/main/net/polydawn/josh/Josh.java:199 | one read of the copier re-establishes the copy invariant and lowers the measure |
| Pump.CopyLoop | src/main/net/polydawn/josh/Josh.java:196-201 | the loop ends normally exactly when the sink has room for all the source's bytes, and then the source is drained and a keeping sink has received them all, in order; otherwise the sink is a pipe whose reader went away and it has received exactly as many leading bytes of the source as it had room for, while the source keeps only a tail of its bytes that starts after that room (the failing chunk's bytes beyond the room are lost from both); when it ends normally a line collector holds `Collect` of its old records and buffer and all the source's bytes, however they were cut into chunks |
| Pump.IoCopy | src/main/net/polydawn/josh/Josh.java:179-219 | a closed-output sink takes precedence: the source is closed and no copier runs. Otherwise a closed-input source makes it close the sink and start no copier. Otherwise the copier drains the source into the sink and closes it exactly when the sink has room for every byte; if not, the sink is a pipe that received the leading bytes it had room for, both are closed, and the source keeps only a tail of its bytes that starts after that room, so the bytes in between are lost. When drained into a line collector, its records are those of `Collect` of its old records and buffer and the source's bytes (out of flush mode: the old records, then the `Split` records of the old buffer and those bytes), then what is left over as one last record when it is not empty |
| Pump.ChildStopsReading | src/main/net/polydawn/josh/Josh.java:203-214 | a child that reads one byte of a three-byte input and closes its stdin: the copier is aborted, the pipe received exactly that one byte, and the source keeps at most the last byte |
| Pump.ChildPrintsTwoLines | src/main/net/polydawn/josh/Josh.java:196-202 | a child that prints `A\nB` into a fresh `out(Collection<String>)`: the copy is drained and the collection receives exactly the records `A\n` and `B` |
| Josh.New | src/main/net/polydawn/josh/Josh.java:35-42 | no arguments, the given ambient environment, no working directory, the `DefaultIO` channels, and success on exit code 0 and nothing else |
| Josh.Args | src/main/net/polydawn/josh/Josh.java:67-75 | the old arguments followed by the new ones, lengths summed, other fields copied |
| Josh.ArgsTwice | src/main/net/polydawn/josh/Josh.java:67-75 | adding arguments in two calls equals adding them in one |
| Josh.Env | src/main/net/polydawn/josh/Josh.java:77-87 | a value binds the key, a null removes it, every other key keeps its binding; other fields copied |
| Josh.EnvMap | src/main/net/polydawn/josh/Josh.java:89-100 | each entry binds or removes its key; keys not mentioned keep their binding; other fields copied |
| Josh.EnvThenEnvMap | src/main/net/polydawn/josh/Josh.java:77-100 | one `env(key, value)` and then `env(map)` equals a single `env(map)` with that entry added, for a key the map does not mention |
| Josh.EnvInAnyOrder | src/main/net/polydawn/josh/Josh.java:93-97 | the entry-by-entry loop gives the same environment as `EnvMap` in whatever order it visits the entries |
| Josh.FilterEnv | src/main/net/polydawn/josh/Josh.java:102-110 | exactly the bindings whose key is allowed, values unchanged; other fields copied |
| Josh.FilterEnvTwice | src/main/net/polydawn/josh/Josh.java:102-110 | filtering twice keeps what both allow-lists allow |
| Josh.ClearEnv | src/main/net/polydawn/josh/Josh.java:112-116 | the empty environment; other fields copied |
| Josh.ClearIsEmptyFilter | src/main/net/polydawn/josh/Josh.java:102-116 | clearing equals filtering with an empty allow-list |
| Josh.Cwd | src/main/net/polydawn/josh/Josh.java:118-122 | the given directory (or none, meaning the JVM's own); other fields copied |
| Josh.Merge | src/main/net/polydawn/josh/Josh.java:126-129 | each channel set in the holder replaces the template's, and each empty one keeps it |
| Josh.MergeNothing | src/main/net/polydawn/josh/Josh.java:126-129 | an empty holder changes no channel |
| Josh.MergeTwice | src/main/net/polydawn/josh/Josh.java:124-131 | merging two holders in turn equals merging their overlay |
| Josh.WithOpts | src/main/net/polydawn/josh/Josh.java:124-131 | only the channels the holder sets are replaced, and all other fields are copied; an empty holder leaves the template as it is |
| Josh.OkExit | src/main/net/polydawn/josh/Josh.java:140-144 | exactly the given codes count as success, so 0 only if listed; other fields copied |
| Josh.OkExitInts | src/main/net/polydawn/josh/Josh.java:133-138 | boxing the `int` codes one by one gives the same template as `okExit(Integer...)` with the same codes |
| Josh.RedirectIn | src/main/net/polydawn/josh/Josh.java:156 | stdin is inherited exactly when it holds the `System.in` object itself |
| Josh.RedirectOut | src/main/net/polydawn/josh/Josh.java:157-158 | stdout (stderr) is inherited exactly when it holds the `System.out` (`System.err`) object itself |
| Josh.IntendedRedirectIn | src/main/net/polydawn/josh/Opts.java:137-145 | stdin is inherited exactly for `System.in` or a magic stream, and the rule agrees with the written one on every other stream |
| Josh.IntendedRedirectOut | src/main/net/polydawn/josh/Opts.java:350-358 | stdout/stderr is inherited exactly for the JVM's own stream or a magic stream, and the rule agrees with the written one elsewhere |
| Josh.MagicInputIsPumped | src/main/net/polydawn/josh/Josh.java:156 | a magic input stream gets a pipe under the written rule, though it asks for inheritance |
| Josh.MagicOutputIsPumped | src/main/net/polydawn/josh/Josh.java:157-158 | a magic output stream gets a pipe under the written rule, though it asks for inheritance |
| Josh.Start | src/main/net/polydawn/josh/Josh.java:146-158 | argv is the command followed by the arguments, of length arguments + 1; the child gets exactly the template's environment and directory; each channel is inherited or piped by the written rule |
| Josh.Complete | src/main/net/polydawn/josh/Josh.java:164-173 | the future yields the exit code exactly when the code is accepted, and otherwise fails naming the command and the code |
| Josh.DefaultAcceptsOnlyZero | src/main/net/polydawn/josh/Josh.java:41 | a new template succeeds on 0 and on no other code |
| Josh.OkExitReplacesDefault | src/main/net/polydawn/josh/Josh.java:61-65 | after `okExit` with a list that lacks 0, exit code 0 is rejected |

## Left out

- Spawning and waiting for the process are not modelled: `ProcessBuilder.start`,
  `proc.waitFor`, the `FutureTask` and the copier threads with their joins
  (`Josh.java:152-176, 196-218`). `Start` returns the launch decisions. `Complete` is the
  value the future takes once the child has exited with a given code.
- The copier thread runs sequentially inside `IoCopy`. The three copiers of one launch
  are not run side by side.
- `System.getenv()` is a parameter of `Josh.New`. `Opts.DefaultIO` is a shared mutable
  object in Java, and `new Josh(cmd)` keeps a reference to it. `Josh.New` takes a
  snapshot of its three channels instead, so a later setter on `DefaultIO` would reach
  Java templates but not the model's.
- `Opts.DefaultIO`, `DirectIO` and `NullIO` are static singletons in Java. The model
  builds a fresh holder in each of `Opts.DefaultIO`, `Opts.DirectIO` and `Opts.NullIO`.
- UTF-8 encoding and decoding are left out, because they are library calls:
  - `in(String)` and `in(Queue<String>)` take each string as its bytes.
  - `OutputStringer` records are kept as bytes and never decoded to strings.
- `printStackTrace` calls in `iocopy` are not modelled (they only log).
- User-supplied `InputStream`/`OutputStream` classes are foreign code. `in(InputStream)`,
  `out(OutputStream)` and `err(OutputStream)` accept only the stream kinds modelled here.
- The wrappers around the JVM's stdio are modelled as follows:
  - `close()` is ignored.
  - Reads and writes reach a `ByteSource` (standard input) or a `Terminal` (a `PrintStream`).
  - A `Terminal` keeps every in-range write, because `PrintStream` swallows I/O errors.
  - Their `equals`/`hashCode` delegation is left out.
- Pump.IoCopy: does not cover a pump into the raw `System.out`/`System.err` objects. That
  case happens only with `out(System.err)` or `err(System.out)`. Standard input is never
  pumped, because the only way to bind `System.in` itself is to have it inherited.
- Stream behaviours left out:
  - A read of a pipe returns as many bytes as are available, up to the requested length.
    A real pipe may return fewer.
  - The `BufferedOutputStream` in front of the child's stdin is left out.
  - Reading a pipe after it is closed is left out (the copier never does so).
- The `Queue` given to `in(Queue<String>)` is shared with its caller, who may keep adding
  to it while the child runs. `InputStringer` holds the queue's contents as a sequence,
  so late additions are not modelled.
- The getters `in()`, `out()` and `err()` (`Opts.java:67-77`) are field reads; the model
  reads the fields directly. `read(byte[])` and `write(byte[])` are covered by the three-argument
  forms they delegate to.
- Exit codes and array offsets are unbounded integers. The `(off + len) < 0` overflow
  guard in `OutputStringer.write` rejects exactly the ranges that `off + len > b.length`
  rejects once overflow is impossible.
- `okExit(Integer...)` with a `null` element is not modelled.
- Josh.Complete: keeps the command and the code of the failure, not the text of the
  `ExecutionException` message.
- `WithCwd.java` (working-directory scratch space) and the integration tests are
  filesystem plumbing and timing demos, not core logic.
- `okExit` has no accept-any value, so an empty list accepts nothing.
- `new Josh("")` is not rejected.
- A `null` cwd starts the child in the JVM process's own directory; `WithCwd` changes only
  `user.dir`, which the child does not see.
- Josh.OkExit: `okExit(Integer...)` (`Josh.java:142`) keeps a list view over the caller's
  array, so a later write to that array changes which exit codes the template accepts. The
  model copies the codes when the builder is called.
- Opts.Opts.InBytes: `in(byte[])` (`Opts.java:117-119`) wraps the caller's array without
  copying it, so a later write to that array changes the child's input. The model copies
  the bytes when the setter is called.

## Findings

| source | as written | input that shows it | evidently intended | confidence | as-written member | corrected member |
|---|---|---|---|---|---|---|
| src/main/net/polydawn/josh/Josh.java:156-158 | a channel is inherited only when it holds the `System.in`/`out`/`err` object itself, so the magic streams installed by `in_direct()`, `out_direct()` and `err_direct()` get a pipe and a copier | `opts(Opts.DirectIO)`: every channel is piped; the child's stdin is closed at once (the magic stream reads end of stream) and its output is discarded | the magic streams ask for `Redirect.INHERIT`, as their doc comments at `Opts.java:137-145` and `350-358` say | not executed | Josh.RedirectIn, Josh.RedirectOut, Josh.MagicInputIsPumped, Josh.MagicOutputIsPumped | Josh.IntendedRedirectIn, Josh.IntendedRedirectOut |
| src/main/net/polydawn/josh/Opts.java:171-174 | `read()` returns `buffer.get()`, a signed byte, and calls `get()` right after `pump()` has taken a string off the queue | queue `"é"`: `read()` returns -61, not 195; queue `""`, `"A"`: `read()` throws `BufferUnderflowException` | the next byte as 0..255, moving past empty strings, -1 only at the end | not executed | Streams.InputStringer.Read, Streams.ReadByteNonAsciiIsNegative, Streams.ReadByteEmptyStringUnderflows | Streams.ReadByteIntended |
| src/main/net/polydawn/josh/Opts.java:455-459 | `write(int b)` stores the low eight bits of `b` but compares the whole `int` with the sign-extended break byte | `write(266)` with the default `'\n'`; or break byte `(byte) 0xFF` and `write(255)`: the break byte is buffered and no record is emitted | a record ends when the byte actually stored is the break byte, as in the bulk `write` | not executed | Streams.OutputStringer.WriteInt, Records.StepIntMissesBreakAbove255, Records.StepIntMissesHighBreakByte | Records.StepIntIntended |
