/**
 * `Josh`: the command template. Every builder copies the template, replaces one field and
 * returns the copy, so the template is a datatype value and each builder a function on it
 * (an array a caller hands to a builder is copied, where the Java keeps a view of it).
 * `Start` turns a template into what the process launcher is handed: the argument vector,
 * the environment, the working directory and, per channel, whether the child inherits the
 * JVM's own descriptor or gets a pipe that a copier pumps. `Complete` judges the child's
 * exit code.
 */
module Josh {
  import opened Bytes
  import opened Streams
  import opened Opts

  /** The stream bound to each of the child's three standard channels. */
  datatype Channels = Channels(stdin: Input, stdout: Output, stderr: Output)

  /** A command template. `cwd == None` is Java's `null`: the child starts where the JVM runs. */
  datatype Template = Template(
    cmd: string,
    args: seq<string>,
    env: map<string, string>,
    cwd: Option<string>,
    opts: Channels,
    okExit: seq<int>)

  /** Whether `code` counts as success for `t`. */
  predicate Accepts(t: Template, code: int)
  {
    code in t.okExit
  }

  /**
   * `new Josh(cmd)`: no arguments, the JVM's environment (given here as `ambientEnv`),
   * no working directory, the three channels of `Opts.DefaultIO`, and only exit code 0
   * accepted.
   */
  function New(cmd: string, ambientEnv: map<string, string>,
               systemIn: ByteSource, systemOut: Terminal, systemErr: Terminal): (t: Template)
    ensures t.cmd == cmd && t.args == [] && t.env == ambientEnv && t.cwd == None
    ensures t.opts == Channels(PassIn(systemIn), PassOut(systemOut), PassOut(systemErr))
    ensures forall code :: Accepts(t, code) <==> code == 0
  {
    Template(cmd, [], ambientEnv, None,
             Channels(PassIn(systemIn), PassOut(systemOut), PassOut(systemErr)), [0])
  }

  /** `args(more...)`: the old arguments, then `more`, in order. */
  function Args(t: Template, more: seq<string>): (r: Template)
    ensures r == t.(args := r.args)
    ensures |r.args| == |t.args| + |more|
    ensures r.args[..|t.args|] == t.args && r.args[|t.args|..] == more
  {
    t.(args := t.args + more)
  }

  /** Adding arguments in two calls is adding them in one. */
  lemma ArgsTwice(t: Template, a: seq<string>, b: seq<string>)
    ensures Args(Args(t, a), b) == Args(t, a + b)
  {
  }

  /**
   * `env(key, value)`: a value binds `key`, `None` (Java's `null`) removes it; every other
   * key keeps its binding.
   */
  function Env(t: Template, key: string, value: Option<string>): (r: Template)
    ensures r == t.(env := r.env)
    ensures value.Some? ==> key in r.env && r.env[key] == value.value
    ensures value.None? ==> key !in r.env
    ensures forall k :: k != key ==> (k in r.env <==> k in t.env)
    ensures forall k :: k != key && k in t.env ==> r.env[k] == t.env[k]
  {
    if value.Some? then t.(env := t.env[key := value.value])
    else t.(env := t.env - {key})
  }

  /**
   * `env(moreEnv)`: each entry of `more` acts as `env(key, value)` would; keys `more` does
   * not mention keep their binding.
   */
  function EnvMap(t: Template, more: map<string, Option<string>>): (r: Template)
    ensures r == t.(env := r.env)
    ensures forall k :: k in more && more[k].Some? ==> k in r.env && r.env[k] == more[k].value
    ensures forall k :: k in more && more[k].None? ==> k !in r.env
    ensures forall k :: k !in more ==> (k in r.env <==> k in t.env)
    ensures forall k :: k !in more && k in t.env ==> r.env[k] == t.env[k]
  {
    t.(env := map k | k in t.env.Keys + more.Keys && (k in more ==> more[k].Some?)
                   :: if k in more then more[k].value else t.env[k])
  }

  /** The Java loop of `env(moreEnv)`: `env(key, value)` for each entry, in iteration order. */
  function EnvEach(t: Template, entries: seq<(string, Option<string>)>): Template
    decreases |entries|
  {
    if entries == [] then t else EnvEach(Env(t, entries[0].0, entries[0].1), entries[1..])
  }

  /** `entries` lists exactly the entries of `more`, each key once, in some order. */
  ghost predicate Enumerates(entries: seq<(string, Option<string>)>, more: map<string, Option<string>>)
  {
    && (forall i, j :: 0 <= i < j < |entries| ==> entries[i].0 != entries[j].0)
    && (forall i :: 0 <= i < |entries| ==> entries[i].0 in more && more[entries[i].0] == entries[i].1)
    && (forall k :: k in more ==> exists i :: 0 <= i < |entries| && entries[i].0 == k)
  }

  /** One `env(key, value)` and then `env(more)`, for a key `more` does not mention. */
  lemma EnvThenEnvMap(t: Template, key: string, value: Option<string>, more: map<string, Option<string>>)
    requires key !in more
    ensures EnvMap(Env(t, key, value), more) == EnvMap(t, more[key := value])
  {
  }

  /** Nothing enumerates a non-empty map. */
  lemma EnumeratesNothing(more: map<string, Option<string>>)
    requires Enumerates([], more)
    ensures more == map[]
  {
  }

  /** After its first entry, an enumeration lists the rest of the map. */
  lemma EnumeratesTail(entries: seq<(string, Option<string>)>, more: map<string, Option<string>>)
    requires entries != [] && Enumerates(entries, more)
    ensures Enumerates(entries[1..], more - {entries[0].0})
    ensures (more - {entries[0].0})[entries[0].0 := entries[0].1] == more
  {
  }

  /**
   * The order in which `env(moreEnv)` visits the map's entries does not matter: any
   * enumeration of `more` gives the same environment as `EnvMap`.
   */
  lemma {:induction false} EnvInAnyOrder(t: Template, entries: seq<(string, Option<string>)>,
                                         more: map<string, Option<string>>)
    requires Enumerates(entries, more)
    ensures EnvEach(t, entries) == EnvMap(t, more)
    decreases |entries|
  {
    if entries == [] {
      EnumeratesNothing(more);
      var r := EnvMap(t, more);
      assert r.env.Keys == t.env.Keys;
    } else {
      var key, value := entries[0].0, entries[0].1;
      var rest := more - {key};
      EnumeratesTail(entries, more);
      EnvInAnyOrder(Env(t, key, value), entries[1..], rest);
      EnvThenEnvMap(t, key, value, rest);
    }
  }

  /** `filterEnv(allowedKeys)`: exactly the bindings whose key is allowed, values unchanged. */
  function FilterEnv(t: Template, allowed: set<string>): (r: Template)
    ensures r == t.(env := r.env)
    ensures forall k :: k in r.env <==> k in t.env && k in allowed
    ensures forall k :: k in r.env ==> r.env[k] == t.env[k]
  {
    t.(env := map k | k in t.env && k in allowed :: t.env[k])
  }

  /** Filtering twice keeps what both filters allow. */
  lemma FilterEnvTwice(t: Template, a: set<string>, b: set<string>)
    ensures FilterEnv(FilterEnv(t, a), b) == FilterEnv(t, a * b)
  {
  }

  /** `clearEnv()`: the empty environment. */
  function ClearEnv(t: Template): (r: Template)
    ensures r == t.(env := r.env) && r.env == map[]
  {
    t.(env := map[])
  }

  /** Clearing is filtering with no key allowed. */
  lemma ClearIsEmptyFilter(t: Template)
    ensures ClearEnv(t) == FilterEnv(t, {})
  {
  }

  /** `cwd(newCwd)`: the child's working directory; `None` leaves it to the operating system. */
  function Cwd(t: Template, dir: Option<string>): (r: Template)
    ensures r == t.(cwd := r.cwd) && r.cwd == dir
  {
    t.(cwd := dir)
  }

  /** Channels `s` sets replace those of `c`; channels `s` leaves `None` keep their stream. */
  function Merge(c: Channels, s: Slots): (m: Channels)
    ensures m.stdin == (if s.stdin.Some? then s.stdin.value else c.stdin)
    ensures m.stdout == (if s.stdout.Some? then s.stdout.value else c.stdout)
    ensures m.stderr == (if s.stderr.Some? then s.stderr.value else c.stderr)
  {
    Channels(
      if s.stdin.Some? then s.stdin.value else c.stdin,
      if s.stdout.Some? then s.stdout.value else c.stdout,
      if s.stderr.Some? then s.stderr.value else c.stderr)
  }

  /** What an `Opts` holder whose slots are `b` sets over one whose slots are `a`. */
  function Overlay(a: Slots, b: Slots): Slots
  {
    Slots(if b.stdin.Some? then b.stdin else a.stdin,
          if b.stdout.Some? then b.stdout else a.stdout,
          if b.stderr.Some? then b.stderr else a.stderr)
  }

  /** An empty holder changes nothing. */
  lemma MergeNothing(c: Channels)
    ensures Merge(c, Slots(None, None, None)) == c
  {
  }

  /** Merging two holders one after the other is merging their overlay. */
  lemma MergeTwice(c: Channels, a: Slots, b: Slots)
    ensures Merge(Merge(c, a), b) == Merge(c, Overlay(a, b))
  {
  }

  /**
   * `opts(newOpts)`: a copy of the template's channels with each channel `newOpts` sets
   * replaced; the template keeps its own copy, so later setters on `newOpts` do not reach it.
   */
  function WithOpts(t: Template, o: Opts): (r: Template)
    reads o
    ensures r == t.(opts := r.opts)
    ensures r.opts == Merge(t.opts, o.Snapshot())
    ensures o.stdin.None? && o.stdout.None? && o.stderr.None? ==> r == t
  {
    t.(opts := Merge(t.opts, o.Snapshot()))
  }

  /** `okExit(codes...)`: exactly `codes` are accepted; 0 only if it is among them. */
  function OkExit(t: Template, codes: seq<int>): (r: Template)
    ensures r == t.(okExit := r.okExit)
    ensures forall code :: Accepts(r, code) <==> code in codes
  {
    t.(okExit := codes)
  }

  /** `okExit(int...)` boxes its codes one by one before delegating to `okExit(Integer...)`. */
  method OkExitInts(t: Template, codes: array<int>) returns (r: Template)
    ensures r == OkExit(t, codes[..])
  {
    var boxed := new int[codes.Length];
    for y := 0 to codes.Length
      invariant forall i :: 0 <= i < y ==> boxed[i] == codes[i]
    {
      boxed[y] := codes[y];
    }
    assert boxed[..] == codes[..];
    r := OkExit(t, boxed[..]);
  }

  /** How the launcher wires one of the child's channels. */
  datatype Redirect = Inherit | Pipe

  /**
   * The input rule as written: only the `System.in` object itself is inherited; every other
   * stream, a magic one included, gets a pipe and a copier.
   */
  function RedirectIn(i: Input): (r: Redirect)
    ensures r == Inherit <==> i.StdIn?
  {
    if i.StdIn? then Inherit else Pipe
  }

  /** The output rule as written: only `System.out` (or `System.err`) itself is inherited. */
  function RedirectOut(o: Output, system: Output): (r: Redirect)
    requires system.StdOut? || system.StdErr?
    ensures r == Inherit <==> o == system
  {
    if o == system then Inherit else Pipe
  }

  /** The input rule the magic stream is documented to request: it is inherited as well. */
  function IntendedRedirectIn(i: Input): (r: Redirect)
    ensures r == Inherit <==> i.StdIn? || i.MagicIn?
    ensures !i.MagicIn? ==> r == RedirectIn(i)
  {
    if i.StdIn? || i.MagicIn? then Inherit else Pipe
  }

  /** The output rule the magic stream is documented to request. */
  function IntendedRedirectOut(o: Output, system: Output): (r: Redirect)
    requires system.StdOut? || system.StdErr?
    ensures r == Inherit <==> o == system || o.MagicOut?
    ensures !o.MagicOut? ==> r == RedirectOut(o, system)
  {
    if o == system || o.MagicOut? then Inherit else Pipe
  }

  /** `in_direct()` asks for inheritance, yet the rule as written gives its stream a pipe. */
  lemma MagicInputIsPumped(m: MagicInputStream)
    ensures RedirectIn(MagicIn(m)) == Pipe
    ensures IntendedRedirectIn(MagicIn(m)) == Inherit
  {
  }

  /** Likewise `out_direct()` and `err_direct()`. */
  lemma MagicOutputIsPumped(m: MagicOutputStream)
    ensures RedirectOut(MagicOut(m), StdOut) == Pipe && RedirectOut(MagicOut(m), StdErr) == Pipe
    ensures IntendedRedirectOut(MagicOut(m), StdOut) == Inherit
    ensures IntendedRedirectOut(MagicOut(m), StdErr) == Inherit
  {
  }

  /** What `start()` hands the process launcher. */
  datatype Launch = Launch(
    argv: seq<string>,
    env: map<string, string>,
    cwd: Option<string>,
    stdin: Redirect,
    stdout: Redirect,
    stderr: Redirect)

  /**
   * The launch decisions of `start()`: `cmdarray` is the command then its arguments, the
   * environment is the template's whole map (the launcher's own is cleared first), and each
   * channel is inherited only when it holds the JVM's own stream object. `iocopy` is called
   * for exactly the channels that get a pipe (see `Pump.IoCopy`).
   */
  method Start(t: Template) returns (l: Launch)
    ensures |l.argv| == |t.args| + 1 && l.argv[0] == t.cmd && l.argv[1..] == t.args
    ensures l.env == t.env && l.cwd == t.cwd
    ensures l.stdin == RedirectIn(t.opts.stdin)
    ensures l.stdout == RedirectOut(t.opts.stdout, StdOut)
    ensures l.stderr == RedirectOut(t.opts.stderr, StdErr)
  {
    var cmdarray := new string[|t.args| + 1];
    cmdarray[0] := t.cmd;
    for i := 1 to cmdarray.Length
      invariant cmdarray[0] == t.cmd
      invariant forall j :: 1 <= j < i ==> cmdarray[j] == t.args[j - 1]
    {
      cmdarray[i] := t.args[i - 1];
    }
    assert cmdarray[1..] == t.args;
    l := Launch(cmdarray[..], t.env, t.cwd,
                if t.opts.stdin == StdIn then Inherit else Pipe,
                if t.opts.stdout == StdOut then Inherit else Pipe,
                if t.opts.stderr == StdErr then Inherit else Pipe);
  }

  /** How the future returned by `start()` completes. */
  datatype Outcome =
    | Exited(code: int)
    | Rejected(cmd: string, code: int)   // `ExecutionException("executing \"cmd\" returned code N")`

  /** The future's value once the child has exited with `code` and every copier has finished. */
  function Complete(t: Template, code: int): (o: Outcome)
    ensures o.Exited? <==> Accepts(t, code)
    ensures o.code == code
    ensures o.Rejected? ==> o.cmd == t.cmd
  {
    if code in t.okExit then Exited(code) else Rejected(t.cmd, code)
  }

  /** A template fresh from `New` succeeds on 0 and on nothing else. */
  lemma DefaultAcceptsOnlyZero(cmd: string, ambientEnv: map<string, string>,
                               systemIn: ByteSource, systemOut: Terminal, systemErr: Terminal, code: int)
    ensures Complete(New(cmd, ambientEnv, systemIn, systemOut, systemErr), code).Exited? <==> code == 0
  {
  }

  /** An explicit list replaces the default: 0 is rejected unless it is listed. */
  lemma OkExitReplacesDefault(t: Template, codes: seq<int>)
    requires 0 !in codes
    ensures Complete(OkExit(t, codes), 0) == Rejected(t.cmd, 0)
  {
  }
}
