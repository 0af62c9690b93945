/** The simulated runtime: compiling a manifest and executing it within a budget. */
module Simulation {
  import opened Common
  import opened Executions

  type Rune = int

  datatype Program = Program(
    operation: string,
    instructionCost: nat,
    memoryPages: nat,
    stackBytes: nat,
    delayMillis: int,
    outputRepeat: int,
    exitCode: int)

  datatype Compiled = Compiled(digest: string, version: string, program: Program)

  /** The functions the service takes from its libraries: SHA-256 as a digest string, the JSON
      manifest decoder, the text operations, and white-space trimming. */
  datatype Library = Library(
    digest: Bytes -> string,
    manifest: Bytes -> Option<Program>,
    upper: Bytes -> Bytes,
    hash: Bytes -> Bytes,
    sum: Bytes -> Option<Bytes>,
    runes: Bytes -> seq<Rune>,
    utf8: seq<Rune> -> Bytes,
    blank: string -> bool)

  ghost predicate CollisionFree(lib: Library) {
    forall a: Bytes, b: Bytes :: lib.digest(a) == lib.digest(b) ==> a == b
  }

  datatype CompileResult = Ready(compiled: Compiled) | Rejected(fault: Fault)

  function ContextFault(ctx: Ctx): Fault {
    match ctx
    case Live => NoFault
    case Canceled => ContextCanceled
    case Expired => ContextExpired
  }

  function WithDefaults(p: Program): Program {
    p.(
      operation := if p.operation == "" then "echo" else p.operation,
      instructionCost := if p.instructionCost == 0 then 100 else p.instructionCost,
      memoryPages := if p.memoryPages == 0 then 1 else p.memoryPages,
      stackBytes := if p.stackBytes == 0 then 4096 else p.stackBytes,
      outputRepeat := if p.outputRepeat < 1 then 1 else p.outputRepeat)
  }

  predicate Supported(operation: string) {
    operation in ["echo", "upper", "sum", "hash", "reverse", "fail"]
  }

  /** Compile on a live context with the runtime open. */
  function Translate(lib: Library, version: string, content: Bytes, digest: string): CompileResult {
    var actual := lib.digest(content);
    if digest != "" && digest != actual then Rejected(DigestMismatch) else
    match lib.manifest(content)
    case None => Rejected(Undecodable)
    case Some(p) =>
      if Supported(WithDefaults(p).operation) then Ready(Compiled(actual, version, WithDefaults(p)))
      else Rejected(UnsupportedOperation)
  }

  function Compile(lib: Library, version: string, closed: bool, ctx: Ctx, content: Bytes,
      digest: string): CompileResult {
    if ctx != Live then Rejected(ContextFault(ctx))
    else if closed then Rejected(RuntimeClosed)
    else Translate(lib, version, content, digest)
  }

  datatype Result = Result(output: Bytes, exitCode: int, truncated: bool, usage: Usage)

  const NO_RESULT := Result([], 0, false, NO_USAGE)

  /** `Crashed` is the panic of slicing the output at a negative limit. */
  datatype Outcome = Done(result: Result) | Stopped(result: Result, fault: Fault) | Crashed

  function Reversed<T>(s: seq<T>): seq<T> {
    if s == [] then [] else Reversed(s[1..]) + [s[0]]
  }

  lemma {:induction false} ReversedAt<T>(s: seq<T>, k: nat)
    requires k < |s|
    ensures |Reversed(s)| == |s| && Reversed(s)[k] == s[|s| - 1 - k]
  {
    if |s| > 1 { ReversedAt(s[1..], if k < |s| - 1 then k else 0); }
  }

  /** The bytes an operation produces before repetition; None when it fails. */
  function Produce(lib: Library, operation: string, payload: Bytes): Option<Bytes> {
    if operation == "echo" then Some(payload)
    else if operation == "upper" then Some(lib.upper(payload))
    else if operation == "reverse" then Some(lib.utf8(Reversed(lib.runes(payload))))
    else if operation == "hash" then Some(lib.hash(payload))
    else if operation == "sum" then lib.sum(payload)
    else Some([])
  }

  function Repeat(out: Bytes, n: nat): Bytes {
    if n == 0 then [] else out + Repeat(out, n - 1)
  }

  function Times(p: Program): nat {
    if p.outputRepeat < 0 then 0 else p.outputRepeat
  }

  /** `ctx` is what a delay, if any, ended with; `cpu` is the time measured. */
  function Execute(lib: Library, closed: bool, ctx: Ctx, m: Compiled, entry: string, payload: Bytes, b: Budget,
      cpu: nat): Outcome {
    var p := m.program;
    if closed then Stopped(NO_RESULT, RuntimeClosed)
    else if entry == "" then Stopped(NO_RESULT, NoEntry)
    else if p.instructionCost > b.maxInstructions then
      Stopped(NO_RESULT.(usage := NO_USAGE.(instructions := p.instructionCost)), InstructionLimit)
    else if p.memoryPages > b.maxMemoryPages then
      Stopped(NO_RESULT.(usage := NO_USAGE.(memoryPages := p.memoryPages)), MemoryLimit)
    else if p.stackBytes > b.maxStackBytes then Stopped(NO_RESULT, StackLimit)
    else if p.delayMillis > 0 && ctx != Live then Stopped(NO_RESULT, ContextFault(ctx))
    else if p.operation == "fail" then
      Stopped(Result([], if p.exitCode > 1 then p.exitCode else 1, false,
                     Usage(p.instructionCost, p.memoryPages, cpu, 0)), Trap)
    else
      match Produce(lib, p.operation, payload)
      case None => Stopped(NO_RESULT, OperationFailed)
      case Some(out) =>
        var full := Repeat(out, Times(p));
        if |full| <= b.maxOutputBytes then
          Done(Result(full, p.exitCode, false, Usage(p.instructionCost, p.memoryPages, cpu, |full|)))
        else if b.maxOutputBytes < 0 then Crashed
        else
          Done(Result(full[..b.maxOutputBytes], p.exitCode, true,
                      Usage(p.instructionCost, p.memoryPages, cpu, b.maxOutputBytes)))
  }

  // ---- Budget soundness of one execution ----

  lemma {:induction false} RepeatAt(out: Bytes, n: nat, i: nat)
    requires i < |Repeat(out, n)|
    ensures out != [] && Repeat(out, n)[i] == out[i % |out|]
  {
    if i >= |out| {
      RepeatAt(out, n - 1, i - |out|);
      assert (i - |out|) % |out| == i % |out| by { SubtractOnce(i, |out|); }
    }
  }

  lemma RemainderIs(x: int, n: int, q: int, r: int)
    requires 0 <= r < n && x == q * n + r
    ensures x % n == r
  {
    var d := q - x / n;
    assert x == x / n * n + x % n;
    assert d * n == x % n - r;
    WholeMultiples(d, n);
  }

  lemma WholeMultiples(d: int, n: int)
    requires n > 0
    ensures d > 0 ==> d * n >= n
    ensures d < 0 ==> d * n <= -n
  {
  }

  lemma SubtractOnce(i: nat, n: nat)
    requires 0 < n <= i
    ensures (i - n) % n == i % n
  {
    var q := i / n;
    assert q * n == (q - 1) * n + n;
    RemainderIs(i - n, n, q - 1, i % n);
  }

  lemma {:induction false} RepeatLength(out: Bytes, n: nat)
    ensures |Repeat(out, n)| == n * |out|
  {
    if n > 0 {
      RepeatLength(out, n - 1);
      assert (n - 1) * |out| + |out| == n * |out|;
    }
  }

  // ---- What an operation gives, by its name ----

  predicate Mirrors(a: seq<Rune>, b: seq<Rune>) {
    |a| == |b| && forall k :: 0 <= k < |a| ==> a[k] == b[|b| - 1 - k]
  }

  /** These are the bytes the operation of this name makes of the payload. */
  ghost predicate Renders(lib: Library, operation: string, payload: Bytes, out: Bytes) {
    && (operation == "echo" ==> out == payload)
    && (operation == "upper" ==> out == lib.upper(payload))
    && (operation == "hash" ==> out == lib.hash(payload))
    && (operation == "sum" ==> lib.sum(payload) == Some(out))
    && (operation == "reverse" ==> exists text :: Mirrors(text, lib.runes(payload)) && out == lib.utf8(text))
    && operation != "fail"
  }

  /** It gives any at all: only `fail` never does, and only `sum` may not. */
  predicate Works(lib: Library, operation: string, payload: Bytes) {
    operation != "fail" && (operation == "sum" ==> lib.sum(payload).Some?)
  }

  /** The bytes repeated the given number of times, cut at the limit. */
  predicate Cut(out: Bytes, times: nat, limit: int, output: Bytes, truncated: bool) {
    && (truncated <==> times * |out| > limit)
    && |output| == (if truncated then limit else times * |out|)
    && forall i :: 0 <= i < |output| ==> out != [] && output[i] == out[i % |out|]
  }

  /** The output is what the program's operation makes of the payload, repeated and cut. */
  ghost predicate Yields(lib: Library, p: Program, payload: Bytes, limit: int, output: Bytes, truncated: bool) {
    exists out :: Renders(lib, p.operation, payload, out) && Cut(out, Times(p), limit, output, truncated)
  }

  lemma ReversedMirrors(s: seq<Rune>)
    ensures Mirrors(Reversed(s), s)
  {
    forall k | 0 <= k < |s| ensures |Reversed(s)| == |s| && Reversed(s)[k] == s[|s| - 1 - k] {
      ReversedAt(s, k);
    }
    if s == [] { assert Reversed(s) == []; }
  }

  lemma ProducedRenders(lib: Library, operation: string, payload: Bytes)
    requires operation != "fail"
    ensures Produce(lib, operation, payload).Some? <==> Works(lib, operation, payload)
    ensures Produce(lib, operation, payload).Some? ==>
              Renders(lib, operation, payload, Produce(lib, operation, payload).value)
  {
    if operation == "reverse" {
      ReversedMirrors(lib.runes(payload));
      assert Mirrors(Reversed(lib.runes(payload)), lib.runes(payload));
    }
  }

  lemma RepeatedIsCut(out: Bytes, times: nat, limit: int)
    requires limit >= 0
    ensures var full := Repeat(out, times);
            if |full| <= limit then Cut(out, times, limit, full, false) else Cut(out, times, limit, full[..limit], true)
  {
    var full := Repeat(out, times);
    RepeatLength(out, times);
    forall i | 0 <= i < |full| ensures out != [] && full[i] == out[i % |out|] {
      RepeatAt(out, times, i);
    }
  }

  /** What a completed execution is: demands within the budget and reported as used, the measured
      time, the program's exit code, and for output what its operation makes of the payload by its
      name, repeated and cut at the limit. */
  lemma DoneIsWithinBudget(lib: Library, closed: bool, ctx: Ctx, m: Compiled, entry: string, payload: Bytes, b: Budget,
      cpu: nat)
    requires Execute(lib, closed, ctx, m, entry, payload, b, cpu).Done?
    ensures var r := Execute(lib, closed, ctx, m, entry, payload, b, cpu).result; var p := m.program;
            && r.usage.instructions == p.instructionCost <= b.maxInstructions
            && r.usage.memoryPages == p.memoryPages <= b.maxMemoryPages
            && p.stackBytes <= b.maxStackBytes
            && |r.output| == r.usage.outputBytes <= b.maxOutputBytes
            && r.usage.cpuTime == cpu && r.exitCode == p.exitCode
            && Yields(lib, p, payload, b.maxOutputBytes, r.output, r.truncated)
  {
    var r, p := Execute(lib, closed, ctx, m, entry, payload, b, cpu).result, m.program;
    ProducedRenders(lib, p.operation, payload);
    var out := Produce(lib, p.operation, payload).value;
    RepeatedIsCut(out, Times(p), b.maxOutputBytes);
    assert Renders(lib, p.operation, payload, out) && Cut(out, Times(p), b.maxOutputBytes, r.output, r.truncated);
  }

  predicate OverDemand(m: Compiled, b: Budget) {
    m.program.instructionCost > b.maxInstructions || m.program.memoryPages > b.maxMemoryPages ||
      m.program.stackBytes > b.maxStackBytes
  }

  predicate IsLimit(f: Fault) {
    f == InstructionLimit || f == MemoryLimit || f == StackLimit
  }

  /** An open runtime stops an execution for its resources exactly when the program demands
      more than a budget field. */
  lemma StopsForResourcesExactly(lib: Library, closed: bool, ctx: Ctx, m: Compiled, entry: string, payload: Bytes,
      b: Budget, cpu: nat)
    ensures var o := Execute(lib, closed, ctx, m, entry, payload, b, cpu);
            o.Stopped? && IsLimit(o.fault) <==> !closed && entry != "" && OverDemand(m, b)
  {
  }

  /** It is let in: the runtime is open and the entry given. */
  predicate Enters(closed: bool, entry: string) {
    !closed && entry != ""
  }

  /** It comes to a delay. */
  predicate Waits(closed: bool, m: Compiled, entry: string, b: Budget) {
    Enters(closed, entry) && !OverDemand(m, b) && m.program.delayMillis > 0
  }

  /** It comes to its operation: there is no delay, or it is waited out. */
  predicate Operates(closed: bool, ctx: Ctx, m: Compiled, entry: string, b: Budget) {
    Enters(closed, entry) && !OverDemand(m, b) && (m.program.delayMillis > 0 ==> ctx == Live)
  }

  /** What gets as far as producing output: an operation that gives some. */
  predicate Outputs(lib: Library, closed: bool, ctx: Ctx, m: Compiled, entry: string, payload: Bytes, b: Budget) {
    Operates(closed, ctx, m, entry, b) && Works(lib, m.program.operation, payload)
  }

  predicate StopsWith(o: Outcome, fault: Fault) {
    o.Stopped? && o.fault == fault
  }

  /** What is reported of an execution that stops: nothing but the demand that was too high, or what
      a program that is made to fail used and its exit code, which is at least one. */
  predicate ReportsStop(p: Program, cpu: nat, o: Outcome) {
    o.Stopped? ==>
      && o.result.output == [] && !o.result.truncated && o.result.usage.outputBytes == 0
      && o.result.usage.instructions
         == (if o.fault == InstructionLimit || o.fault == Trap then p.instructionCost else 0)
      && o.result.usage.memoryPages == (if o.fault == MemoryLimit || o.fault == Trap then p.memoryPages else 0)
      && o.result.usage.cpuTime == (if o.fault == Trap then cpu else 0)
      && (o.fault != Trap ==> o.result.exitCode == 0)
      && (o.fault == Trap ==> o.result.exitCode >= 1 && (p.exitCode >= 1 ==> o.result.exitCode == p.exitCode))
  }

  /** What stops an execution, for each way of stopping, and what is then reported. */
  lemma StopsExactly(lib: Library, closed: bool, ctx: Ctx, m: Compiled, entry: string, payload: Bytes, b: Budget,
      cpu: nat)
    ensures var o, p := Execute(lib, closed, ctx, m, entry, payload, b, cpu), m.program;
            && (StopsWith(o, RuntimeClosed) <==> closed)
            && (StopsWith(o, NoEntry) <==> !closed && entry == "")
            && (StopsWith(o, InstructionLimit) <==> Enters(closed, entry) && p.instructionCost > b.maxInstructions)
            && (StopsWith(o, MemoryLimit) <==>
                  Enters(closed, entry) && p.instructionCost <= b.maxInstructions && p.memoryPages > b.maxMemoryPages)
            && (StopsWith(o, StackLimit) <==>
                  && Enters(closed, entry) && p.instructionCost <= b.maxInstructions
                  && p.memoryPages <= b.maxMemoryPages && p.stackBytes > b.maxStackBytes)
            && (StopsWith(o, ContextCanceled) <==> Waits(closed, m, entry, b) && ctx == Canceled)
            && (StopsWith(o, ContextExpired) <==> Waits(closed, m, entry, b) && ctx == Expired)
            && (StopsWith(o, Trap) <==> Operates(closed, ctx, m, entry, b) && p.operation == "fail")
            && (StopsWith(o, OperationFailed) <==>
                  Operates(closed, ctx, m, entry, b) && p.operation == "sum" && lib.sum(payload).None?)
            && (!o.Stopped? <==> Outputs(lib, closed, ctx, m, entry, payload, b))
            && ReportsStop(p, cpu, o)
  {
  }

  /** An execution takes the process down exactly when it has output and its output limit is
      negative; with output and any other limit it completes. */
  lemma CrashesExactly(lib: Library, closed: bool, ctx: Ctx, m: Compiled, entry: string, payload: Bytes, b: Budget,
      cpu: nat)
    ensures var o := Execute(lib, closed, ctx, m, entry, payload, b, cpu);
            var out := Outputs(lib, closed, ctx, m, entry, payload, b);
            && (o.Crashed? <==> out && b.maxOutputBytes < 0)
            && (o.Done? <==> out && b.maxOutputBytes >= 0)
  {
  }

  /** What the operation's name says of an execution: its output, and when `sum` fails. */
  ghost predicate EndsByName(lib: Library, closed: bool, ctx: Ctx, m: Compiled, entry: string, payload: Bytes,
      b: Budget, o: Outcome) {
    && (o.Done? ==> Yields(lib, m.program, payload, b.maxOutputBytes, o.result.output, o.result.truncated))
    && (StopsWith(o, OperationFailed) <==>
          Operates(closed, ctx, m, entry, b) && m.program.operation == "sum" && lib.sum(payload).None?)
  }

  lemma ExecutesByName(lib: Library, closed: bool, ctx: Ctx, m: Compiled, entry: string, payload: Bytes, b: Budget,
      cpu: nat)
    ensures EndsByName(lib, closed, ctx, m, entry, payload, b,
                       Execute(lib, closed, ctx, m, entry, payload, b, cpu))
  {
    StopsExactly(lib, closed, ctx, m, entry, payload, b, cpu);
    if Execute(lib, closed, ctx, m, entry, payload, b, cpu).Done? {
      DoneIsWithinBudget(lib, closed, ctx, m, entry, payload, b, cpu);
    }
  }

  /** A field left at zero, or the operation left out, takes its default; any other stays. */
  predicate Completes(given: Program, p: Program) {
    && p.operation == (if given.operation == "" then "echo" else given.operation)
    && (given.instructionCost == 0 ==> p.instructionCost == 100)
    && (given.instructionCost != 0 ==> p.instructionCost == given.instructionCost)
    && (given.memoryPages == 0 ==> p.memoryPages == 1)
    && (given.memoryPages != 0 ==> p.memoryPages == given.memoryPages)
    && (given.stackBytes == 0 ==> p.stackBytes == 4096) && (given.stackBytes != 0 ==> p.stackBytes == given.stackBytes)
    && (given.outputRepeat < 1 ==> p.outputRepeat == 1)
    && (given.outputRepeat >= 1 ==> p.outputRepeat == given.outputRepeat)
    && p.delayMillis == given.delayMillis && p.exitCode == given.exitCode
  }

  /** Content compiles exactly when its digest is the one given, if one is, it decodes, and its
      operation is one of six or left out; the error is that of the first that is not so. */
  lemma CompilesExactly(lib: Library, version: string, content: Bytes, digest: string)
    ensures var made, fits := Translate(lib, version, content, digest), digest == "" || digest == lib.digest(content);
            var given := lib.manifest(content);
            && (made == Rejected(DigestMismatch) <==> !fits)
            && (made == Rejected(Undecodable) <==> fits && given.None?)
            && (made.Ready? || made == Rejected(UnsupportedOperation) <==> fits && given.Some?)
            && (made.Ready? ==> given.value.operation in {"", "echo", "upper", "sum", "hash", "reverse", "fail"})
            && (made == Rejected(UnsupportedOperation) ==>
                  given.value.operation !in {"", "echo", "upper", "sum", "hash", "reverse", "fail"})
    ensures forall closed, ctx ::
              var made := Compile(lib, version, closed, ctx, content, digest);
              && (made == Rejected(ContextCanceled) <==> ctx == Canceled)
              && (made == Rejected(ContextExpired) <==> ctx == Expired)
              && (made == Rejected(RuntimeClosed) <==> ctx == Live && closed)
              && (made == Translate(lib, version, content, digest) <==> ctx == Live && !closed)
  {
  }

  /** What is compiled is the program given, its defaults filled in. */
  lemma TranslatedIsRunnable(lib: Library, version: string, content: Bytes, digest: string)
    requires Translate(lib, version, content, digest).Ready?
    ensures var c := Translate(lib, version, content, digest).compiled;
            && c.digest == lib.digest(content) && c.version == version
            && (digest == "" || digest == c.digest)
            && c.program.outputRepeat >= 1 && c.program.instructionCost >= 1
            && c.program.memoryPages >= 1 && c.program.stackBytes >= 1
            && Supported(c.program.operation)
            && lib.manifest(content).Some? && Completes(lib.manifest(content).value, c.program)
  {
  }
}
