/** The simulated runtime as an object: its own version, open or closed, and a counter of the
    executions in progress. */
module Simulators {
  import opened Common
  import opened Executions
  import opened S = Simulation

  /** The swapping loop of the reverse operation, in place. */
  method ReverseInPlace(r: array<Rune>)
    modifies r
    ensures r[..] == Reversed(old(r[..]))
  {
    var i, j := 0, r.Length - 1;
    while i < j
      invariant 0 <= i && i + j == r.Length - 1 && j >= i - 1
      invariant forall k :: 0 <= k < i ==> r[k] == old(r[r.Length - 1 - k]) && r[r.Length - 1 - k] == old(r[k])
      invariant forall k :: i <= k <= j ==> r[k] == old(r[k])
    {
      r[i], r[j] := r[j], r[i];
      i, j := i + 1, j - 1;
    }
    ghost var was := old(r[..]);
    forall k | 0 <= k < |was| ensures |Reversed(was)| == |was| && r[..][k] == Reversed(was)[k] {
      ReversedAt(was, k);
    }
    if was == [] { assert r[..] == []; }
  }

  class Simulator {
    const lib: Library
    const version: string
    var active: int
    var closed: bool

    constructor (lib: Library, version: string)
      ensures this.lib == lib && active == 0 && !closed
      ensures this.version == if version == "" then "sim/v1" else version
    {
      this.lib := lib;
      this.version := if version == "" then "sim/v1" else version;
      active, closed := 0, false;
    }

    method Compile(ctx: Ctx, content: Bytes, digest: string) returns (res: CompileResult)
      ensures res == S.Compile(lib, version, closed, ctx, content, digest)
    {
      if ctx != Live { return Rejected(ContextFault(ctx)); }
      if closed { return Rejected(RuntimeClosed); }
      var actualDigest := lib.digest(content);
      if digest != "" && digest != actualDigest { return Rejected(DigestMismatch); }
      var decoded := lib.manifest(content);
      if decoded.None? { return Rejected(Undecodable); }
      var p := decoded.value;
      if p.operation == "" { p := p.(operation := "echo"); }
      if p.instructionCost == 0 { p := p.(instructionCost := 100); }
      if p.memoryPages == 0 { p := p.(memoryPages := 1); }
      if p.stackBytes == 0 { p := p.(stackBytes := 4096); }
      if p.outputRepeat < 1 { p := p.(outputRepeat := 1); }
      if !Supported(p.operation) { return Rejected(UnsupportedOperation); }
      return Ready(Compiled(actualDigest, version, p));
    }

    method Execute(ctx: Ctx, m: Compiled, entry: string, payload: Bytes, budget: Budget, cpu: nat) returns (o: Outcome)
      modifies this`active
      ensures o == S.Execute(lib, closed, ctx, m, entry, payload, budget, cpu)
      ensures active == old(active)
      ensures EndsByName(lib, closed, ctx, m, entry, payload, budget, o)
    {
      ExecutesByName(lib, closed, ctx, m, entry, payload, budget, cpu);
      if closed { return Stopped(NO_RESULT, RuntimeClosed); }
      if entry == "" { return Stopped(NO_RESULT, NoEntry); }
      var p := m.program;
      if p.instructionCost > budget.maxInstructions {
        return Stopped(NO_RESULT.(usage := NO_USAGE.(instructions := p.instructionCost)), InstructionLimit);
      }
      if p.memoryPages > budget.maxMemoryPages {
        return Stopped(NO_RESULT.(usage := NO_USAGE.(memoryPages := p.memoryPages)), MemoryLimit);
      }
      if p.stackBytes > budget.maxStackBytes { return Stopped(NO_RESULT, StackLimit); }
      active := active + 1;
      o := Perform(ctx, p, payload, budget, cpu);
      active := active - 1;
    }

    /** The part of Execute that runs while the execution counts as active. */
    method Perform(ctx: Ctx, p: Program, payload: Bytes, budget: Budget, cpu: nat) returns (o: Outcome)
      requires p.instructionCost <= budget.maxInstructions
      requires p.memoryPages <= budget.maxMemoryPages && p.stackBytes <= budget.maxStackBytes
      ensures o == S.Execute(lib, false, ctx, Compiled("", "", p), "run", payload, budget, cpu)
    {
      if p.delayMillis > 0 && ctx != Live { return Stopped(NO_RESULT, ContextFault(ctx)); }
      var out: Bytes := [];
      if p.operation == "echo" {
        out := payload;
      } else if p.operation == "upper" {
        out := lib.upper(payload);
      } else if p.operation == "reverse" {
        var text := lib.runes(payload);
        var r := new Rune[|text|](i requires 0 <= i < |text| => text[i]);
        assert r[..] == text;
        ReverseInPlace(r);
        out := lib.utf8(r[..]);
      } else if p.operation == "hash" {
        out := lib.hash(payload);
      } else if p.operation == "sum" {
        var total := lib.sum(payload);
        if total.None? { return Stopped(NO_RESULT, OperationFailed); }
        out := total.value;
      } else if p.operation == "fail" {
        return Stopped(Result([], if p.exitCode > 1 then p.exitCode else 1, false,
                              Usage(p.instructionCost, p.memoryPages, cpu, 0)), Trap);
      }
      out := Repeat(out, Times(p));
      var truncated := false;
      if |out| > budget.maxOutputBytes {
        if budget.maxOutputBytes < 0 { return Crashed; }
        out := out[..budget.maxOutputBytes];
        truncated := true;
      }
      return Done(Result(out, p.exitCode, truncated, Usage(p.instructionCost, p.memoryPages, cpu, |out|)));
    }

    method Close()
      modifies this`closed
      ensures closed
    {
      closed := true;
    }
  }
}
