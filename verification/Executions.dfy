/** Execution records: budgets, usage, status and what went wrong. */
module Executions {
  import opened Common

  datatype Status = Queued | Running | Succeeded | Failed | CanceledBy | TimedOut

  datatype ErrorClass = ErrNone | ErrInvalid | ErrResource | ErrRuntime | ErrCanceled | ErrTimeout | ErrUnavailable

  /** The error behind a record's message. The message is the text of this error. */
  datatype Fault =
    | NoFault
    | NotFound
    | Blank
    | NotOwner
    | NotPublished
    | BadInvocation
    | OverBudget
    | AlreadyExists
    | QueueShut
    | ContextCanceled
    | ContextExpired
    | NoSlot
    | TooManyPages
    | CpuSpent
    | RuntimeClosed
    | DigestMismatch
    | Undecodable
    | UnsupportedOperation
    | CachedFailure(cause: Fault)
    | NoEntry
    | InstructionLimit
    | MemoryLimit
    | StackLimit
    | Trap
    | OperationFailed
    | CanceledBeforeExecution
    | InterruptedByRestart

  datatype Budget = Budget(maxInstructions: nat, maxMemoryPages: nat, maxStackBytes: nat, timeout: Nanos,
                           maxOutputBytes: int)

  datatype Usage = Usage(instructions: nat, memoryPages: nat, cpuTime: nat, outputBytes: nat)

  const NO_USAGE := Usage(0, 0, 0, 0)

  /** The fields a record is created with. */
  datatype Ticket = Ticket(
    id: Id,
    tenantId: Tenant,
    moduleId: Id,
    moduleVersion: string,
    moduleDigest: string,
    requestDigest: string,
    budget: Budget,
    callbackUrl: string,
    createdAt: Nanos)

  /** The fields a finished execution fills in. */
  datatype Report = Report(usage: Usage, output: Bytes, outputDigest: string, outputTruncated: bool, exitCode: int)

  const NO_REPORT := Report(NO_USAGE, [], "", false, 0)

  /** A record; its fields are grouped by who writes them. */
  datatype Execution = Execution(
    ticket: Ticket,
    status: Status,
    report: Report,
    errorClass: ErrorClass,
    fault: Fault,
    nodeId: string,
    startedAt: Option<Nanos>,
    finishedAt: Option<Nanos>)

  predicate Terminal(e: Execution) {
    match e.status
    case Succeeded => true
    case Failed => true
    case CanceledBy => true
    case TimedOut => true
    case _ => false
  }

  function Normalize(b: Budget, max: Budget): Budget {
    Budget(
      if b.maxInstructions == 0 then max.maxInstructions else b.maxInstructions,
      if b.maxMemoryPages == 0 then max.maxMemoryPages else b.maxMemoryPages,
      if b.maxStackBytes == 0 then max.maxStackBytes else b.maxStackBytes,
      if b.timeout == 0 then max.timeout else b.timeout,
      if b.maxOutputBytes == 0 then max.maxOutputBytes else b.maxOutputBytes)
  }

  predicate Within(b: Budget, max: Budget) {
    && b.maxInstructions <= max.maxInstructions
    && b.maxMemoryPages <= max.maxMemoryPages
    && b.maxStackBytes <= max.maxStackBytes
    && b.timeout <= max.timeout
    && b.maxOutputBytes <= max.maxOutputBytes
  }

  /** The checks of Validate, in its order. */
  function Validate(b: Budget, max: Budget): (ok: bool)
    ensures ok <==> Within(b, max)
  {
    if b.maxInstructions > max.maxInstructions then false
    else if b.maxMemoryPages > max.maxMemoryPages then false
    else if b.maxStackBytes > max.maxStackBytes then false
    else if b.timeout > max.timeout then false
    else if b.maxOutputBytes > max.maxOutputBytes then false
    else true
  }

  /** Each limit that the request gives is its own; each that it leaves at zero is the service's. */
  predicate Settles(asked: Budget, max: Budget, b: Budget) {
    && (asked.maxInstructions != 0 ==> b.maxInstructions == asked.maxInstructions)
    && (asked.maxInstructions == 0 ==> b.maxInstructions == max.maxInstructions)
    && (asked.maxMemoryPages != 0 ==> b.maxMemoryPages == asked.maxMemoryPages)
    && (asked.maxMemoryPages == 0 ==> b.maxMemoryPages == max.maxMemoryPages)
    && (asked.maxStackBytes != 0 ==> b.maxStackBytes == asked.maxStackBytes)
    && (asked.maxStackBytes == 0 ==> b.maxStackBytes == max.maxStackBytes)
    && (asked.timeout != 0 ==> b.timeout == asked.timeout)
    && (asked.timeout == 0 ==> b.timeout == max.timeout)
    && (asked.maxOutputBytes != 0 ==> b.maxOutputBytes == asked.maxOutputBytes)
    && (asked.maxOutputBytes == 0 ==> b.maxOutputBytes == max.maxOutputBytes)
  }

  /** A request's budget is accepted exactly when every field is left at zero or is within the
      service maximum; what is stored is then within it field by field. */
  lemma BudgetAcceptedExactly(b: Budget, max: Budget)
    ensures Validate(Normalize(b, max), max) <==>
              && (b.maxInstructions == 0 || b.maxInstructions <= max.maxInstructions)
              && (b.maxMemoryPages == 0 || b.maxMemoryPages <= max.maxMemoryPages)
              && (b.maxStackBytes == 0 || b.maxStackBytes <= max.maxStackBytes)
              && (b.timeout == 0 || b.timeout <= max.timeout)
              && (b.maxOutputBytes == 0 || b.maxOutputBytes <= max.maxOutputBytes)
    ensures Normalize(Normalize(b, max), max) == Normalize(b, max)
    ensures Settles(b, max, Normalize(b, max))
  {
  }

  /** A record as `fail` leaves it. */
  function FailedWith(e: Execution, kind: ErrorClass, fault: Fault, now: Nanos): Execution {
    e.(status := Failed, errorClass := kind, fault := fault, finishedAt := Some(now))
  }

  /** A record as Cancel leaves it when no run has registered for it. */
  function CanceledEarly(e: Execution, now: Nanos): Execution {
    e.(status := CanceledBy, errorClass := ErrCanceled, fault := CanceledBeforeExecution, finishedAt := Some(now))
  }

  /** A record as a restart leaves it when it was queued or running. */
  function Interrupted(e: Execution): Execution {
    e.(status := Failed, errorClass := ErrUnavailable, fault := InterruptedByRestart)
  }

  predicate Unfinished(e: Execution) {
    e.status == Running || e.status == Queued
  }
}
