/** The AI-execution aggregate: statuses, error taxonomy, rows and fencing tokens. */
module ExecutionDomain {
  import opened Wrappers

  /** Identifiers are opaque; 0 stands for uuid.Nil. */
  type UUID = nat

  const NIL: UUID := 0

  /** Instants and durations share one integer unit. */
  type Time = int

  datatype Status = Pending | Running | Completed | Failed | Cancelled

  predicate Terminal(s: Status) {
    s == Completed || s == Failed || s == Cancelled
  }

  datatype RetryState = RetryPending | RetryClaimed | RetryDispatched | RetryProcessed

  datatype RetryOutcome = OutcomeSuccess | OutcomeFailed | OutcomeCancelled

  datatype ErrorCode =
    | CodeNone
    | CodeDeadlineExceeded
    | CodeProviderTimeout
    | CodeRateLimit
    | CodeUnavailable
    | CodeCanceled
    | CodeNotFound
    | CodeUnknown
    | CodeWorkerLeaseExpired
  {
    predicate Retryable() {
      this in {CodeDeadlineExceeded, CodeProviderTimeout, CodeRateLimit, CodeUnavailable, CodeWorkerLeaseExpired}
    }
  }

  /** What errors.Is and errors.As can find in a failed provider call: one flag per sentinel probed. */
  datatype Cause = Cause(
    noRows: bool, canceled: bool, deadline: bool, usageLimit: bool, leaseExpired: bool, outage: bool,
    netTimeout: bool, text: string)

  /** Worth another attempt: a deadline, a limit or an outage, and neither a vanished row nor a cancellation. */
  predicate RetryableCause(cause: Cause) {
    && !cause.noRows && !cause.canceled
    && (cause.deadline || cause.usageLimit || cause.leaseExpired || cause.outage || cause.netTimeout)
  }

  /** The code that stands for a cause: each sentinel's, if no sentinel probed before it is found. */
  predicate CodeFits(cause: Cause, code: ErrorCode) {
    var passed := !cause.noRows && !cause.canceled;
    && (code == CodeNotFound <==> cause.noRows)
    && (code == CodeCanceled <==> !cause.noRows && cause.canceled)
    && (code == CodeDeadlineExceeded <==> passed && cause.deadline)
    && (code == CodeRateLimit <==> passed && !cause.deadline && cause.usageLimit)
    && (code == CodeWorkerLeaseExpired <==> passed && !cause.deadline && !cause.usageLimit && cause.leaseExpired)
    && (code == CodeUnavailable <==> passed && !cause.deadline && !cause.usageLimit && !cause.leaseExpired && cause.outage)
    && (code == CodeProviderTimeout <==>
          passed && !cause.deadline && !cause.usageLimit && !cause.leaseExpired && !cause.outage && cause.netTimeout)
    && (code == CodeUnknown <==> passed && !RetryableCause(cause))
  }

  datatype Classified = Classified(code: ErrorCode, retry: bool)

  /** The sentinels are probed in this order; the first hit decides. */
  function Classify(cause: Cause): (c: Classified)
    ensures c.retry == c.code.Retryable() == RetryableCause(cause)
    ensures CodeFits(cause, c.code)
  {
    if cause.noRows then Classified(CodeNotFound, false)
    else if cause.canceled then Classified(CodeCanceled, false)
    else if cause.deadline then Classified(CodeDeadlineExceeded, true)
    else if cause.usageLimit then Classified(CodeRateLimit, true)
    else if cause.leaseExpired then Classified(CodeWorkerLeaseExpired, true)
    else if cause.outage then Classified(CodeUnavailable, true)
    else if cause.netTimeout then Classified(CodeProviderTimeout, true)
    else Classified(CodeUnknown, false)
  }

  /**
   * The canonical fingerprint of an admission payload. The source hashes a JSON record of these
   * three fields with SHA-256 (section 6.2 of FIPS 180-4), taken here as injective: a constructor.
   */
  datatype RequestHash = RequestHash(employee: UUID, task: Option<UUID>, maxAttempts: int)

  /** A row of ai_executions. */
  datatype Exec = Exec(
    workspace: UUID, employee: UUID, task: Option<UUID>,
    status: Status, attempt: nat, maxAttempts: nat,
    key: Option<string>, hash: RequestHash,
    leaseOwner: Option<string>, leaseGeneration: nat, leaseExpiresAt: Option<Time>,
    nextRetryAt: Option<Time>,
    lastErrorCode: Option<ErrorCode>, retryable: Option<bool>, errorDetail: Option<string>,
    result: Option<string>,
    completedAt: Option<Time>, failedAt: Option<Time>, cancelledAt: Option<Time>,
    createdAt: Time, updatedAt: Time)

  /** A row of ai_execution_retries. */
  datatype Retry = Retry(
    execution: UUID, workspace: UUID, seqNo: int,
    state: RetryState, outcome: Option<RetryOutcome>, worker: Option<string>, generation: nat,
    nextRetryAt: Option<Time>, claimedAt: Option<Time>, dispatchedAt: Option<Time>, completedAt: Option<Time>)
  {
    predicate Outstanding() {
      state != RetryProcessed
    }
  }

  /** A row of ai_execution_dlq. */
  datatype DeadLetter = DeadLetter(
    workspace: UUID, execution: UUID, attempt: nat, code: ErrorCode, detail: Option<string>, snapshot: Option<string>)

  /** A row of retry_dispatch_log. */
  datatype Dispatch = Dispatch(workspace: UUID, retry: UUID, worker: string, generation: nat, success: bool)

  /** The fencing token a claim or a reclaim returns: FencedExecution. */
  datatype Fenced = Fenced(
    execution: UUID, workspace: UUID, employee: UUID, owner: string, generation: nat, expiresAt: Time,
    attempt: nat, maxAttempts: nat, retry: UUID,
    lastErrorCode: Option<ErrorCode>, retryable: Option<bool>, nextRetryAt: Option<Time>)

  /** The dispatch message: identity only, never the request body. */
  datatype Message = Message(
    workspace: UUID, execution: UUID, employee: UUID, attempt: nat, maxAttempts: nat, retry: UUID,
    generation: nat, expiresAt: Time, owner: string)

  /** An admission request as it reaches the service; maxAttempts is not yet defaulted. */
  datatype AdmitRequest = AdmitRequest(
    workspace: UUID, employee: UUID, task: Option<UUID>, maxAttempts: int, key: string)

  datatype Admitted = Admitted(id: UUID, row: Exec, created: bool, completed: bool)

  datatype StoreError =
    | InvalidInput
    | NotFound
    | WorkspaceMismatch
    | CapacityExceeded
    | IdempotencyKeyConflict
    | StaleLease
    | Database  // a constraint fired: the transaction rolled back

  /** A row of ai_employees: the part admission reads. */
  datatype Employee = Employee(workspace: UUID, cap: nat)

  /** The message published for a claimed retry. */
  function MessageOf(f: Fenced, workerId: string): Message {
    Message(f.workspace, f.execution, f.employee, f.attempt, f.maxAttempts, f.retry, f.generation, f.expiresAt, workerId)
  }

  /** The worker's rebuilt token; its own identity only backstops a message without an owner. */
  function FencedFrom(m: Message, workerId: string): Fenced {
    Fenced(m.execution, m.workspace, m.employee,
           if m.owner == "" then workerId else m.owner,
           m.generation, m.expiresAt, m.attempt, m.maxAttempts, m.retry, None, None, None)
  }

  /** Every field a fenced write compares or uses survives the trip through the broker. */
  lemma MessageRoundTrip(f: Fenced, worker: string)
    requires f.owner != ""
    ensures FencedFrom(MessageOf(f, f.owner), worker) == f.(lastErrorCode := None, retryable := None, nextRetryAt := None)
    ensures FencedFrom(MessageOf(f, ""), worker).owner == worker
  {
  }
}
