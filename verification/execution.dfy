/** Job states and their transition table, retry policy and execution settings:
    apps/api/pdi/ingestion/state.py, execution/specification.py and core/config.py. */
module Execution {
  type Time = int
  type JobId = nat
  type LeaseId = nat
  type DocumentId = nat
  type WorkerId = string

  datatype State =
    | Queued | Claimed | Extracting | Ocr | Normalizing | CancelRequested
    | Cancelled | TimedOut | Completed | Failed

  datatype Priority = Interactive | High | Normal | Background | Maintenance | Bulk

  datatype Resource = CpuLight | CpuHeavy | IoHeavy | OcrEngine | LocalAi | Upkeep

  datatype FailureClass = Retryable | Permanent | Degraded | Timeout | CancelledByUser | DependencyFailed

  datatype QueueError = InvalidTransition | InvalidPolicy | UnknownPredecessor | UnknownJob | InvalidLimit

  function ValidTransitions(current: State): set<State> {
    match current
    case Queued => {Claimed, Cancelled, Failed}
    case Claimed => {Extracting, Queued, CancelRequested, Failed, TimedOut}
    case Extracting => {Ocr, Normalizing, Queued, CancelRequested, Failed, TimedOut}
    case Ocr => {Normalizing, Queued, CancelRequested, Failed, TimedOut}
    case Normalizing => {Completed, Queued, CancelRequested, Failed, TimedOut}
    case CancelRequested => {Cancelled, Completed, Failed, TimedOut}
    case Cancelled => {}
    case TimedOut => {Queued}
    case Completed => {}
    case Failed => {Queued}
  }

  predicate Allowed(current: State, target: State) { target in ValidTransitions(current) }

  predicate Terminal(s: State) { s in {Completed, Failed, TimedOut, Cancelled} }

  predicate Active(s: State) { s in {Claimed, Extracting, Ocr, Normalizing, CancelRequested} }

  predicate Live(s: State) { s == Queued || Active(s) }

  function PriorityOrder(p: Priority): nat {
    match p
    case Interactive => 0
    case High => 1
    case Normal => 2
    case Background => 3
    case Maintenance => 4
    case Bulk => 5
  }

  const BASE_DELAY := 2
  const MAXIMUM_DELAY := 60

  function Power2(n: nat): nat { if n == 0 then 1 else 2 * Power2(n - 1) }

  function Min(a: int, b: int): int { if a < b then a else b }

  /** Seconds to wait before the next attempt, after `attempts` of them. */
  function DelaySeconds(attempts: nat): int {
    var exponent := if attempts == 0 then 0 else attempts - 1;
    Min(MAXIMUM_DELAY, BASE_DELAY * Power2(exponent))
  }

  predicate ShouldRetry(failure: FailureClass, attempts: nat, maxAttempts: nat) {
    failure in {Retryable, Timeout} && attempts < maxAttempts
  }

  lemma {:induction false} BackOffDoublesThenSaturates(attempts: nat)
    requires attempts >= 1
    ensures BASE_DELAY <= DelaySeconds(attempts) <= MAXIMUM_DELAY
    ensures DelaySeconds(attempts + 1) == Min(MAXIMUM_DELAY, 2 * DelaySeconds(attempts))
    ensures DelaySeconds(attempts) == MAXIMUM_DELAY <==> attempts >= 6
  {
    if attempts == 1 {
      assert Power2(1) == 2 * Power2(0);
    } else {
      BackOffDoublesThenSaturates(attempts - 1);
      assert Power2(attempts - 1) == 2 * Power2(attempts - 2);
    }
    assert Power2(attempts) == 2 * Power2(attempts - 1);
    if attempts == 5 {
      assert Power2(4) == 2 * Power2(3) == 4 * Power2(2) == 8 * Power2(1) == 16 * Power2(0);
    } else if attempts == 6 {
      assert Power2(5) == 2 * Power2(4) == 4 * Power2(3) == 8 * Power2(2) == 16 * Power2(1) == 32 * Power2(0);
    }
  }

  lemma SomeDelay(attempts: nat)
    ensures DelaySeconds(attempts) >= BASE_DELAY
  {
    if attempts >= 1 { BackOffDoublesThenSaturates(attempts); }
  }

  /** Where a state stands on the way to an end; a claim starts the way again from the top. */
  function Rank(s: State): nat {
    match s
    case Claimed => 6
    case Extracting => 5
    case Ocr => 4
    case Normalizing => 3
    case CancelRequested => 2
    case Queued => 1
    case _ => 0
  }

  /** `limits` maps a resource class to how many jobs, or leases, it admits at once. */
  datatype Config = Config(
    limits: map<Resource, int>,
    starvationSeconds: int,
    heartbeatSeconds: int,
    jobTimeout: int)
  {
    predicate Valid() {
      && (forall r :: r in limits ==> 1 <= limits[r] <= 64)
      && 30 <= starvationSeconds <= 86400
      && 1 <= heartbeatSeconds <= 60
      && 10 <= jobTimeout
      && heartbeatSeconds * 2 < jobTimeout
    }
  }
}
