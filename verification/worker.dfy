/** The path of a claimed job through apps/api/pdi/ingestion/worker.py, while time passes and
    everyone else does what the queue lets them do between any two commits. */
module Worker {
  import opened Common
  import opened Execution
  import opened Queue
  import opened JobRows
  import opened Scheduler
  import opened QueueRuns
  import opened QueueEffects
  import opened JobQueues

  /** What the files, the extractors and the settings decide; `fault(n)` is what stage `n` raises,
      and waiting ends at `deadline`. */
  datatype Plan = Plan(
    ocr: bool,
    resultNeedsOcr: bool,
    canonical: bool,
    ollama: bool,
    degraded: bool,
    poll: nat,
    deadline: Time,
    fault: nat -> Option<FailureClass>)

  /** What others try, and the heartbeat of the job, before commit `n`, or at point `k` of a wait there. */
  type Interference = (nat, nat) -> seq<Step>

  datatype Outcome = Finished | SeenCancelled | Raised(failure: FailureClass)

  datatype Waited = Acquired | Withdrawn | TookTooLong

  // ---------- everyone else ----------

  /** A step that somebody else can take, or the heartbeat; recovery runs only while the last beat of
      the job is at most twice the configured interval old. */
  predicate Foreign(c: Config, q: Tables, s: Step, id: JobId) {
    && Enabled(c, q, s) && id in q.jobs
    && match s.action
       case Advance(k, _, _) => k != id
       case Fail(k, _, _) => k != id
       case ObserveCancel(k, _) => k != id
       case Acquire(k, _, _, _) => k != id
       case Recover(_, _) => q.jobs[id].heartbeatAt.Some? ==> s.now <= q.jobs[id].heartbeatAt.value + 2 * c.heartbeatSeconds
       case _ => true
  }

  /** Nothing that others do takes the job from its worker; only a request to cancel it shows. */
  lemma ForeignStep(c: Config, q: Tables, s: Step, id: JobId, worker: WorkerId)
    requires c.Valid() && Holds(q.jobs, id, worker) && Foreign(c, q, s, id)
    ensures var q' := Next(c, q, s);
            && Holds(q'.jobs, id, worker) && SameAttempts(q.jobs[id], q'.jobs[id])
            && q'.jobs[id].state == if s.action == RequestCancel(id) then State.CancelRequested else q.jobs[id].state
  {
    hide RowOk, ClaimStep, RetryStep, Chosen, RecoveredRow, ClaimedRow;
    match s.action
    case Claim(other, maintenance, locked) =>
      if maintenance {
        MaintenanceClaims(c, q, other, locked, s.now);
      } else {
        ClaimStepClaimsChosen(c, q, other, locked, s.now, id);
      }
    case Retry(_, _, _, _) => RowAfterRetry(q, s.action, s.now, id);
    case _ =>
  }

  /** Any step of anyone, as the queue function that takes it. */
  method Take(queue: JobQueue, s: Step)
    requires Enabled(queue.config, queue.Rows(), s)
    modifies queue
    ensures queue.Rows() == Next(queue.config, old(queue.Rows()), s)
  {
    hide ClaimStep, RetryStep, RecoverStep, AcquireStep, HeartbeatStep, ReleaseStep, FailStep;
    match s.action {
    case Enqueue(id, document, priority, r, maxAttempts, dependency) =>
      var _ := queue.EnqueueDocument(id, document, priority, r, maxAttempts, dependency, s.now);
    case Claim(worker, maintenance, locked) =>
      var _ := queue.ClaimJob(worker, maintenance, locked, s.now);
    case Advance(id, worker, route) =>
      var _ := queue.AdvanceJob(id, worker, route, s.now);
    case Fail(id, worker, failure) =>
      var _ := queue.RecordFailure(id, worker, failure, s.now);
    case RequestCancel(id) =>
      queue.RequestCancellation(id, s.now);
    case ObserveCancel(id, worker) =>
      var _ := queue.ObserveCancellation(id, worker, s.now);
    case Recover(worker, locked) =>
      var _, _ := queue.RecoverStaleJobs(worker, locked, s.now);
    case Heartbeat(id, worker) =>
      var _ := queue.HeartbeatJob(id, worker, s.now);
    case Acquire(id, worker, r, lease) =>
      var _ := queue.AcquireResourceLease(id, worker, r, lease, s.now);
    case Release(id, r, worker) =>
      queue.ReleaseResourceLease(id, worker, r, s.now);
    case ReleaseAll(id) =>
      queue.ReleaseAllResourceLeases(id);
      queue.clock := s.now;
    case Retry(document, id, maxAttempts, r) =>
      queue.RetryDocumentJob(document, id, maxAttempts, r, s.now);
    }
  }

  predicate Asks(steps: seq<Step>, id: JobId) { exists s :: s in steps && s.action == RequestCancel(id) }

  ghost predicate NobodyAsks(others: Interference, id: JobId) { forall n, k :: !Asks(others(n, k), id) }

  /** The tables after those of the steps that are possible when their turn comes. */
  function Interfered(c: Config, q: Tables, steps: seq<Step>, id: JobId): Tables
    decreases |steps|
  {
    if steps == [] then q
    else Interfered(c, if Foreign(c, q, steps[0], id) then Next(c, q, steps[0]) else q, steps[1..], id)
  }

  /** Everyone else between two commits. */
  method Others(queue: JobQueue, id: JobId, worker: WorkerId, steps: seq<Step>)
    requires queue.config.Valid() && Holds(queue.jobs, id, worker)
    modifies queue
    ensures Holds(queue.jobs, id, worker) && SameAttempts(old(queue.jobs[id]), queue.jobs[id])
    ensures queue.jobs[id].state == old(queue.jobs[id].state)
            || (queue.jobs[id].state == State.CancelRequested && Asks(steps, id))
    ensures old(queue.clock) <= queue.clock
    ensures queue.Rows() == Interfered(queue.config, old(queue.Rows()), steps, id)
  {
    hide Next, Foreign;
    assert steps[0..] == steps;
    for i := 0 to |steps|
      invariant Interfered(queue.config, queue.Rows(), steps[i..], id) == Interfered(queue.config, old(queue.Rows()), steps, id)
      invariant Holds(queue.jobs, id, worker) && SameAttempts(old(queue.jobs[id]), queue.jobs[id])
      invariant queue.jobs[id].state == old(queue.jobs[id].state)
                || (queue.jobs[id].state == State.CancelRequested && Asks(steps, id))
      invariant old(queue.clock) <= queue.clock
    {
      assert steps[i..][0] == steps[i] && steps[i..][1..] == steps[i + 1..];
      if Foreign(queue.config, queue.Rows(), steps[i], id) {
        ForeignStep(queue.config, queue.Rows(), steps[i], id, worker);
        ForeignEnabled(queue.config, queue.Rows(), steps[i], id);
        Take(queue, steps[i]);
      }
    }
  }

  lemma ForeignEnabled(c: Config, q: Tables, s: Step, id: JobId)
    requires Foreign(c, q, s, id)
    ensures Enabled(c, q, s) && Next(c, q, s).clock == s.now >= q.clock
  {
  }

  // ---------- waiting for a lease ----------

  ghost function Above(used: set<LeaseId>): (bound: LeaseId)
    ensures forall l :: l in used ==> l < bound
  {
    if used == {} then 0 else
    var x :| x in used;
    var rest := Above(used - {x});
    assert forall l :: l in used ==> l == x || l in used - {x};
    rest + x + 1
  }

  method FreshLease(leases: map<LeaseId, Lease>) returns (l: LeaseId)
    ensures l !in leases
  {
    ghost var bound := Above(leases.Keys);
    l := 0;
    while l in leases
      invariant l <= bound
      decreases bound - l
    {
      assert l in leases.Keys;
      l := l + 1;
    }
  }

  /** Polls for a lease until it gets one, sees a cancellation or runs out of time. */
  method WaitForResource(queue: JobQueue, id: JobId, worker: WorkerId, r: Resource, plan: Plan, n: nat, others: Interference)
    returns (waited: Waited)
    requires queue.config.Valid() && Holds(queue.jobs, id, worker) && r in queue.config.limits && plan.poll >= 1
    modifies queue
    ensures id in queue.jobs
    ensures waited == Withdrawn ==>
              queue.jobs[id].state == State.Cancelled
              && (old(queue.jobs[id].state) == State.CancelRequested || !NobodyAsks(others, id))
    ensures waited != Withdrawn ==>
              && Holds(queue.jobs, id, worker) && SameAttempts(old(queue.jobs[id]), queue.jobs[id])
              && (queue.jobs[id].state == old(queue.jobs[id].state)
                  || (queue.jobs[id].state == State.CancelRequested && !NobodyAsks(others, id)))
    ensures if waited == TookTooLong then queue.clock + plan.poll >= plan.deadline else old(queue.clock) < plan.deadline
    ensures waited == Acquired ==>
              exists l :: l in queue.leases && queue.leases[l].job == id && queue.leases[l].resource == r
  {
    hide Next, Asks, Interfered;
    var now, k := queue.clock, 0;
    while now < plan.deadline
      invariant old(queue.clock) <= queue.clock <= now <= queue.clock + plan.poll
      invariant Holds(queue.jobs, id, worker) && SameAttempts(old(queue.jobs[id]), queue.jobs[id])
      invariant queue.jobs[id].state == old(queue.jobs[id].state)
                || (queue.jobs[id].state == State.CancelRequested && !NobodyAsks(others, id))
      decreases plan.deadline - now
    {
      var lease := FreshLease(queue.leases);
      var got := queue.AcquireResourceLease(id, worker, r, lease, now);
      if got == Ok(true) {
        return Acquired;
      }
      Others(queue, id, worker, others(n, k));
      now := if queue.clock < now then now else queue.clock;
      var observed := queue.ObserveCancellation(id, worker, now);
      if observed {
        return Withdrawn;
      }
      Others(queue, id, worker, others(n, k + 1));
      now := if queue.clock < now + plan.poll then now + plan.poll else queue.clock;
      k := k + 2;
    }
    return TookTooLong;
  }

  // ---------- one job ----------

  /** The steps up to a stage of the job; `None` means that the job goes on. */
  method StartExtraction(queue: JobQueue, id: JobId, worker: WorkerId, plan: Plan, others: Interference)
    returns (outcome: Option<Outcome>, refused: bool)
    requires queue.config.Valid()
    requires Holds(queue.jobs, id, worker) && queue.jobs[id].state in {State.Claimed, State.CancelRequested}
    modifies queue
    ensures !refused && id in queue.jobs && outcome != Some(Finished)
    ensures outcome == None ==> Holds(queue.jobs, id, worker) && queue.jobs[id].state == State.Extracting
    ensures outcome == Some(SeenCancelled) ==>
              queue.jobs[id].state == State.Cancelled
              && (old(queue.jobs[id].state) == State.CancelRequested || !NobodyAsks(others, id))
    ensures outcome == None ==> plan.fault(0) == plan.fault(1) == None
    ensures outcome.Some? && outcome.value.Raised? ==>
              Holds(queue.jobs, id, worker) && Some(outcome.value.failure) in {plan.fault(0), plan.fault(1)}
    ensures outcome != Some(SeenCancelled) ==> SameAttempts(old(queue.jobs[id]), queue.jobs[id])
  {
    hide Next, Transitioned, AdvancedRow, Asks, Interfered;
    Others(queue, id, worker, others(0, 0));
    var seen := queue.ObserveCancellation(id, worker, queue.clock);
    if seen { return Some(SeenCancelled), false; }
    if plan.fault(0).Some? { return Some(Raised(plan.fault(0).value)), false; }
    var e := queue.AdvanceJob(id, worker, ToExtracting, queue.clock);
    refused := e.Some?;
    Others(queue, id, worker, others(1, 0));
    if plan.fault(1).Some? { return Some(Raised(plan.fault(1).value)), refused; }
    seen := queue.ObserveCancellation(id, worker, queue.clock);
    return if seen then Some(SeenCancelled) else None, refused;
  }

  method ExtractText(queue: JobQueue, id: JobId, worker: WorkerId, plan: Plan, others: Interference)
    returns (outcome: Option<Outcome>, refused: bool, ghost wait: Option<Waited>)
    requires queue.config.Valid() && plan.poll >= 1 && OcrEngine in queue.config.limits
    requires Holds(queue.jobs, id, worker) && queue.jobs[id].state == State.Extracting
    modifies queue
    ensures !refused && id in queue.jobs && outcome != Some(Finished)
    ensures outcome == None ==> Holds(queue.jobs, id, worker) && queue.jobs[id].state in {State.Extracting, State.Ocr}
    ensures outcome == Some(SeenCancelled) ==> queue.jobs[id].state == State.Cancelled && !NobodyAsks(others, id)
    ensures (wait.Some? <==> plan.ocr) && EndsAsWaited(outcome, wait, plan.fault(2))
    ensures outcome.Some? && outcome.value.Raised? ==> Holds(queue.jobs, id, worker)
    ensures outcome != Some(SeenCancelled) ==> SameAttempts(old(queue.jobs[id]), queue.jobs[id])
  {
    hide Next, Transitioned, AdvancedRow, Asks, Interfered;
    refused, wait := false, None;
    if plan.ocr {
      var e := queue.AdvanceJob(id, worker, ToOcr, queue.clock);
      refused := e.Some?;
      Others(queue, id, worker, others(2, 0));
      var waited := WaitForResource(queue, id, worker, OcrEngine, plan, 3, others);
      wait := Some(waited);
      if waited == Withdrawn { return Some(SeenCancelled), refused, wait; }
      if waited == TookTooLong { return Some(Raised(Timeout)), refused, wait; }
    }
    Others(queue, id, worker, others(4, 0));
    if plan.ocr {
      queue.ReleaseResourceLease(id, worker, OcrEngine, queue.clock);
      Others(queue, id, worker, others(5, 0));
    }
    if plan.fault(2).Some? { return Some(Raised(plan.fault(2).value)), refused, wait; }
    var seen := queue.ObserveCancellation(id, worker, queue.clock);
    return if seen then Some(SeenCancelled) else None, refused, wait;
  }

  /** Withdrawn while waiting, out of time, or after the wait as the stage says. */
  predicate EndsAsWaited(outcome: Option<Outcome>, wait: Option<Waited>, fault: Option<FailureClass>) {
    match wait
    case Some(Withdrawn) => outcome == Some(SeenCancelled)
    case Some(TookTooLong) => outcome == Some(Raised(Timeout))
    case _ => if fault.Some? then outcome == Some(Raised(fault.value)) else outcome in {None, Some(SeenCancelled)}
  }

  /** The analysis of the canonical extraction. */
  method Analyse(queue: JobQueue, id: JobId, worker: WorkerId, plan: Plan, others: Interference)
    returns (outcome: Option<Outcome>, ghost wait: Option<Waited>)
    requires queue.config.Valid() && plan.poll >= 1 && LocalAi in queue.config.limits
    requires Holds(queue.jobs, id, worker) && queue.jobs[id].state == State.Normalizing
    modifies queue
    ensures id in queue.jobs && outcome != Some(Finished)
    ensures outcome == None ==> Holds(queue.jobs, id, worker) && queue.jobs[id].state == State.Normalizing
    ensures outcome == Some(SeenCancelled) ==> queue.jobs[id].state == State.Cancelled && !NobodyAsks(others, id)
    ensures (wait.Some? <==> plan.ollama) && EndsAsWaited(outcome, wait, plan.fault(4))
    ensures outcome.Some? && outcome.value.Raised? ==> Holds(queue.jobs, id, worker)
    ensures outcome != Some(SeenCancelled) ==> SameAttempts(old(queue.jobs[id]), queue.jobs[id])
  {
    hide Next, Asks, Interfered;
    wait := None;
    if plan.ollama {
      var waited := WaitForResource(queue, id, worker, LocalAi, plan, 7, others);
      wait := Some(waited);
      if waited == Withdrawn { return Some(SeenCancelled), wait; }
      if waited == TookTooLong { return Some(Raised(Timeout)), wait; }
    }
    Others(queue, id, worker, others(8, 0));
    if plan.ollama {
      queue.ReleaseResourceLease(id, worker, LocalAi, queue.clock);
      Others(queue, id, worker, others(9, 0));
    }
    if plan.fault(4).Some? { return Some(Raised(plan.fault(4).value)), wait; }
    var seen := queue.ObserveCancellation(id, worker, queue.clock);
    return if seen then Some(SeenCancelled) else None, wait;
  }

  /** From the extracted text to the end of the job. */
  method PersistAndAnalyse(queue: JobQueue, id: JobId, worker: WorkerId, plan: Plan, others: Interference)
    returns (outcome: Outcome, refused: bool)
    requires queue.config.Valid() && plan.poll >= 1 && LocalAi in queue.config.limits
    requires Holds(queue.jobs, id, worker) && queue.jobs[id].state in {State.Extracting, State.Ocr}
    modifies queue
    ensures !refused && id in queue.jobs
    ensures outcome == Finished ==> queue.jobs[id].state == State.Completed && queue.jobs[id].claimedBy == Some(worker)
    ensures outcome == Finished ==> queue.jobs[id].failure == if plan.canonical && plan.degraded then Some(Degraded) else None
    ensures outcome == SeenCancelled ==> queue.jobs[id].state == State.Cancelled && !NobodyAsks(others, id)
    ensures outcome == Finished ==> plan.fault(3) == None && (plan.canonical ==> plan.fault(4) == None)
    ensures outcome.Raised? ==>
              Holds(queue.jobs, id, worker)
              && if plan.fault(3).Some? then plan.fault(3) == Some(outcome.failure)
                 else plan.canonical && (plan.fault(4) == Some(outcome.failure) || (plan.ollama && outcome.failure == Timeout))
    ensures outcome != SeenCancelled ==> SameAttempts(old(queue.jobs[id]), queue.jobs[id])
  {
    hide Next, Transitioned, AdvancedRow, Asks, Interfered;
    var e := queue.AdvanceJob(id, worker, ToNormalizing(plan.resultNeedsOcr), queue.clock);
    refused := e.Some?;
    Others(queue, id, worker, others(6, 0));
    var seen := queue.ObserveCancellation(id, worker, queue.clock);
    if seen { return SeenCancelled, refused; }
    if plan.fault(3).Some? { return Raised(plan.fault(3).value), refused; }
    if plan.canonical {
      var early, wait := Analyse(queue, id, worker, plan, others);
      if early.Some? { return early.value, refused; }
    }
    Others(queue, id, worker, others(10, 0));
    e := queue.AdvanceJob(id, worker, ToCompleted(plan.canonical && plan.degraded), queue.clock);
    return Finished, refused || e.Some?;
  }

  /** A stage of the plan raises it, or a wait for a resource takes too long. */
  predicate MayRaise(plan: Plan, failure: FailureClass) {
    || Some(failure) in {plan.fault(0), plan.fault(1), plan.fault(2), plan.fault(3)}
    || (plan.canonical && plan.fault(4) == Some(failure))
    || (failure == Timeout && (plan.ocr || (plan.canonical && plan.ollama)))
  }

  /** Whatever others do meanwhile, no transition on the way is ever refused: the job completes, is
      cancelled because somebody asked, or a stage raises while the worker still holds it. */
  method ProcessJob(queue: JobQueue, id: JobId, worker: WorkerId, plan: Plan, others: Interference)
    returns (outcome: Outcome, refused: bool)
    requires queue.config.Valid() && plan.poll >= 1 && OcrEngine in queue.config.limits && LocalAi in queue.config.limits
    requires Holds(queue.jobs, id, worker) && queue.jobs[id].state in {State.Claimed, State.CancelRequested}
    modifies queue
    ensures !refused && id in queue.jobs
    ensures outcome == Finished ==> queue.jobs[id].state == State.Completed && queue.jobs[id].claimedBy == Some(worker)
    ensures outcome == Finished ==> queue.jobs[id].failure == if plan.canonical && plan.degraded then Some(Degraded) else None
    ensures outcome == SeenCancelled ==>
              queue.jobs[id].state == State.Cancelled
              && (old(queue.jobs[id].state) == State.CancelRequested || !NobodyAsks(others, id))
    ensures outcome == Finished ==> (forall n: nat :: n <= 3 ==> plan.fault(n) == None) && (plan.canonical ==> plan.fault(4) == None)
    ensures outcome.Raised? ==> Holds(queue.jobs, id, worker) && MayRaise(plan, outcome.failure)
    ensures outcome != SeenCancelled ==> SameAttempts(old(queue.jobs[id]), queue.jobs[id])
  {
    hide NobodyAsks;
    var early, refusedEarly := StartExtraction(queue, id, worker, plan, others);
    if early.Some? {
      return early.value, refusedEarly;
    }
    ghost var wait;
    early, refusedEarly, wait := ExtractText(queue, id, worker, plan, others);
    if early.Some? {
      return early.value, refusedEarly;
    }
    var late, refusedLate := PersistAndAnalyse(queue, id, worker, plan, others);
    return late, refusedEarly || refusedLate;
  }

  /** A claimed job after its worker is done with it: off its hands, unless a stage raised, its
      cancellation had been requested by then, and the policy would retry: the table refuses that. */
  method RunClaimedJob(queue: JobQueue, id: JobId, worker: WorkerId, plan: Plan, others: Interference)
    returns (outcome: Outcome, stuck: bool, ghost found: State)
    requires queue.config.Valid() && plan.poll >= 1 && OcrEngine in queue.config.limits && LocalAi in queue.config.limits
    requires Holds(queue.jobs, id, worker) && queue.jobs[id].state in {State.Claimed, State.CancelRequested}
    modifies queue
    ensures id in queue.jobs
    ensures stuck <==> outcome.Raised? && found == State.CancelRequested
                       && ShouldRetry(outcome.failure, old(queue.jobs[id].attempts), old(queue.jobs[id].maxAttempts))
    ensures stuck ==> Holds(queue.jobs, id, worker) && queue.jobs[id].state == found
    ensures outcome.Raised? && !stuck ==> queue.jobs[id].events != [] && Last(queue.jobs[id].events).from == found
    ensures outcome.Raised? && !stuck ==> queue.jobs[id].failure == Some(outcome.failure)
    ensures outcome.Raised? ==> MayRaise(plan, outcome.failure)
    ensures outcome == Finished ==> queue.jobs[id].state == State.Completed && forall n: nat :: n <= 3 ==> plan.fault(n) == None
    ensures outcome == SeenCancelled ==> queue.jobs[id].state == State.Cancelled
    ensures !stuck ==> !Active(queue.jobs[id].state)
    ensures !stuck ==> forall l :: l in queue.leases ==> queue.leases[l].job != id
  {
    hide NobodyAsks, Next, Asks, Interfered;
    var refused;
    outcome, refused := ProcessJob(queue, id, worker, plan, others);
    if outcome.Raised? {
      Others(queue, id, worker, others(11, 0));
      found := queue.jobs[id].state;
      var r := queue.RecordFailure(id, worker, outcome.failure, queue.clock);
      return outcome, r.Err?, found;
    }
    found := queue.jobs[id].state;
    queue.ReleaseAllResourceLeases(id);
    return outcome, false, found;
  }
}
