/** Whole runs of the queue: how often a job is claimed, how long an aged job can be
    passed over, and that a job whose worker keeps beating has one owner. */
module QueueRuns {
  import opened Common
  import opened Execution
  import opened Queue
  import opened JobRows
  import opened Scheduler
  import opened QueueInvariants

  /** The job that a step claims, if it claims one. */
  function ClaimedNow(c: Config, q: Tables, s: Step): Option<JobId> {
    if s.action.Claim? && !s.action.maintenance then Chosen(c, q.jobs, s.action.locked, s.now) else None
  }

  function ClaimsOf(c: Config, q: Tables, steps: seq<Step>, id: JobId): nat
    requires ValidRun(c, q, steps)
    decreases |steps|
  {
    if steps == [] then 0
    else (if ClaimedNow(c, q, steps[0]) == Some(id) then 1 else 0) + ClaimsOf(c, Next(c, q, steps[0]), steps[1..], id)
  }

  function Claims(c: Config, q: Tables, steps: seq<Step>): nat
    requires ValidRun(c, q, steps)
    decreases |steps|
  {
    if steps == [] then 0
    else (if ClaimedNow(c, q, steps[0]).Some? then 1 else 0) + Claims(c, Next(c, q, steps[0]), steps[1..])
  }

  // ---------- one step ----------

  /** In every step but a claim and a manual retry each row is kept. */
  lemma RowKept(c: Config, q: Tables, s: Step, id: JobId)
    requires Enabled(c, q, s) && id in q.jobs && !s.action.Retry? && !s.action.Claim?
    ensures id in Next(c, q, s).jobs && Kept(q.jobs[id], Next(c, q, s).jobs[id])
  {
    hide RowOk, Kept, FailedRow, AdvancedRow, RecoveredRow, CancelAskedRow, CancelObservedRow, DeferredRow, Noted;
    var j, now := q.jobs[id], s.now;
    HeartbeatKept(j, now);
    SameJobs(q.jobs);
    match s.action
    case Advance(k, worker, route) =>
      if k == id && AdvancedRow(j, worker, route, now).Ok? { AdvancedKept(j, worker, route, now); }
    case Fail(k, worker, failure) =>
      if k == id && FailedRow(j, worker, failure, now).Ok? { FailedKept(j, worker, failure, now); }
    case RequestCancel(k) => CancelAskedKept(j, now);
    case ObserveCancel(k, worker) => CancelObservedKept(j, worker, now);
    case Recover(worker, _) => if Stale(j, now - c.jobTimeout) { RecoveredKept(j, worker, now); }
    case Acquire(k, worker, r, l) =>
      DeferredKept(j, worker);
      NotedKept(j, ResourceAcquired, Some(worker));
    case Release(k, r, worker) => NotedKept(j, ResourceReleased, Some(worker));
    case _ =>
  }

  lemma RowAfterRetry(q: Tables, a: Action, now: Time, id: JobId)
    requires a.Retry? && a.id !in q.jobs && id in q.jobs
    ensures id in RetryStep(q, a, now).jobs
    ensures var j, j' := q.jobs[id], RetryStep(q, a, now).jobs[id];
            j' == j || (j.state in {State.Failed, State.TimedOut} && j' == RetriedRow(j, now))
  {
  }

  /** Attempts count claims; a waiting row keeps its place. */
  lemma RowAfterStep(c: Config, q: Tables, s: Step, id: JobId)
    requires Enabled(c, q, s) && id in q.jobs
    ensures var q' := Next(c, q, s);
            && id in q'.jobs
            && q'.jobs[id].attempts == q.jobs[id].attempts + (if ClaimedNow(c, q, s) == Some(id) then 1 else 0)
            && (q.jobs[id].state == State.Queued && q'.jobs[id].state == State.Queued ==>
                  q'.jobs[id].availableAt == q.jobs[id].availableAt)
  {
    hide RowOk, ClaimStep, RetryStep;
    match s.action
    case Claim(worker, maintenance, locked) =>
      if maintenance {
        MaintenanceClaims(c, q, worker, locked, s.now);
      } else {
        ClaimStepClaimsChosen(c, q, worker, locked, s.now, id);
      }
    case Retry(_, _, _, _) => RowAfterRetry(q, s.action, s.now, id);
    case _ => RowKept(c, q, s, id);
  }

  lemma MaintenanceClaims(c: Config, q: Tables, worker: WorkerId, locked: set<JobId>, now: Time)
    ensures ClaimStep(c, q, worker, true, locked, now) == q
  {
  }

  lemma NewRowAfterStep(c: Config, q: Tables, s: Step, id: JobId)
    requires Enabled(c, q, s) && id !in q.jobs && id in Next(c, q, s).jobs
    ensures Next(c, q, s).jobs[id].createdAt == s.now && Next(c, q, s).jobs[id].attempts == 0
    ensures ClaimedNow(c, q, s) != Some(id)
  {
    hide Transitioned, Eligible, HasSlot, FailedRow, AdvancedRow, CancelAskedRow, RecoveredRow, DeferredRow;
  }

  // ---------- claims and attempts ----------

  /** Without a manual retry each transition lowers the attempts left, or keeps them and lowers the rank. */
  lemma TransitionFalls(c: Config, q: Tables, s: Step, id: JobId)
    requires Inv(c, q) && Enabled(c, q, s) && id in q.jobs && !s.action.Retry?
    ensures var j, q' := q.jobs[id], Next(c, q, s);
            && id in q'.jobs
            && q'.jobs[id].maxAttempts == j.maxAttempts
            && (q'.jobs[id].state != j.state ==>
                  || AttemptsLeft(q'.jobs[id]) < AttemptsLeft(j)
                  || (AttemptsLeft(q'.jobs[id]) == AttemptsLeft(j) && Rank(q'.jobs[id].state) < Rank(j.state)))
  {
    hide Inv, RowOk, ClaimStep, RetryStep;
    match s.action
    case Claim(worker, maintenance, locked) =>
      if maintenance {
        MaintenanceClaims(c, q, worker, locked, s.now);
      } else {
        ClaimStepClaimsChosen(c, q, worker, locked, s.now, id);
        if ClaimedNow(c, q, s) == Some(id) { ClaimedHasAttempt(c, q, s, id); }
      }
    case _ => RowKept(c, q, s, id);
  }

  /** So the journal of a job has a bounded number of transitions, two more for each manual retry. */
  lemma TransitionsAreBounded(c: Config, steps: seq<Step>, id: JobId)
    requires c.Valid() && ValidRun(c, Empty(), steps) && id in After(c, Empty(), steps).jobs
    ensures var j := After(c, Empty(), steps).jobs[id];
            Count(j.events, IS_CHANGE) <= 7 * j.maxAttempts + 1 + 2 * Count(j.events, IS_MANUAL_RETRY)
  {
    EmptyInv(c);
    RunInv(c, Empty(), steps);
    var j := After(c, Empty(), steps).jobs[id];
    assert RowOk(j);
  }

  /** A job ever claimed has a completed predecessor, if it names one, then and ever after. */
  lemma PredecessorStaysCompleted(c: Config, q: Tables, steps: seq<Step>, id: JobId)
    requires Inv(c, q) && ValidRun(c, q, steps) && id in q.jobs && q.jobs[id].attempts > 0 && q.jobs[id].dependency.Some?
    ensures var parent := q.jobs[id].dependency.value;
            && parent in After(c, q, steps).jobs
            && After(c, q, steps).jobs[parent].state == State.Completed
  {
    hide RowOk;
    RunInv(c, q, steps);
  }

  /** In any run the attempts of a job grow by exactly the number of times it is claimed. */
  lemma {:induction false} AttemptsCountClaims(c: Config, q: Tables, steps: seq<Step>, id: JobId)
    requires ValidRun(c, q, steps) && id in q.jobs
    ensures id in After(c, q, steps).jobs
    ensures After(c, q, steps).jobs[id].attempts == q.jobs[id].attempts + ClaimsOf(c, q, steps, id)
    decreases |steps|
  {
    if steps != [] {
      RowAfterStep(c, q, steps[0], id);
      AttemptsCountClaims(c, Next(c, q, steps[0]), steps[1..], id);
    }
  }

  /** Claims are of existing jobs. */
  lemma ClaimedExists(c: Config, q: Tables, s: Step)
    requires ClaimedNow(c, q, s).Some?
    ensures ClaimedNow(c, q, s).value in q.jobs && q.jobs[ClaimedNow(c, q, s).value].state == State.Queued
  {
  }

  lemma RowInAttempts(c: Config, q: Tables, id: JobId)
    requires Inv(c, q) && id in q.jobs
    ensures q.jobs[id].attempts <= q.jobs[id].maxAttempts
  {
  }

  /** From the empty queue, no run claims a job more often than its `maxAttempts`. */
  lemma {:induction false} ClaimedAtMostMaxAttempts(c: Config, q: Tables, steps: seq<Step>, id: JobId)
    requires Inv(c, q) && ValidRun(c, q, steps) && id in After(c, q, steps).jobs
    ensures var j := After(c, q, steps).jobs[id];
            ClaimsOf(c, q, steps, id) + (if id in q.jobs then q.jobs[id].attempts else 0) == j.attempts <= j.maxAttempts
    decreases |steps|
  {
    hide RowOk, Acted, Chosen;
    RunInv(c, q, steps);
    RowInAttempts(c, After(c, q, steps), id);
    if id in q.jobs {
      AttemptsCountClaims(c, q, steps, id);
    } else if steps != [] {
      var q1 := Next(c, q, steps[0]);
      NextInv(c, q, steps[0]);
      if ClaimedNow(c, q, steps[0]).Some? { ClaimedExists(c, q, steps[0]); }
      if id in q1.jobs { NewRowAfterStep(c, q, steps[0], id); }
      ClaimedAtMostMaxAttempts(c, q1, steps[1..], id);
    }
  }

  /** Job and attempt of each claim, in order. */
  function ClaimKeys(c: Config, q: Tables, steps: seq<Step>): seq<(JobId, nat)>
    requires ValidRun(c, q, steps)
    decreases |steps|
  {
    if steps == [] then []
    else
      var id := ClaimedNow(c, q, steps[0]);
      (if id.Some? && id.value in q.jobs then [(id.value, q.jobs[id.value].attempts + 1)] else [])
      + ClaimKeys(c, Next(c, q, steps[0]), steps[1..])
  }

  lemma {:induction false} ClaimKeysAbove(c: Config, q: Tables, steps: seq<Step>, k: (JobId, nat))
    requires ValidRun(c, q, steps) && k in ClaimKeys(c, q, steps)
    ensures k.0 in q.jobs ==> q.jobs[k.0].attempts < k.1
    decreases |steps|
  {
    hide Next, Enabled;
    var id, rest := ClaimedNow(c, q, steps[0]), ClaimKeys(c, Next(c, q, steps[0]), steps[1..]);
    if k in rest {
      ClaimKeysAbove(c, Next(c, q, steps[0]), steps[1..], k);
      if k.0 in q.jobs { RowAfterStep(c, q, steps[0], k.0); }
    }
  }

  /** Main result: no two claims of any run are of the same job with the same attempt. */
  lemma {:induction false} ClaimKeysDistinct(c: Config, q: Tables, steps: seq<Step>)
    requires ValidRun(c, q, steps)
    ensures |ClaimKeys(c, q, steps)| == Claims(c, q, steps)
    ensures forall i, j :: 0 <= i < j < |ClaimKeys(c, q, steps)| ==> ClaimKeys(c, q, steps)[i] != ClaimKeys(c, q, steps)[j]
    decreases |steps|
  {
    hide Next, Enabled, Chosen;
    if steps != [] {
      var q', id := Next(c, q, steps[0]), ClaimedNow(c, q, steps[0]);
      var rest := ClaimKeys(c, q', steps[1..]);
      ClaimKeysDistinct(c, q', steps[1..]);
      if id.Some? {
        ClaimedExists(c, q, steps[0]);
        RowAfterStep(c, q, steps[0], id.value);
        forall j | 0 <= j < |rest| ensures rest[j] != (id.value, q.jobs[id.value].attempts + 1) {
          ClaimKeysAbove(c, q', steps[1..], rest[j]);
        }
      }
    }
  }

  // ---------- one live job for each document ----------

  predicate OneLiveJobPerDocument(jobs: map<JobId, Job>) {
    forall a, b :: a in jobs && b in jobs && a != b && jobs[a].document == jobs[b].document
      ==> !(Live(jobs[a].state) && Live(jobs[b].state))
  }

  /** The step adds a job for a document that has a live one. */
  predicate EnqueuesBeside(q: Tables, s: Step) {
    && s.action.Enqueue? && s.action.maxAttempts >= 1 && (s.action.dependency.Some? ==> s.action.dependency.value in q.jobs)
    && LiveOf(q.jobs, s.action.document)
  }

  /** No row becomes live, but one that a manual retry restarts when its document has no live job. */
  lemma LiveAfterStep(c: Config, q: Tables, s: Step, id: JobId)
    requires Enabled(c, q, s) && id in q.jobs
    ensures var j, q' := q.jobs[id], Next(c, q, s);
            && id in q'.jobs && q'.jobs[id].document == j.document
            && (Live(q'.jobs[id].state) && !Live(j.state) ==>
                  && s.action.Retry? && j.document == s.action.document && !LiveOf(q.jobs, j.document)
                  && RetryableKeys(q.jobs, j.document) != {} && id == Least(RetryableKeys(q.jobs, j.document)).id)
  {
    hide RowOk, ClaimStep, RetryStep, Chosen;
    match s.action
    case Claim(worker, maintenance, locked) =>
      if maintenance {
        MaintenanceClaims(c, q, worker, locked, s.now);
      } else {
        ClaimStepClaimsChosen(c, q, worker, locked, s.now, id);
      }
    case Retry(_, _, _, _) => RetriedIsLeast(q, s.action, s.now, id);
    case _ => RowKept(c, q, s, id);
  }

  lemma RetriedIsLeast(q: Tables, a: Action, now: Time, id: JobId)
    requires a.Retry? && a.id !in q.jobs && id in q.jobs
    ensures id in RetryStep(q, a, now).jobs && RetryStep(q, a, now).jobs[id].document == q.jobs[id].document
    ensures RetryStep(q, a, now).jobs[id] != q.jobs[id] ==>
              && q.jobs[id].document == a.document && !LiveOf(q.jobs, a.document)
              && RetryableKeys(q.jobs, a.document) != {} && id == Least(RetryableKeys(q.jobs, a.document)).id
  {
    var keys := RetryableKeys(q.jobs, a.document);
    if keys != {} { assert Least(keys) in keys; }
  }

  lemma NewLiveRow(c: Config, q: Tables, s: Step, id: JobId)
    requires Enabled(c, q, s) && id !in q.jobs && id in Next(c, q, s).jobs
    ensures s.action.Enqueue? || s.action.Retry?
    ensures Next(c, q, s).jobs[id].document == s.action.document && id == s.action.id
    ensures s.action.Enqueue? ==> (EnqueuesBeside(q, s) <==> LiveOf(q.jobs, s.action.document))
    ensures s.action.Retry? ==> !LiveOf(q.jobs, s.action.document) && RetryableKeys(q.jobs, s.action.document) == {}
  {
  }

  /** The queue does not look for a live job when it enqueues: a document has two exactly after a
      caller enqueued it beside one. */
  lemma OneLiveStep(c: Config, q: Tables, s: Step)
    requires Enabled(c, q, s) && OneLiveJobPerDocument(q.jobs)
    ensures OneLiveJobPerDocument(Next(c, q, s).jobs) <==> !EnqueuesBeside(q, s)
  {
    hide Next, RetryableKeys, LiveOf, EnqueuesBeside;
    var jobs' := Next(c, q, s).jobs;
    if EnqueuesBeside(q, s) {
      AddedBeside(c, q, s);
    } else {
      forall a, b | a in jobs' && b in jobs' && a != b && jobs'[a].document == jobs'[b].document && Live(jobs'[a].state)
        ensures !Live(jobs'[b].state)
      {
        if Live(jobs'[b].state) {
          if a in q.jobs { LiveAfterStep(c, q, s, a); } else { NewLiveRow(c, q, s, a); }
          if b in q.jobs { LiveAfterStep(c, q, s, b); } else { NewLiveRow(c, q, s, b); }
          if a in q.jobs && Live(q.jobs[a].state) { LiveOne(q.jobs, a); }
          if b in q.jobs && Live(q.jobs[b].state) { LiveOne(q.jobs, b); }
        }
      }
    }
  }

  lemma LiveOne(jobs: map<JobId, Job>, id: JobId)
    requires id in jobs && Live(jobs[id].state)
    ensures LiveOf(jobs, jobs[id].document)
  {
  }

  lemma AddedBeside(c: Config, q: Tables, s: Step)
    requires Enabled(c, q, s) && EnqueuesBeside(q, s)
    ensures !OneLiveJobPerDocument(Next(c, q, s).jobs)
  {
    var jobs' := Next(c, q, s).jobs;
    var other :| other in q.jobs && q.jobs[other].document == s.action.document && Live(q.jobs[other].state);
    assert jobs'[other] == q.jobs[other] && jobs'[s.action.id].document == s.action.document;
  }

  predicate NeverBeside(c: Config, q: Tables, steps: seq<Step>)
    requires ValidRun(c, q, steps)
    decreases |steps|
  {
    steps == [] || (!EnqueuesBeside(q, steps[0]) && NeverBeside(c, Next(c, q, steps[0]), steps[1..]))
  }

  /** Main result: as long as callers enqueue documents without a live job, no run, however it retries,
      claims or recovers, gives a document two live jobs. */
  lemma {:induction false} OneLiveRun(c: Config, q: Tables, steps: seq<Step>)
    requires OneLiveJobPerDocument(q.jobs) && ValidRun(c, q, steps) && NeverBeside(c, q, steps)
    ensures OneLiveJobPerDocument(After(c, q, steps).jobs)
    decreases |steps|
  {
    hide OneLiveJobPerDocument, EnqueuesBeside, Next;
    if steps != [] {
      OneLiveStep(c, q, steps[0]);
      OneLiveRun(c, Next(c, q, steps[0]), steps[1..]);
    }
  }

  // ---------- bounded bypass ----------

  function AttemptsLeft(j: Job): nat {
    if j.attempts < j.maxAttempts then j.maxAttempts - j.attempts else 0
  }

  ghost function Remaining(jobs: map<JobId, Job>, ids: set<JobId>): nat
    requires ids <= jobs.Keys
  {
    if ids == {} then 0
    else var id :| id in ids; AttemptsLeft(jobs[id]) + Remaining(jobs, ids - {id})
  }

  lemma {:induction false} RemainingSplit(jobs: map<JobId, Job>, ids: set<JobId>, id: JobId)
    requires ids <= jobs.Keys && id in ids
    ensures Remaining(jobs, ids) == AttemptsLeft(jobs[id]) + Remaining(jobs, ids - {id})
  {
    var first :| first in ids && Remaining(jobs, ids) == AttemptsLeft(jobs[first]) + Remaining(jobs, ids - {first});
    if first != id {
      RemainingSplit(jobs, ids - {first}, id);
      RemainingSplit(jobs, ids - {id}, first);
      assert ids - {first} - {id} == ids - {id} - {first};
    }
  }

  lemma {:induction false} RemainingFalls(jobs: map<JobId, Job>, jobs': map<JobId, Job>, ids: set<JobId>)
    requires ids <= jobs.Keys && ids <= jobs'.Keys
    requires forall id :: id in ids ==> AttemptsLeft(jobs'[id]) <= AttemptsLeft(jobs[id])
    ensures Remaining(jobs', ids) <= Remaining(jobs, ids)
  {
    if ids != {} {
      var id :| id in ids;
      RemainingSplit(jobs, ids, id);
      RemainingSplit(jobs', ids, id);
      RemainingFalls(jobs, jobs', ids - {id});
    }
  }

  /** The jobs created before `id`, in schedule order. */
  function Older(jobs: map<JobId, Job>, id: JobId): set<JobId>
    requires id in jobs
  {
    set k | k in jobs && KeyLess(Key(0, jobs[k].createdAt, k), Key(0, jobs[id].createdAt, id))
  }

  /** Aged and eligible: only free slots of its class are missing. */
  predicate Waiting(c: Config, q: Tables, id: JobId) {
    && id in q.jobs
    && Eligible(q.jobs, id, q.clock)
    && Aged(q.jobs[id], q.clock, c.starvationSeconds)
  }

  predicate AsksForJob(s: Step) { s.action.Claim? && !s.action.maintenance }

  /** Through the whole run the job stays queued, and its class has a free slot at each claim. */
  predicate PassedOver(c: Config, q: Tables, steps: seq<Step>, id: JobId)
    requires ValidRun(c, q, steps)
    decreases |steps|
  {
    steps == [] ||
    var q' := Next(c, q, steps[0]);
    && (AsksForJob(steps[0]) ==> id in q.jobs && HasSlot(c.limits, q.jobs, q.jobs[id].resource))
    && id in q'.jobs && q'.jobs[id].state == State.Queued
    && PassedOver(c, q', steps[1..], id)
  }

  /** With an aged job waiting and a free slot, a claim takes it or an older one, or finds that one locked. */
  lemma ClaimTakesOlder(c: Config, q: Tables, s: Step, id: JobId)
    requires c.Valid() && Inv(c, q) && Enabled(c, q, s) && Waiting(c, q, id) && AsksForJob(s)
    requires HasSlot(c.limits, q.jobs, q.jobs[id].resource)
    ensures match ClaimedNow(c, q, s)
            case Some(k) => k == id || k in Older(q.jobs, id)
            case None => exists k :: k in s.action.locked && (k == id || k in Older(q.jobs, id))
  {
    hide Inv, Chosen, Kept;
    var locked := s.action.locked;
    ClaimTakesLeastOpenJob(c, q.jobs, locked, s.now);
    WaitingIsOpen(c, q, locked, s.now, id);
    var jobs := FailBlocked(q.jobs, locked, s.now);
    var open := OpenKeys(c, jobs, s.now);
    var least := Least(open);
    assert least == Key(0, jobs[id].createdAt, id) || KeyLess(least, Key(0, jobs[id].createdAt, id));
    assert least == ScheduleKey(least.id, jobs[least.id], s.now, c.starvationSeconds);
  }

  /** A waiting job is among the open ones after blocked jobs have failed, in the aged rank. */
  lemma WaitingIsOpen(c: Config, q: Tables, locked: set<JobId>, now: Time, id: JobId)
    requires Waiting(c, q, id) && q.clock <= now && HasSlot(c.limits, q.jobs, q.jobs[id].resource)
    ensures var jobs := FailBlocked(q.jobs, locked, now);
            && jobs[id] == q.jobs[id]
            && Key(0, jobs[id].createdAt, id) in OpenKeys(c, jobs, now)
  {
    hide Kept;
    var jobs := FailBlocked(q.jobs, locked, now);
    FailBlockedKept(q.jobs, locked, now);
    ActiveUnchanged(q.jobs, locked, now, q.jobs[id].resource);
    assert Eligible(jobs, id, now);
    assert Key(0, jobs[id].createdAt, id) == ScheduleKey(id, jobs[id], now, c.starvationSeconds);
  }

  lemma ActiveUnchanged(jobs: map<JobId, Job>, locked: set<JobId>, now: Time, r: Resource)
    ensures ActiveIn(FailBlocked(jobs, locked, now), r) == ActiveIn(jobs, r)
  {
  }

  lemma WaitingExists(c: Config, q: Tables, id: JobId)
    requires Waiting(c, q, id)
    ensures id in q.jobs && q.jobs[id].attempts < q.jobs[id].maxAttempts
    ensures Older(q.jobs, id) <= q.jobs.Keys && id !in Older(q.jobs, id)
  {
  }

  lemma WaitingStep(c: Config, q: Tables, s: Step, id: JobId)
    requires c.Valid() && Inv(c, q) && Enabled(c, q, s) && Waiting(c, q, id)
    requires id in Next(c, q, s).jobs && Next(c, q, s).jobs[id].state == State.Queued
    ensures Waiting(c, Next(c, q, s), id)
    ensures Older(Next(c, q, s).jobs, id) == Older(q.jobs, id)
    ensures Remaining(Next(c, q, s).jobs, Older(q.jobs, id)) <= Remaining(q.jobs, Older(q.jobs, id))
  {
    hide RowOk;
    var q' := Next(c, q, s);
    NextInv(c, q, s);
    RowAfterStep(c, q, s, id);
    WaitingEligible(c, q, s, id);
    var older := Older(q.jobs, id);
    forall k | k in q'.jobs && k !in q.jobs ensures k !in Older(q'.jobs, id) {
      NewRowAfterStep(c, q, s, k);
    }
    assert Older(q'.jobs, id) == older;
    RemainingFalls(q.jobs, q'.jobs, older);
  }

  lemma WaitingEligible(c: Config, q: Tables, s: Step, id: JobId)
    requires c.Valid() && Enabled(c, q, s) && Waiting(c, q, id) && ClaimedNow(c, q, s) != Some(id)
    requires AllLater(q.jobs, Next(c, q, s).jobs) && Next(c, q, s).jobs[id].state == State.Queued
    requires Next(c, q, s).jobs[id].availableAt == q.jobs[id].availableAt
    requires Next(c, q, s).jobs[id].attempts == q.jobs[id].attempts
    ensures Waiting(c, Next(c, q, s), id)
  {
    hide Acted;
  }

  /** Main result: while an aged job stays queued with a slot free for it, every claim call that finds
      no row locked takes some job, and no more are taken than the attempts left to older jobs. */
  lemma {:induction false} BoundedBypass(c: Config, q: Tables, steps: seq<Step>, id: JobId)
    requires c.Valid() && Inv(c, q) && ValidRun(c, q, steps)
    requires Waiting(c, q, id) && PassedOver(c, q, steps, id)
    ensures |FreeAsks(steps)| <= Claims(c, q, steps) <= Remaining(q.jobs, Older(q.jobs, id))
    decreases |steps|
  {
    hide Inv, Acted, Chosen, Waiting, Remaining;
    WaitingExists(c, q, id);
    if steps != [] {
      var s, q' := steps[0], Next(c, q, steps[0]);
      var older := Older(q.jobs, id);
      WaitingStep(c, q, s, id);
      NextInv(c, q, s);
      BoundedBypass(c, q', steps[1..], id);
      if AsksForJob(s) {
        ClaimTakesOlder(c, q, s, id);
        if ClaimedNow(c, q, s).Some? {
          var k := ClaimedNow(c, q, s).value;
          ClaimedIsActive(c, q, s, k);
          ClaimSpends(c, q, s, k, older);
        }
      }
    }
  }

  lemma ClaimedIsActive(c: Config, q: Tables, s: Step, k: JobId)
    requires Enabled(c, q, s) && ClaimedNow(c, q, s) == Some(k)
    ensures k in q.jobs && k in Next(c, q, s).jobs && Next(c, q, s).jobs[k].state == State.Claimed
  {
    hide ClaimStep, Chosen;
    ClaimedExists(c, q, s);
    ClaimStepClaimsChosen(c, q, s.action.worker, s.action.locked, s.now, k);
  }

  lemma ClaimSpends(c: Config, q: Tables, s: Step, k: JobId, older: set<JobId>)
    requires c.Valid() && Inv(c, q) && Enabled(c, q, s) && ClaimedNow(c, q, s) == Some(k)
    requires k in older && older <= q.jobs.Keys
    ensures older <= Next(c, q, s).jobs.Keys
    ensures Remaining(Next(c, q, s).jobs, older) < Remaining(q.jobs, older)
  {
    hide RowOk, Next;
    var q' := Next(c, q, s);
    NextInv(c, q, s);
    RowAfterStep(c, q, s, k);
    ClaimedHasAttempt(c, q, s, k);
    SpentOne(q.jobs, q'.jobs, older, k);
  }

  lemma SpentOne(jobs: map<JobId, Job>, jobs': map<JobId, Job>, ids: set<JobId>, k: JobId)
    requires k in ids && ids <= jobs.Keys && AllLater(jobs, jobs')
    requires jobs[k].attempts < jobs[k].maxAttempts && jobs'[k].attempts == jobs[k].attempts + 1
    ensures ids <= jobs'.Keys
    ensures Remaining(jobs', ids) < Remaining(jobs, ids)
  {
    RemainingSplit(jobs, ids, k);
    RemainingSplit(jobs', ids, k);
    RemainingFalls(jobs, jobs', ids - {k});
  }

  lemma ClaimedHasAttempt(c: Config, q: Tables, s: Step, k: JobId)
    requires ClaimedNow(c, q, s) == Some(k)
    ensures k in q.jobs && q.jobs[k].attempts < q.jobs[k].maxAttempts
  {
  }

  function FreeAsks(steps: seq<Step>): seq<Step> {
    if steps == [] then []
    else (if AsksForJob(steps[0]) && steps[0].action.locked == {} then [steps[0]] else []) + FreeAsks(steps[1..])
  }

  // ---------- one owner ----------

  predicate OwnedBy(q: Tables, id: JobId, worker: WorkerId, beat: Time) {
    && id in q.jobs
    && q.jobs[id].claimedBy == Some(worker)
    && (Active(q.jobs[id].state) || q.jobs[id].state == State.Completed)
    && (Active(q.jobs[id].state) ==> q.jobs[id].heartbeatAt.Some? && q.jobs[id].heartbeatAt.value >= beat)
    && beat <= q.clock
  }

  /** The worker does not give the job up, and whenever recovery runs its last beat is at most
      twice the configured interval old. */
  predicate Attended(c: Config, steps: seq<Step>, id: JobId, worker: WorkerId, beat: Time)
    decreases |steps|
  {
    steps == [] ||
    (&& !(steps[0].action.Fail? && steps[0].action.id == id && steps[0].action.worker == worker)
     && !(steps[0].action.ObserveCancel? && steps[0].action.id == id && steps[0].action.worker == worker)
     && (steps[0].action.Recover? ==> steps[0].now <= beat + 2 * c.heartbeatSeconds)
     && Attended(c, steps[1..], id, worker, NextBeat(steps[0], id, worker, beat)))
  }

  function NextBeat(s: Step, id: JobId, worker: WorkerId, beat: Time): Time {
    if s.action == Heartbeat(id, worker) then s.now else beat
  }

  /** A claim makes its worker the owner, with the claim as the first beat. */
  lemma ClaimOwns(c: Config, q: Tables, s: Step, id: JobId)
    requires Enabled(c, q, s) && ClaimedNow(c, q, s) == Some(id)
    ensures OwnedBy(Next(c, q, s), id, s.action.worker, s.now)
  {
    hide ClaimStep, Chosen;
    ClaimedExists(c, q, s);
    ClaimStepClaimsChosen(c, q, s.action.worker, s.action.locked, s.now, id);
  }

  lemma OwnedStep(c: Config, q: Tables, s: Step, id: JobId, worker: WorkerId, beat: Time)
    requires c.Valid() && Enabled(c, q, s) && OwnedBy(q, id, worker, beat)
    requires Attended(c, [s], id, worker, beat)
    ensures OwnedBy(Next(c, q, s), id, worker, NextBeat(s, id, worker, beat))
    ensures ClaimedNow(c, q, s) != Some(id)
  {
    hide RowOk, ClaimStep, RetryStep, Chosen, RecoveredRow, ClaimedRow;
    match s.action
    case Claim(other, maintenance, locked) =>
      if maintenance {
        MaintenanceClaims(c, q, other, locked, s.now);
      } else {
        ClaimStepClaimsChosen(c, q, other, locked, s.now, id);
      }
    case Retry(_, _, _, _) => RowAfterRetry(q, s.action, s.now, id);
    case Advance(k, _, route) =>
      if k == id && AdvancedRow(q.jobs[id], worker, route, s.now).Ok? { AdvancedKept(q.jobs[id], worker, route, s.now); }
    case _ =>
  }

  /** Main result: recovery never takes an attended job, so nobody else ever claims it. */
  lemma {:induction false} OneOwner(c: Config, q: Tables, steps: seq<Step>, id: JobId, worker: WorkerId, beat: Time)
    requires c.Valid() && ValidRun(c, q, steps)
    requires OwnedBy(q, id, worker, beat) && Attended(c, steps, id, worker, beat)
    ensures id in After(c, q, steps).jobs
    ensures After(c, q, steps).jobs[id].claimedBy == Some(worker)
    ensures ClaimsOf(c, q, steps, id) == 0
    decreases |steps|
  {
    if steps != [] {
      OwnedStep(c, q, steps[0], id, worker, beat);
      OneOwner(c, Next(c, q, steps[0]), steps[1..], id, worker, NextBeat(steps[0], id, worker, beat));
    }
  }
}
