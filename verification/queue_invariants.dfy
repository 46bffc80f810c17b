/** What holds in every reachable state of the queue, for a fixed configuration. */
module QueueInvariants {
  import opened Common
  import opened Execution
  import opened Queue
  import opened JobRows
  import opened Scheduler

  predicate MayHoldLease(jobs: map<JobId, Job>, id: JobId) {
    id in jobs && (Active(jobs[id].state) || jobs[id].state == State.Completed)
  }

  predicate RowsOk(jobs: map<JobId, Job>) { forall id :: id in jobs ==> RowOk(jobs[id]) }

  /** A predecessor exists, and is completed once the job has ever been claimed. */
  predicate PredecessorsOk(jobs: map<JobId, Job>) {
    forall id :: id in jobs && jobs[id].dependency.Some? ==>
      var parent := jobs[id].dependency.value;
      parent in jobs && (jobs[id].attempts > 0 ==> jobs[parent].state == State.Completed)
  }

  predicate WithinLimits(c: Config, q: Tables) {
    forall r :: r in c.limits ==> |ActiveIn(q.jobs, r)| <= c.limits[r] && |LeasesIn(q.leases, r)| <= c.limits[r]
  }

  predicate LeasesOk(q: Tables) {
    && (forall l :: l in q.leases ==> MayHoldLease(q.jobs, q.leases[l].job))
    && (forall l, m :: l in q.leases && m in q.leases && l != m
          ==> q.leases[l].job != q.leases[m].job || q.leases[l].resource != q.leases[m].resource)
  }

  predicate CreatedBefore(q: Tables) { forall id :: id in q.jobs ==> q.jobs[id].createdAt <= q.clock }

  predicate Inv(c: Config, q: Tables) {
    && RowsOk(q.jobs)
    && PredecessorsOk(q.jobs)
    && WithinLimits(c, q)
    && LeasesOk(q)
    && CreatedBefore(q)
  }

  /** Rows only evolve; none is lost. */
  predicate AllLater(jobs: map<JobId, Job>, jobs': map<JobId, Job>) {
    forall id :: id in jobs ==> id in jobs' && Later(jobs[id], jobs'[id])
  }

  predicate AllKept(jobs: map<JobId, Job>, jobs': map<JobId, Job>) {
    && jobs.Keys == jobs'.Keys
    && forall id :: id in jobs ==> Kept(jobs[id], jobs'[id])
  }

  predicate LeasesFewer(leases: map<LeaseId, Lease>, leases': map<LeaseId, Lease>) {
    forall l :: l in leases' ==>
      l in leases && leases'[l].job == leases[l].job && leases'[l].resource == leases[l].resource
  }

  // ---------- a step that only keeps rows ----------

  lemma SameJobs(jobs: map<JobId, Job>)
    ensures AllKept(jobs, jobs) && AllLater(jobs, jobs)
  {
  }

  lemma AllLaterTransitive(jobs: map<JobId, Job>, jobs': map<JobId, Job>, jobs'': map<JobId, Job>)
    requires AllLater(jobs, jobs') && AllLater(jobs', jobs'')
    ensures AllLater(jobs, jobs'')
  {
  }

  lemma ClockTicks(c: Config, q: Tables, now: Time)
    requires Inv(c, q) && q.clock <= now
    ensures Inv(c, q.(clock := now))
  {
    hide RowOk;
  }

  lemma KeptStep(c: Config, q: Tables, q': Tables)
    requires Inv(c, q)
    requires AllKept(q.jobs, q'.jobs) && LeasesFewer(q.leases, q'.leases) && q.clock <= q'.clock
    requires forall l :: l in q'.leases ==> MayHoldLease(q'.jobs, q'.leases[l].job)
    ensures Inv(c, q') && AllLater(q.jobs, q'.jobs)
  {
    forall r | r in c.limits
      ensures |ActiveIn(q'.jobs, r)| <= c.limits[r] && |LeasesIn(q'.leases, r)| <= c.limits[r]
    {
      SubsetCardinality(ActiveIn(q'.jobs, r), ActiveIn(q.jobs, r));
      SubsetCardinality(LeasesIn(q'.leases, r), LeasesIn(q.leases, r));
    }
  }

  /** Changing one row, with leases of rows that leave the active states gone. */
  lemma KeptRowStep(c: Config, q: Tables, q': Tables, id: JobId)
    requires Inv(c, q) && id in q.jobs
    requires q'.jobs.Keys == q.jobs.Keys && Kept(q.jobs[id], q'.jobs[id])
    requires forall other :: other in q.jobs && other != id ==> q'.jobs[other] == q.jobs[other]
    requires LeasesFewer(q.leases, q'.leases) && q.clock <= q'.clock
    requires MayHoldLease(q'.jobs, id) || forall l :: l in q'.leases ==> q'.leases[l].job != id
    ensures Inv(c, q') && AllLater(q.jobs, q'.jobs)
  {
    hide RowOk, Later, Kept, PredecessorsOk, WithinLimits, CreatedBefore;
    SameJobs(q.jobs);
    KeptMayHold(q.jobs, q'.jobs, id);
    KeptStep(c, q, q');
  }

  lemma KeptMayHold(jobs: map<JobId, Job>, jobs': map<JobId, Job>, id: JobId)
    requires forall other :: other in jobs && other != id ==> other in jobs' && jobs'[other] == jobs[other]
    ensures forall other :: other in jobs && other != id && MayHoldLease(jobs, other) ==> MayHoldLease(jobs', other)
  {
    hide RowOk;
  }

  lemma FailBlockedKept(jobs: map<JobId, Job>, locked: set<JobId>, now: Time)
    ensures AllKept(jobs, FailBlocked(jobs, locked, now))
    ensures forall id :: id in jobs && !Blocked(jobs, id) ==> FailBlocked(jobs, locked, now)[id] == jobs[id]
  {
    forall id | id in jobs && Blocked(jobs, id) ensures Kept(jobs[id], FailBlocked(jobs, locked, now)[id]) {
      DependencyFailedKept(jobs[id], now);
    }
  }

  lemma FailBlockedInv(c: Config, q: Tables, locked: set<JobId>, now: Time)
    requires Inv(c, q) && q.clock <= now
    ensures var q1 := q.(jobs := FailBlocked(q.jobs, locked, now), clock := now);
            Inv(c, q1) && AllLater(q.jobs, q1.jobs)
  {
    FailBlockedKept(q.jobs, locked, now);
    KeptStep(c, q, q.(jobs := FailBlocked(q.jobs, locked, now), clock := now));
  }

  // ---------- a step that starts a job ----------

  lemma PredecessorsAfter(jobs: map<JobId, Job>, id: JobId, j: Job)
    requires PredecessorsOk(jobs) && id in jobs && Later(jobs[id], j)
    requires j.dependency.Some? && j.attempts > 0 ==>
               j.dependency.value in jobs && jobs[j.dependency.value].state == State.Completed
    ensures PredecessorsOk(jobs[id := j])
  {
    hide RowOk;
  }

  lemma ActiveAfter(jobs: map<JobId, Job>, id: JobId, j: Job, r: Resource)
    requires id in jobs ==> !(Active(jobs[id].state) && jobs[id].resource == r)
    ensures ActiveIn(jobs[id := j], r) ==
            ActiveIn(jobs, r) + (if Active(j.state) && j.resource == r then {id} else {})
  {
    hide RowOk;
  }

  lemma LeasesAfter(q: Tables, id: JobId, j: Job)
    requires LeasesOk(q) && !MayHoldLease(q.jobs, id)
    ensures LeasesOk(q.(jobs := q.jobs[id := j]))
  {
    hide RowOk;
  }

  /** A row that starts or restarts: what it needs for the tables to stay in order. */
  lemma StartedRowInv(c: Config, q: Tables, id: JobId, j: Job)
    requires Inv(c, q) && id in q.jobs && RowOk(j) && Later(q.jobs[id], j)
    requires j.dependency.Some? && j.attempts > 0 ==>
               j.dependency.value in q.jobs && q.jobs[j.dependency.value].state == State.Completed
    requires Active(j.state) ==> HasSlot(c.limits, q.jobs, j.resource)
    requires !MayHoldLease(q.jobs, id)
    ensures var q' := q.(jobs := q.jobs[id := j]); Inv(c, q') && AllLater(q.jobs, q'.jobs)
  {
    hide RowOk, PredecessorsOk, LeasesOk, Kept;
    SameJobs(q.jobs);
    var q' := q.(jobs := q.jobs[id := j]);
    PredecessorsAfter(q.jobs, id, j);
    LeasesAfter(q, id, j);
    forall r | r in c.limits ensures |ActiveIn(q'.jobs, r)| <= c.limits[r] {
      ActiveAfter(q.jobs, id, j, r);
    }
  }

  /** The row that a claim takes, once blocked jobs have failed. */
  lemma ClaimedInv(c: Config, q: Tables, worker: WorkerId, now: Time)
    requires Inv(c, q) && AdmissibleKeys(c, q.jobs, now) != {}
    ensures var id := Least(AdmissibleKeys(c, q.jobs, now)).id;
            var q' := q.(jobs := q.jobs[id := ClaimedRow(q.jobs[id], worker, now)]);
            Inv(c, q') && AllLater(q.jobs, q'.jobs)
  {
    hide RowOk, Kept, WithinLimits, CreatedBefore, ActiveIn;
    var id := Least(AdmissibleKeys(c, q.jobs, now)).id;
    AdmissibleKeysAreOpen(c, q.jobs, now);
    assert Least(AdmissibleKeys(c, q.jobs, now)) in OpenKeys(c, q.jobs, now);
    ClaimedRowOk(q.jobs[id], worker, now);
    StartedRowInv(c, q, id, ClaimedRow(q.jobs[id], worker, now));
  }

  lemma DeferredInv(c: Config, q: Tables, id: JobId, worker: WorkerId)
    requires Inv(c, q) && id in q.jobs && q.jobs[id].state == State.Queued
    ensures var q' := q.(jobs := q.jobs[id := DeferredRow(q.jobs[id], worker)]);
            Inv(c, q') && AllLater(q.jobs, q'.jobs)
  {
    hide RowOk, Kept, Later, PredecessorsOk, WithinLimits, CreatedBefore;
    DeferredKept(q.jobs[id], worker);
    KeptRowStep(c, q, q.(jobs := q.jobs[id := DeferredRow(q.jobs[id], worker)]), id);
  }

  lemma ClaimInv(c: Config, q: Tables, worker: WorkerId, maintenance: bool, locked: set<JobId>, now: Time)
    requires Inv(c, q) && q.clock <= now
    ensures var q' := ClaimStep(c, q, worker, maintenance, locked, now).(clock := now);
            Inv(c, q') && AllLater(q.jobs, q'.jobs)
  {
    hide Inv, AllLater, ClaimedRow, DeferredRow, FailBlocked;
    var jobs := FailBlocked(q.jobs, locked, now);
    var q1 := q.(jobs := jobs, clock := now);
    FailBlockedInv(c, q, locked, now);
    var candidates, admissible := CandidateKeys(jobs, now, c.starvationSeconds), AdmissibleKeys(c, jobs, now);
    if maintenance {
      ClockTicks(c, q, now);
      SameJobs(q.jobs);
    } else if admissible != {} {
      var id := Least(admissible).id;
      ClaimedInv(c, q1, worker, now);
      AllLaterTransitive(q.jobs, jobs, jobs[id := ClaimedRow(jobs[id], worker, now)]);
    } else if candidates != {} {
      var id := Least(candidates).id;
      CandidatesAreQueued(jobs, now, c.starvationSeconds);
      DeferredInv(c, q1, id, worker);
      AllLaterTransitive(q.jobs, jobs, jobs[id := DeferredRow(jobs[id], worker)]);
    }
  }

  lemma AddJobInv(c: Config, q: Tables, id: JobId, j: Job)
    requires Inv(c, q) && id !in q.jobs && RowOk(j) && j.state == State.Queued && j.attempts == 0
    requires j.dependency.Some? ==> j.dependency.value in q.jobs
    requires j.createdAt <= q.clock
    ensures var q' := q.(jobs := q.jobs[id := j]); Inv(c, q') && AllLater(q.jobs, q'.jobs)
  {
    hide RowOk, Later, Kept, PredecessorsOk, LeasesOk, WithinLimits;
    SameJobs(q.jobs);
    AddedPredecessor(q.jobs, id, j);
    LeasesAfter(q, id, j);
    AddedWithinLimits(c, q, id, j);
  }

  lemma AddedWithinLimits(c: Config, q: Tables, id: JobId, j: Job)
    requires WithinLimits(c, q) && id !in q.jobs && j.state == State.Queued
    ensures WithinLimits(c, q.(jobs := q.jobs[id := j]))
  {
    hide RowOk;
    forall r | r in c.limits ensures |ActiveIn(q.jobs[id := j], r)| <= c.limits[r] {
      ActiveAfter(q.jobs, id, j, r);
    }
  }

  lemma AddedPredecessor(jobs: map<JobId, Job>, id: JobId, j: Job)
    requires PredecessorsOk(jobs) && id !in jobs && j.attempts == 0
    requires j.dependency.Some? ==> j.dependency.value in jobs
    ensures PredecessorsOk(jobs[id := j])
  {
    hide RowOk;
  }

  lemma RetryInv(c: Config, q: Tables, a: Action, now: Time)
    requires Inv(c, q) && q.clock <= now && a.Retry? && a.id !in q.jobs
    ensures var q' := RetryStep(q, a, now).(clock := now); Inv(c, q') && AllLater(q.jobs, q'.jobs)
  {
    hide RowOk, Later, Kept;
    SameJobs(q.jobs);
    var q1 := q.(clock := now);
    var keys := RetryableKeys(q.jobs, a.document);
    if LiveOf(q.jobs, a.document) {
      ClockTicks(c, q, now);
    } else if keys != {} {
      var id := Least(keys).id;
      assert Least(keys) in keys;
      RetriedRowOk(q.jobs[id], now);
      ClockTicks(c, q, now);
      StartedRowInv(c, q1, id, RetriedRow(q.jobs[id], now));
    } else if a.maxAttempts >= 1 {
      NewJobOk(a.document, Interactive, a.resource, a.maxAttempts, None, now);
      ClockTicks(c, q, now);
      AddJobInv(c, q1, a.id, NewJob(a.document, Interactive, a.resource, a.maxAttempts, None, now));
    } else {
      ClockTicks(c, q, now);
    }
  }

  // ---------- leases ----------

  lemma NotedRowInv(c: Config, q: Tables, q': Tables, id: JobId, j: Job)
    requires Inv(c, q) && id in q.jobs && Active(q.jobs[id].state) && Kept(q.jobs[id], j) && j.state == q.jobs[id].state
    requires q'.jobs == q.jobs[id := j] && LeasesFewer(q.leases, q'.leases) && q.clock <= q'.clock
    ensures Inv(c, q') && AllLater(q.jobs, q'.jobs)
  {
    hide Inv, AllLater, Kept;
    KeptRowStep(c, q, q', id);
  }

  lemma AcquireInv(c: Config, q: Tables, a: Action, now: Time)
    requires Inv(c, q) && q.clock <= now && a.Acquire? && Holds(q.jobs, a.id, a.worker)
    requires a.resource in c.limits && a.lease !in q.leases
    ensures var q' := AcquireStep(c, q, a, now).(clock := now); Inv(c, q') && AllLater(q.jobs, q'.jobs)
  {
    hide Inv, AllLater, Kept;
    var q' := AcquireStep(c, q, a, now).(clock := now);
    var leases := Unexpired(q.leases, now - c.jobTimeout);
    var j := q.jobs[a.id];
    if c.limits[a.resource] < 1 {
      ClockTicks(c, q, now);
      SameJobs(q.jobs);
    } else if LeasesOf(leases, a.id, a.resource) != {} {
      SameJobs(q.jobs);
      assert q.jobs[a.id := j] == q.jobs;
      KeptSame(j);
      NotedRowInv(c, q, q', a.id, j);
    } else if |LeasesIn(leases, a.resource)| >= c.limits[a.resource] {
      DeferredKept(j, a.worker);
      NotedRowInv(c, q, q', a.id, DeferredRow(j, a.worker));
    } else {
      NotedKept(j, ResourceAcquired, Some(a.worker));
      var q1 := q.(leases := leases, jobs := q'.jobs, clock := now);
      NotedRowInv(c, q, q1, a.id, Noted(j, ResourceAcquired, Some(a.worker)));
      AddLeaseInv(c, q1, a.lease, Lease(a.id, a.resource, a.worker, now));
    }
  }

  lemma KeptSame(j: Job)
    ensures Kept(j, j)
  {
  }

  lemma LeasesInAfter(leases: map<LeaseId, Lease>, l: LeaseId, lease: Lease, r: Resource)
    requires l !in leases
    ensures LeasesIn(leases[l := lease], r) == LeasesIn(leases, r) + (if lease.resource == r then {l} else {})
  {
  }

  lemma AddLeaseInv(c: Config, q: Tables, l: LeaseId, lease: Lease)
    requires Inv(c, q) && l !in q.leases && MayHoldLease(q.jobs, lease.job)
    requires LeasesOf(q.leases, lease.job, lease.resource) == {}
    requires lease.resource in c.limits && |LeasesIn(q.leases, lease.resource)| < c.limits[lease.resource]
    ensures Inv(c, q.(leases := q.leases[l := lease]))
  {
    hide RowsOk, PredecessorsOk;
    var leases := q.leases[l := lease];
    forall r | r in c.limits ensures |LeasesIn(leases, r)| <= c.limits[r] {
      LeasesInAfter(q.leases, l, lease, r);
    }
    forall m | m in q.leases
      ensures q.leases[m].job != lease.job || q.leases[m].resource != lease.resource
    {
      assert m !in LeasesOf(q.leases, lease.job, lease.resource);
    }
  }

  lemma RecoverInv(c: Config, q: Tables, worker: WorkerId, locked: set<JobId>, now: Time)
    requires Inv(c, q) && q.clock <= now
    ensures var q' := RecoverStep(c, q, worker, locked, now).(clock := now); Inv(c, q') && AllLater(q.jobs, q'.jobs)
  {
    hide Inv, Kept, RecoveredRow, AllLater;
    var q' := RecoverStep(c, q, worker, locked, now).(clock := now);
    forall id | id in q.jobs ensures Kept(q.jobs[id], q'.jobs[id]) {
      if id !in locked && Stale(q.jobs[id], now - c.jobTimeout) {
        RecoveredKept(q.jobs[id], worker, now);
      } else {
        KeptSame(q.jobs[id]);
      }
    }
    UnrecoveredHold(c, q, worker, locked, now);
    KeptStep(c, q, q');
  }

  lemma UnrecoveredHold(c: Config, q: Tables, worker: WorkerId, locked: set<JobId>, now: Time)
    requires Inv(c, q)
    ensures var q' := RecoverStep(c, q, worker, locked, now); forall l :: l in q'.leases ==> MayHoldLease(q'.jobs, q'.leases[l].job)
  {
    hide RowsOk, PredecessorsOk, WithinLimits, CreatedBefore, RecoveredRow;
  }

  // ---------- every step, every run ----------

  lemma JobStepInv(c: Config, q: Tables, s: Step)
    requires Inv(c, q) && Enabled(c, q, s)
    requires s.action.Advance? || s.action.Fail? || s.action.RequestCancel? || s.action.ObserveCancel?
    ensures Inv(c, Next(c, q, s)) && AllLater(q.jobs, Next(c, q, s).jobs)
  {
    hide RowOk, Later, Kept, PredecessorsOk, WithinLimits, CreatedBefore;
    SameJobs(q.jobs);
    var q' := Next(c, q, s);
    match s.action
    case Advance(id, worker, route) =>
      if AdvancedRow(q.jobs[id], worker, route, s.now).Ok? { AdvancedKept(q.jobs[id], worker, route, s.now); }
      KeptRowStep(c, q, q', id);
    case Fail(id, worker, failure) =>
      if FailedRow(q.jobs[id], worker, failure, s.now).Ok? { FailedKept(q.jobs[id], worker, failure, s.now); }
      KeptRowStep(c, q, q', id);
    case RequestCancel(id) =>
      if id in q.jobs {
        CancelAskedKept(q.jobs[id], s.now);
        KeptRowStep(c, q, q', id);
      } else {
        KeptStep(c, q, q');
      }
    case ObserveCancel(id, worker) =>
      CancelObservedKept(q.jobs[id], worker, s.now);
      KeptRowStep(c, q, q', id);
  }

  lemma EnqueueInv(c: Config, q: Tables, a: Action, now: Time)
    requires Inv(c, q) && Enabled(c, q, Step(now, a)) && a.Enqueue?
    ensures var q' := EnqueueStep(q, a, now).(clock := now); Inv(c, q') && AllLater(q.jobs, q'.jobs)
  {
    hide Inv, AllLater;
    ClockTicks(c, q, now);
    SameJobs(q.jobs);
    if a.maxAttempts >= 1 && (a.dependency.Some? ==> a.dependency.value in q.jobs) {
      NewJobOk(a.document, a.priority, a.resource, a.maxAttempts, a.dependency, now);
      AddJobInv(c, q.(clock := now), a.id,
                NewJob(a.document, a.priority, a.resource, a.maxAttempts, a.dependency, now));
    }
  }

  lemma HeartbeatInv(c: Config, q: Tables, id: JobId, worker: WorkerId, now: Time)
    requires Inv(c, q) && q.clock <= now
    ensures var q' := HeartbeatStep(q, id, worker, now).(clock := now); Inv(c, q') && AllLater(q.jobs, q'.jobs)
  {
    hide RowOk, PredecessorsOk, WithinLimits, CreatedBefore, Kept, Later;
    SameJobs(q.jobs);
    var q' := HeartbeatStep(q, id, worker, now).(clock := now);
    if Holds(q.jobs, id, worker) {
      HeartbeatKept(q.jobs[id], now);
      KeptRowStep(c, q, q', id);
    } else {
      KeptStep(c, q, q');
    }
  }

  lemma ReleaseInv(c: Config, q: Tables, s: Step)
    requires Inv(c, q) && Enabled(c, q, s) && (s.action.Release? || s.action.ReleaseAll?)
    ensures Inv(c, Next(c, q, s)) && AllLater(q.jobs, Next(c, q, s).jobs)
  {
    hide RowOk, PredecessorsOk, WithinLimits, CreatedBefore, Kept, Later;
    SameJobs(q.jobs);
    if s.action.Release? {
      NotedKept(q.jobs[s.action.id], ResourceReleased, Some(s.action.worker));
      KeptRowStep(c, q, Next(c, q, s), s.action.id);
    } else {
      KeptStep(c, q, Next(c, q, s));
    }
  }

  lemma NextInv(c: Config, q: Tables, s: Step)
    requires Inv(c, q) && Enabled(c, q, s)
    ensures Inv(c, Next(c, q, s)) && AllLater(q.jobs, Next(c, q, s).jobs)
  {
    hide Inv, AllLater, EnqueueStep, ClaimStep, RecoverStep, HeartbeatStep, AcquireStep, RetryStep;
    match s.action
    case Enqueue(_, _, _, _, _, _) => EnqueueInv(c, q, s.action, s.now);
    case Claim(worker, maintenance, locked) => ClaimInv(c, q, worker, maintenance, locked, s.now);
    case Recover(worker, locked) => RecoverInv(c, q, worker, locked, s.now);
    case Heartbeat(id, worker) => HeartbeatInv(c, q, id, worker, s.now);
    case Acquire(_, _, _, _) => AcquireInv(c, q, s.action, s.now);
    case Retry(_, _, _, _) => RetryInv(c, q, s.action, s.now);
    case Advance(_, _, _) => JobStepInv(c, q, s);
    case Fail(_, _, _) => JobStepInv(c, q, s);
    case RequestCancel(_) => JobStepInv(c, q, s);
    case ObserveCancel(_, _) => JobStepInv(c, q, s);
    case _ => ReleaseInv(c, q, s);
  }

  lemma EmptyInv(c: Config)
    requires c.Valid()
    ensures Inv(c, Empty())
  {
  }

  /** Main result: every run keeps the invariant, and what a row has reached stays. */
  lemma {:induction false} RunInv(c: Config, q: Tables, steps: seq<Step>)
    requires Inv(c, q) && ValidRun(c, q, steps)
    ensures Inv(c, After(c, q, steps)) && AllLater(q.jobs, After(c, q, steps).jobs)
    decreases |steps|
  {
    hide Inv, AllLater, Next, Enabled;
    SameJobs(q.jobs);
    if steps != [] {
      var q' := Next(c, q, steps[0]);
      NextInv(c, q, steps[0]);
      RunInv(c, q', steps[1..]);
      AllLaterTransitive(q.jobs, q'.jobs, After(c, q', steps[1..]).jobs);
    }
  }

  /** So it holds in every state that the empty queue can reach. */
  lemma ReachableInv(c: Config, steps: seq<Step>)
    requires c.Valid() && ValidRun(c, Empty(), steps)
    ensures Inv(c, After(c, Empty(), steps))
  {
    EmptyInv(c);
    RunInv(c, Empty(), steps);
  }
}
