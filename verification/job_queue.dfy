/** The queue functions as they run: rows fetched, changed field by field, and committed.
    Each is one transaction, and equals its step of `Queue.Next`. */
module JobQueues {
  import opened Common
  import opened Execution
  import opened Queue
  import opened JobRows
  import opened Scheduler
  import opened QueueInvariants
  import opened QueueRuns
  import opened QueueEffects

  method TransitionJob(j: Job, target: State, worker: Option<WorkerId>, kind: EventKind, now: Time)
    returns (r: Result<Job, QueueError>)
    ensures r == if Allowed(j.state, target) then Ok(Transitioned(j, target, worker, kind, now)) else Err(InvalidTransition)
  {
    if target !in ValidTransitions(j.state) {
      return Err(InvalidTransition);
    }
    var moved := j.(events := j.events + [Event(j.state, target, kind, j.attempts, worker)]);
    moved := moved.(state := target, heartbeatAt := Some(now));
    if Terminal(target) {
      moved := moved.(finishedAt := Some(now));
    }
    if target == State.Completed {
      moved := moved.(failure := None);
    }
    if target == State.Cancelled {
      moved := moved.(failure := Some(CancelledByUser));
    }
    return Ok(moved);
  }

  predicate SameAttempts(j: Job, j': Job) { j'.attempts == j.attempts && j'.maxAttempts == j.maxAttempts }

  method RecoverRow(j: Job, worker: WorkerId, now: Time) returns (job: Job)
    requires Active(j.state)
    ensures job == RecoveredRow(j, worker, now)
  {
    var moved;
    if j.state == State.CancelRequested {
      moved := TransitionJob(j, State.Cancelled, Some(worker), Ended, now);
      job := moved.value;
    } else if j.attempts < j.maxAttempts {
      moved := TransitionJob(j, State.Queued, Some(worker), Recovered, now);
      job := moved.value.(availableAt := now);
    } else {
      moved := TransitionJob(j.(failure := Some(Retryable)), State.Failed, Some(worker), Ended, now);
      job := moved.value;
    }
    job := job.(claimedBy := None);
  }

  /** The row after a failure, and whether the job is retried. */
  method FailRow(j: Job, worker: WorkerId, failure: FailureClass, now: Time) returns (r: Result<Job, QueueError>, retry: bool)
    requires Active(j.state)
    ensures r == FailedRow(j, worker, failure, now) && (retry <==> IsRetried(j, failure))
    ensures r.Err? <==> j.state == State.CancelRequested && retry
    ensures r.Ok? ==>
              && FailureSeen(j, r.value, failure, now)
              && r.value.state == (if retry then State.Queued else if failure == Timeout then State.TimedOut else State.Failed)
              && (retry ==> r.value.availableAt > now)
              && r.value.events != [] && Last(r.value.events).from == j.state
  {
    hide DelaySeconds, ShouldRetry, Transitioned, FailureSeen, BackOff, IsRetried;
    FailureEffects(j, worker, failure, now);
    RetriedIff(j, failure);
    var job := j.(failure := Some(failure), claimedBy := None);
    retry := ShouldRetry(failure, job.attempts, job.maxAttempts);
    if retry {
      var moved := TransitionJob(job, State.Queued, Some(worker), RetryScheduled, now);
      if moved.Err? {
        return moved, retry;
      }
      SomeDelay(job.attempts);
      TransitionedState(job, State.Queued, Some(worker), RetryScheduled, now);
      return Ok(moved.value.(availableAt := now + DelaySeconds(job.attempts))), retry;
    }
    var target := if failure == Timeout then State.TimedOut else State.Failed;
    var moved := TransitionJob(job, target, Some(worker), Ended, now);
    TransitionedState(job, target, Some(worker), Ended, now);
    return moved, retry;
  }

  method AdmitRow(j: Job, worker: WorkerId, now: Time) returns (job: Job)
    requires j.state == State.Queued
    ensures job == ClaimedRow(j, worker, now)
  {
    job := Noted(j, Admitted, Some(worker));
    var moved := TransitionJob(job, State.Claimed, Some(worker), ClaimedJob, now);
    job := moved.value;
    job := job.(claimedBy := Some(worker), finishedAt := None);
    job := job.(attempts := job.attempts + 1);
  }

  lemma StaleAreActive(jobs: map<JobId, Job>, locked: set<JobId>, cutoff: Time, id: JobId)
    requires id in StaleIds(jobs, locked, cutoff)
    ensures id in jobs && Active(jobs[id].state)
  {
  }

  function RecoveredRows(jobs: map<JobId, Job>, ids: set<JobId>, worker: WorkerId, now: Time): map<JobId, Job> {
    map id | id in jobs :: if id in ids then RecoveredRow(jobs[id], worker, now) else jobs[id]
  }

  /** What a release and a lease request do, of all the steps. */
  lemma NextIsStep(c: Config, q: Tables, s: Step)
    requires Enabled(c, q, s)
    ensures s.action.Release? ==>
              Next(c, q, s) == ReleaseStep(q, s.action.id, s.action.resource, s.action.worker).(clock := s.now)
    ensures s.action.Acquire? ==> Next(c, q, s) == AcquireStep(c, q, s.action, s.now).(clock := s.now)
  {
  }

  lemma NotedState(j: Job, kind: EventKind, worker: Option<WorkerId>)
    ensures Noted(j, kind, worker).state == j.state && Noted(j, kind, worker).claimedBy == j.claimedBy
    ensures SameAttempts(j, Noted(j, kind, worker))
  {
  }

  lemma TransitionedState(j: Job, target: State, worker: Option<WorkerId>, kind: EventKind, now: Time)
    ensures var moved := Transitioned(j, target, worker, kind, now);
            moved.state == target && moved.events != [] && Last(moved.events).from == j.state
  {
  }

  /** The recovered jobs that end up in a state. */
  function RecoveredTo(jobs: map<JobId, Job>, ids: set<JobId>, worker: WorkerId, now: Time, state: State): set<JobId> {
    set id | id in ids && id in jobs && RecoveredRow(jobs[id], worker, now).state == state
  }

  lemma NoneRecovered(q: Tables, worker: WorkerId, now: Time)
    ensures RecoveredRows(q.jobs, {}, worker, now) == q.jobs && WithoutLeasesOf(q.leases, {}) == q.leases
    ensures forall state :: RecoveredTo(q.jobs, {}, worker, now, state) == {}
  {
    hide RecoveredRow;
  }

  lemma OneMoreRecovered(jobs: map<JobId, Job>, ids: set<JobId>, id: JobId, worker: WorkerId, now: Time)
    requires id in jobs && id !in ids
    ensures var before, after := RecoveredRows(jobs, ids, worker, now), RecoveredRows(jobs, ids + {id}, worker, now);
            id in before && before[id] == jobs[id] && after == before[id := RecoveredRow(jobs[id], worker, now)]
  {
    hide RecoveredRow;
  }

  lemma ReleasedTogether(leases: map<LeaseId, Lease>, ids: set<JobId>, id: JobId)
    ensures WithoutLeasesOf(WithoutLeasesOf(leases, ids), {id}) == WithoutLeasesOf(leases, ids + {id})
  {
  }

  lemma OneMoreCounted(jobs: map<JobId, Job>, ids: set<JobId>, id: JobId, worker: WorkerId, now: Time, state: State)
    requires id in jobs && id !in ids
    ensures |RecoveredTo(jobs, ids + {id}, worker, now, state)| ==
            |RecoveredTo(jobs, ids, worker, now, state)| + if RecoveredRow(jobs[id], worker, now).state == state then 1 else 0
  {
    hide RecoveredRow;
    var before, after := RecoveredTo(jobs, ids, worker, now, state), RecoveredTo(jobs, ids + {id}, worker, now, state);
    if RecoveredRow(jobs[id], worker, now).state == state {
      assert after == before + {id};
    } else {
      assert after == before;
    }
  }

  /** The rows and counts after the jobs `done` have been recovered. */
  predicate SoFar(q: Tables, jobs: map<JobId, Job>, leases: map<LeaseId, Lease>, done: set<JobId>, worker: WorkerId, now: Time,
                  requeued: nat, failed: nat)
  {
    && jobs == RecoveredRows(q.jobs, done, worker, now) && leases == WithoutLeasesOf(q.leases, done)
    && requeued == |RecoveredTo(q.jobs, done, worker, now, State.Queued)|
    && failed == |RecoveredTo(q.jobs, done, worker, now, State.Failed)|
  }

  lemma NoneSoFar(q: Tables, worker: WorkerId, now: Time)
    ensures SoFar(q, q.jobs, q.leases, {}, worker, now, 0, 0)
  {
    hide RecoveredTo, RecoveredRows, WithoutLeasesOf;
    NoneRecovered(q, worker, now);
  }

  lemma NextSoFar(q: Tables, jobs: map<JobId, Job>, leases: map<LeaseId, Lease>, done: set<JobId>, worker: WorkerId, now: Time,
                  requeued: nat, failed: nat, id: JobId)
    requires SoFar(q, jobs, leases, done, worker, now, requeued, failed) && id in q.jobs && id !in done
    ensures id in jobs && jobs[id] == q.jobs[id]
    ensures var row := RecoveredRow(jobs[id], worker, now);
            SoFar(q, jobs[id := row], WithoutLeasesOf(leases, {id}), done + {id}, worker, now,
                  requeued + (if row.state == State.Queued then 1 else 0), failed + if row.state == State.Failed then 1 else 0)
  {
    hide RecoveredTo, RecoveredRows, WithoutLeasesOf, RecoveredRow;
    OneMoreRecovered(q.jobs, done, id, worker, now);
    ReleasedTogether(q.leases, done, id);
    OneMoreCounted(q.jobs, done, id, worker, now, State.Queued);
    OneMoreCounted(q.jobs, done, id, worker, now, State.Failed);
  }

  lemma SoFarIs(q: Tables, jobs: map<JobId, Job>, leases: map<LeaseId, Lease>, done: set<JobId>, worker: WorkerId, now: Time,
                requeued: nat, failed: nat)
    requires SoFar(q, jobs, leases, done, worker, now, requeued, failed)
    ensures jobs == RecoveredRows(q.jobs, done, worker, now) && leases == WithoutLeasesOf(q.leases, done)
    ensures requeued == |RecoveredTo(q.jobs, done, worker, now, State.Queued)|
    ensures failed == |RecoveredTo(q.jobs, done, worker, now, State.Failed)|
  {
  }

  /** The two counts, by the rows as they were. */
  lemma CountsAre(jobs: map<JobId, Job>, locked: set<JobId>, worker: WorkerId, cutoff: Time, now: Time)
    ensures var stale := StaleIds(jobs, locked, cutoff);
            && RecoveredTo(jobs, stale, worker, now, State.Queued) == Requeued(jobs, locked, cutoff)
            && RecoveredTo(jobs, stale, worker, now, State.Failed) == GivenUp(jobs, locked, cutoff)
  {
    hide RecoveredRow, RecoverySeen, StaleIds, IsLate;
    LateIsStale(jobs, locked, cutoff);
    StaleInJobs(jobs, locked, cutoff);
    forall id | id in jobs ensures RecoveredRow(jobs[id], worker, now).state == OutcomeState(jobs[id]) {
      RecoveredOutcome(jobs[id], worker, now);
    }
  }

  lemma StaleInJobs(jobs: map<JobId, Job>, locked: set<JobId>, cutoff: Time)
    ensures StaleIds(jobs, locked, cutoff) <= jobs.Keys
  {
  }

  function OutcomeState(j: Job): State {
    if j.state == State.CancelRequested then State.Cancelled else if j.attempts < j.maxAttempts then State.Queued else State.Failed
  }

  lemma RecoveredOutcome(j: Job, worker: WorkerId, now: Time)
    ensures RecoveredRow(j, worker, now).state == OutcomeState(j)
  {
  }

  lemma RetriedIff(j: Job, failure: FailureClass)
    ensures IsRetried(j, failure) <==> ShouldRetry(failure, j.attempts, j.maxAttempts)
  {
  }

  lemma AllRecovered(c: Config, q: Tables, worker: WorkerId, locked: set<JobId>, now: Time)
    ensures var stale := StaleIds(q.jobs, locked, now - c.jobTimeout);
            RecoverStep(c, q, worker, locked, now) ==
            q.(jobs := RecoveredRows(q.jobs, stale, worker, now), leases := WithoutLeasesOf(q.leases, stale))
  {
    hide RecoveredRow, Stale;
  }

  /** What the loop of `RecoverStaleJobs` has done when it is through. */
  lemma RecoveryDone(c: Config, q: Tables, worker: WorkerId, locked: set<JobId>, now: Time)
    requires q.clock <= now
    ensures var cutoff := now - c.jobTimeout;
            var stale := StaleIds(q.jobs, locked, cutoff);
            var jobs, leases := RecoveredRows(q.jobs, stale, worker, now), WithoutLeasesOf(q.leases, stale);
            && Next(c, q, Step(now, Recover(worker, locked))) == Tables(jobs, leases, now)
            && AllRecoverySeen(q.jobs, jobs, locked, cutoff, now)
            && |RecoveredTo(q.jobs, stale, worker, now, State.Queued)| == |Requeued(q.jobs, locked, cutoff)|
            && |RecoveredTo(q.jobs, stale, worker, now, State.Failed)| == |GivenUp(q.jobs, locked, cutoff)|
            && forall l :: l in leases <==> l in q.leases && !IsLate(q.jobs, locked, cutoff, q.leases[l].job)
  {
    hide RecoveredRow, Stale, RecoveredTo, RecoveredRows, WithoutLeasesOf, StaleIds, RecoverStep;
    hide AllRecoverySeen, Requeued, GivenUp, IsLate;
    AllRecovered(c, q, worker, locked, now);
    RecoveryEffects(c, q, worker, locked, now);
    CountsAre(q.jobs, locked, worker, now - c.jobTimeout, now);
  }

  lemma AllBlockedFailed(jobs: map<JobId, Job>, jobs': map<JobId, Job>, locked: set<JobId>, now: Time)
    requires jobs'.Keys == jobs.Keys
    requires forall id :: id in jobs ==>
               jobs'[id] == if id in BlockedIds(jobs, locked) then DependencyFailedJob(jobs[id], now) else jobs[id]
    ensures jobs' == FailBlocked(jobs, locked, now)
  {
    hide DependencyFailedJob;
  }

  class JobQueue {
    const config: Config
    var jobs: map<JobId, Job>
    var leases: map<LeaseId, Lease>
    var clock: Time

    function Rows(): Tables
      reads this
    {
      Tables(jobs, leases, clock)
    }

    constructor (config: Config)
      requires config.Valid()
      ensures this.config == config && Rows() == Empty() && Inv(config, Rows())
    {
      this.config := config;
      jobs, leases, clock := map[], map[], 0;
      new;
      EmptyInv(config);
    }

    method EnqueueDocument(id: JobId, document: DocumentId, priority: Priority, r: Resource, maxAttempts: nat,
                           dependency: Option<JobId>, now: Time) returns (e: Option<QueueError>)
      requires Enabled(config, Rows(), Step(now, Enqueue(id, document, priority, r, maxAttempts, dependency)))
      modifies this
      ensures Rows() == Next(config, old(Rows()), Step(now, Enqueue(id, document, priority, r, maxAttempts, dependency)))
      ensures e.None? <==> id in jobs
      ensures e.None? <==> maxAttempts >= 1 && (dependency.Some? ==> dependency.value in old(jobs))
      ensures e.None? ==> IsNew(jobs[id], document, priority, r, maxAttempts, dependency, now)
      ensures jobs.Keys == old(jobs).Keys + (if e.None? then {id} else {}) && leases == old(leases)
      ensures forall k :: k in old(jobs) ==> jobs[k] == old(jobs)[k]
    {
      NewJobIsNew(document, priority, r, maxAttempts, dependency, now);
      clock := now;
      if maxAttempts < 1 {
        return Some(InvalidPolicy);
      }
      if dependency.Some? && dependency.value !in jobs {
        return Some(UnknownPredecessor);
      }
      jobs := jobs[id := NewJob(document, priority, r, maxAttempts, dependency, now)];
      return None;
    }

    method FailBlockedDependencies(locked: set<JobId>, now: Time) returns (count: nat)
      modifies this`jobs
      ensures jobs == FailBlocked(old(jobs), locked, now)
      ensures jobs.Keys == old(jobs).Keys
      ensures forall k :: k in jobs ==>
                if MustFail(old(jobs), locked, k) then FailsForPredecessor(old(jobs)[k], jobs[k], now) else jobs[k] == old(jobs)[k]
      ensures count == |set k | k in old(jobs) && MustFail(old(jobs), locked, k)|
    {
      hide MustFail, FailsForPredecessor;
      BlockedMustFail(jobs, locked, now);
      var blocked := BlockedIds(jobs, locked);
      var pending := blocked;
      count := 0;
      while pending != {}
        invariant pending <= blocked && count == |blocked| - |pending|
        invariant jobs.Keys == old(jobs).Keys
        invariant forall id :: id in jobs ==>
                    jobs[id] == if id in blocked - pending then DependencyFailedJob(old(jobs)[id], now) else old(jobs)[id]
      {
        var id :| id in pending;
        var moved := TransitionJob(jobs[id].(failure := Some(DependencyFailed)), State.Failed, None, Ended, now);
        jobs := jobs[id := moved.value];
        pending := pending - {id};
        count := count + 1;
      }
      AllBlockedFailed(old(jobs), jobs, locked, now);
    }

    /** Walks the candidates in schedule order and takes the first whose class has a slot. */
    method FirstAdmissible(candidates: set<Key>, now: Time) returns (found: Option<JobId>)
      requires candidates == CandidateKeys(jobs, now, config.starvationSeconds)
      ensures var admissible := AdmissibleKeys(config, jobs, now);
              found == if admissible == {} then None else Some(Least(admissible).id)
    {
      ghost var admissible := AdmissibleKeys(config, jobs, now);
      var waiting := candidates;
      while waiting != {}
        invariant waiting <= candidates
        invariant forall passed, k :: passed in candidates - waiting && k in waiting ==> KeyLess(passed, k)
        invariant forall passed :: passed in candidates - waiting ==> passed !in admissible
      {
        var k := Least(waiting);
        if HasSlot(config.limits, jobs, jobs[k.id].resource) {
          LeastIsUnique(k, admissible);
          return Some(k.id);
        }
        waiting := waiting - {k};
      }
      return None;
    }

    /** `locked` are the rows that other transactions hold. */
    method ClaimJob(worker: WorkerId, maintenance: bool, locked: set<JobId>, now: Time) returns (claimed: Option<JobId>)
      requires clock <= now
      modifies this
      ensures Rows() == Next(config, old(Rows()), Step(now, Claim(worker, maintenance, locked)))
      ensures claimed == ClaimedNow(config, old(Rows()), Step(now, Claim(worker, maintenance, locked)))
      ensures if maintenance then claimed == None && jobs == old(jobs)
              else ClaimSeen(config, old(jobs), jobs, worker, locked, now, claimed)
      ensures leases == old(leases)
    {
      ClaimEffects(config, Rows(), worker, locked, now);
      hide IsLeast, KeyLess, Blocked, ClaimedRow, HasSlot, ClassKeys, ClaimSeen, MustFail, FailsForPredecessor;
      clock := now;
      if maintenance {
        return None;
      }
      var _ := FailBlockedDependencies(locked, now);
      var candidates := CandidateKeys(jobs, now, config.starvationSeconds);
      CandidatesAreQueued(jobs, now, config.starvationSeconds);
      if candidates == {} {
        return None;
      }
      claimed := FirstAdmissible(candidates, now);
      if claimed == None {
        var first := Least(candidates).id;
        if first in locked {
          return None;
        }
        jobs := jobs[first := Noted(jobs[first].(deferrals := jobs[first].deferrals + 1), AdmissionDeferred, Some(worker))];
        return None;
      }
      var id := claimed.value;
      if id in locked {
        return None;
      }
      assert exists k :: k in candidates && k.id == id;
      var job := AdmitRow(jobs[id], worker, now);
      jobs := jobs[id := job];
    }

    method ReleaseAllResourceLeases(id: JobId)
      modifies this`leases
      ensures leases == WithoutLeasesOf(old(leases), {id})
      ensures forall l :: l in leases ==> l in old(leases) && leases[l] == old(leases)[l] && leases[l].job != id
      ensures forall l :: l in old(leases) && old(leases)[l].job != id ==> l in leases
    {
      leases := map l | l in leases && leases[l].job != id :: leases[l];
    }

    /** The transition is tried last; when it is refused the transaction changes nothing. */
    method RecordFailure(id: JobId, worker: WorkerId, failure: FailureClass, now: Time)
      returns (r: Result<bool, QueueError>)
      requires clock <= now && Holds(jobs, id, worker)
      modifies this
      ensures Rows() == Next(config, old(Rows()), Step(now, Fail(id, worker, failure)))
      ensures r.Err? <==> old(jobs[id].state) == State.CancelRequested
                          && ShouldRetry(failure, old(jobs[id].attempts), old(jobs[id].maxAttempts))
      ensures id in jobs
      ensures r.Ok? ==> (r.value <==> IsRetried(old(jobs[id]), failure)) && FailureSeen(old(jobs[id]), jobs[id], failure, now)
      ensures r.Ok? ==>
                if r.value then jobs[id].state == State.Queued && jobs[id].availableAt > now
                else jobs[id].state == if failure == Timeout then State.TimedOut else State.Failed
      ensures OthersSame(old(jobs), jobs, id)
      ensures if r.Ok? then OnlyLeasesGone(old(leases), leases, id) else leases == old(leases)
      ensures if r.Ok? then jobs[id].events != [] && Last(jobs[id].events).from == old(jobs[id].state) else jobs == old(jobs)
    {
      hide FailedRow, ShouldRetry, WithoutLeasesOf, FailureSeen, IsRetried;
      RetriedIff(jobs[id], failure);
      clock := now;
      var failed, retry := FailRow(jobs[id], worker, failure, now);
      if failed.Err? {
        return Err(failed.error);
      }
      jobs := jobs[id := failed.value];
      ReleaseAllResourceLeases(id);
      return Ok(retry);
    }

    method RequestCancellation(id: JobId, now: Time)
      requires clock <= now
      modifies this
      ensures Rows() == Next(config, old(Rows()), Step(now, RequestCancel(id)))
      ensures forall k, w :: Holds(old(jobs), k, w) ==>
                Holds(jobs, k, w) && jobs[k].state == if k == id then State.CancelRequested else old(jobs)[k].state
      ensures OthersSame(old(jobs), jobs, id) && leases == old(leases)
      ensures id in old(jobs) ==> CancelRequestSeen(old(jobs)[id], jobs[id], now)
    {
      clock := now;
      if id !in jobs || Terminal(jobs[id].state) || jobs[id].state == State.CancelRequested {
        return;
      }
      var moved;
      if jobs[id].state == State.Queued {
        moved := TransitionJob(jobs[id], State.Cancelled, None, Ended, now);
      } else {
        moved := TransitionJob(jobs[id], State.CancelRequested, None, CancelAsked, now);
      }
      jobs := jobs[id := moved.value];
    }

    method ObserveCancellation(id: JobId, worker: WorkerId, now: Time) returns (observed: bool)
      requires clock <= now && Holds(jobs, id, worker)
      modifies this
      ensures Rows() == Next(config, old(Rows()), Step(now, ObserveCancel(id, worker)))
      ensures clock == now && (observed <==> old(jobs[id].state) == State.CancelRequested)
      ensures id in jobs && (observed ==> jobs[id].state == State.Cancelled)
      ensures !observed ==> jobs == old(jobs) && leases == old(leases)
      ensures OthersSame(old(jobs), jobs, id)
      ensures observed ==> IsCancelled(old(jobs[id]).(claimedBy := None), jobs[id], now) && OnlyLeasesGone(old(leases), leases, id)
    {
      clock := now;
      if jobs[id].state != State.CancelRequested {
        return false;
      }
      ReleaseAllResourceLeases(id);
      var moved := TransitionJob(jobs[id], State.Cancelled, Some(worker), Ended, now);
      jobs := jobs[id := moved.value.(claimedBy := None)];
      return true;
    }

    method RecoverJob(id: JobId, worker: WorkerId, now: Time) returns (state: State)
      requires id in jobs && Active(jobs[id].state)
      modifies this`jobs, this`leases
      ensures jobs == old(jobs)[id := RecoveredRow(old(jobs)[id], worker, now)]
      ensures leases == WithoutLeasesOf(old(leases), {id}) && state == jobs[id].state
    {
      hide RecoveredRow;
      ReleaseAllResourceLeases(id);
      var recovered := RecoverRow(jobs[id], worker, now);
      jobs := jobs[id := recovered];
      return recovered.state;
    }

    method RecoverStaleJobs(worker: WorkerId, locked: set<JobId>, now: Time) returns (requeued: nat, failed: nat)
      requires clock <= now
      modifies this
      ensures Rows() == Next(config, old(Rows()), Step(now, Recover(worker, locked)))
      ensures AllRecoverySeen(old(jobs), jobs, locked, now - config.jobTimeout, now)
      ensures requeued == |Requeued(old(jobs), locked, now - config.jobTimeout)|
      ensures failed == |GivenUp(old(jobs), locked, now - config.jobTimeout)|
      ensures forall l :: l in leases <==> l in old(leases) && !IsLate(old(jobs), locked, now - config.jobTimeout, old(leases)[l].job)
    {
      hide RecoveredRow, Stale, RecoveredTo, Active, RecoveredRows, WithoutLeasesOf, StaleIds, RecoverStep;
      hide AllRecoverySeen, Requeued, GivenUp, IsLate, Next, SoFar;
      clock := now;
      var stale := StaleIds(jobs, locked, now - config.jobTimeout);
      var pending := stale;
      ghost var done := {};
      requeued, failed := 0, 0;
      NoneSoFar(old(Rows()), worker, now);
      while pending != {}
        invariant stale == done + pending && done !! pending && clock == now
        invariant SoFar(old(Rows()), jobs, leases, done, worker, now, requeued, failed)
      {
        var id :| id in pending;
        StaleAreActive(old(jobs), locked, now - config.jobTimeout, id);
        NextSoFar(old(Rows()), jobs, leases, done, worker, now, requeued, failed, id);
        var state := RecoverJob(id, worker, now);
        if state == State.Queued {
          requeued := requeued + 1;
        } else if state == State.Failed {
          failed := failed + 1;
        }
        pending, done := pending - {id}, done + {id};
      }
      assert done == stale;
      RecoveryDone(config, old(Rows()), worker, locked, now);
      SoFarIs(old(Rows()), jobs, leases, done, worker, now, requeued, failed);
    }

    method HeartbeatJob(id: JobId, worker: WorkerId, now: Time) returns (renewed: bool)
      requires clock <= now
      modifies this
      ensures Rows() == Next(config, old(Rows()), Step(now, Heartbeat(id, worker)))
      ensures renewed <==> Holds(old(jobs), id, worker)
      ensures BeatSeen(old(Rows()), Rows(), id, worker, now)
    {
      clock := now;
      renewed := id in jobs && jobs[id].claimedBy == Some(worker) && Active(jobs[id].state);
      if renewed {
        jobs := jobs[id := jobs[id].(heartbeatAt := Some(now))];
      }
      leases := map l | l in leases ::
        if leases[l].job == id && leases[l].worker == worker then leases[l].(heartbeatAt := now) else leases[l];
    }

    method AcquireResourceLease(id: JobId, worker: WorkerId, r: Resource, lease: LeaseId, now: Time)
      returns (got: Result<bool, QueueError>)
      requires Enabled(config, Rows(), Step(now, Acquire(id, worker, r, lease)))
      modifies this
      ensures Rows() == Next(config, old(Rows()), Step(now, Acquire(id, worker, r, lease)))
      ensures got == Ok(true) ==> exists l :: l in leases && leases[l].job == id && leases[l].resource == r
      ensures Holds(jobs, id, worker) && jobs[id].state == old(jobs[id].state) && SameAttempts(old(jobs[id]), jobs[id])
      ensures clock == now
      ensures if config.limits[r] < 1 then got.Err? && jobs == old(jobs) && leases == old(leases)
              else got.Ok? && LeaseSeen(config, old(Rows()), Rows(), id, worker, r, lease, now, got.value)
    {
      hide Next, Noted, LeaseSeen;
      LeaseEffects(config, Rows(), Acquire(id, worker, r, lease), now);
      NextIsStep(config, Rows(), Step(now, Acquire(id, worker, r, lease)));
      NotedState(jobs[id], ResourceAcquired, Some(worker));
      NotedState(jobs[id].(deferrals := jobs[id].deferrals + 1), AdmissionDeferred, Some(worker));
      clock := now;
      if config.limits[r] < 1 {
        return Err(InvalidLimit);
      }
      leases := Unexpired(leases, now - config.jobTimeout);
      var own := LeasesOf(leases, id, r);
      if own != {} {
        ghost var l :| l in own;
        leases := map l | l in leases :: if l in own then leases[l].(heartbeatAt := now) else leases[l];
        assert l in leases && leases[l].job == id && leases[l].resource == r;
        return Ok(true);
      }
      if |LeasesIn(leases, r)| >= config.limits[r] {
        jobs := jobs[id := Noted(jobs[id].(deferrals := jobs[id].deferrals + 1), AdmissionDeferred, Some(worker))];
        return Ok(false);
      }
      leases := leases[lease := Lease(id, r, worker, now)];
      assert leases[lease].job == id && leases[lease].resource == r;
      jobs := jobs[id := Noted(jobs[id], ResourceAcquired, Some(worker))];
      return Ok(true);
    }

    method ReleaseResourceLease(id: JobId, worker: WorkerId, r: Resource, now: Time)
      requires clock <= now && id in jobs
      modifies this
      ensures Rows() == Next(config, old(Rows()), Step(now, Release(id, r, worker)))
      ensures Holds(old(jobs), id, worker) ==> Holds(jobs, id, worker)
      ensures jobs[id].state == old(jobs[id].state) && SameAttempts(old(jobs[id]), jobs[id])
      ensures OthersSame(old(jobs), jobs, id) && Journaled(old(jobs[id]), jobs[id])
      ensures forall l :: l in leases <==> l in old(leases) && !(old(leases)[l].job == id && old(leases)[l].resource == r)
      ensures forall l :: l in leases ==> leases[l] == old(leases)[l]
    {
      hide Next, Noted;
      ReleaseEffects(Rows(), id, r, worker);
      NextIsStep(config, Rows(), Step(now, Release(id, r, worker)));
      NotedState(jobs[id], ResourceReleased, Some(worker));
      clock := now;
      leases := map l | l in leases && !(leases[l].job == id && leases[l].resource == r) :: leases[l];
      jobs := jobs[id := Noted(jobs[id], ResourceReleased, Some(worker))];
    }

    method RetryDocumentJob(document: DocumentId, id: JobId, maxAttempts: nat, r: Resource, now: Time)
      requires clock <= now && id !in jobs
      modifies this
      ensures Rows() == Next(config, old(Rows()), Step(now, Retry(document, id, maxAttempts, r)))
      ensures old(LiveOf(jobs, document)) ==> jobs == old(jobs)
      ensures maxAttempts >= 1 ==> LiveOf(jobs, document)
      ensures RetrySeen(old(jobs), jobs, document, id, maxAttempts, r, now) && leases == old(leases)
    {
      hide RetrySeen;
      RetryEffects(Rows(), Action.Retry(document, id, maxAttempts, r), now);
      clock := now;
      if LiveOf(jobs, document) {
        return;
      }
      var keys := RetryableKeys(jobs, document);
      if keys != {} {
        var latest := Least(keys).id;
        assert Least(keys) in keys;
        var moved := TransitionJob(jobs[latest], State.Queued, None, ManualRetry, now);
        var job := moved.value.(availableAt := now);
        job := job.(finishedAt := None, priority := Interactive);
        jobs := jobs[latest := job];
        assert jobs[latest].document == document && Live(jobs[latest].state);
      } else if maxAttempts >= 1 {
        jobs := jobs[id := NewJob(document, Interactive, r, maxAttempts, None, now)];
        assert jobs[id].document == document && Live(jobs[id].state);
      }
    }

    /** One stretch of `process_job`, from a cancellation check to the next commit. */
    method AdvanceJob(id: JobId, worker: WorkerId, route: Route, now: Time) returns (e: Option<QueueError>)
      requires clock <= now && Holds(jobs, id, worker)
      modifies this
      ensures Rows() == Next(config, old(Rows()), Step(now, Advance(id, worker, route)))
      ensures e.None? <==> AdvancedRow(old(jobs[id]), worker, route, now).Ok?
      ensures e.None? <==> Allowed(old(jobs[id].state), RouteTarget(route))
      ensures id in jobs && jobs[id].claimedBy == Some(worker) && SameAttempts(old(jobs[id]), jobs[id])
      ensures jobs[id].state == if e.None? then RouteTarget(route) else old(jobs[id].state)
      ensures e.None? ==> AdvanceSeen(old(jobs[id]), jobs[id], route, now)
      ensures e.Some? ==> jobs == old(jobs)
      ensures OthersSame(old(jobs), jobs, id) && leases == old(leases)
    {
      AdvanceEffects(jobs[id], worker, route, now);
      clock := now;
      var job := jobs[id];
      var moved: Result<Job, QueueError>;
      match route {
      case ToExtracting =>
        moved := TransitionJob(job, State.Extracting, Some(worker), Moved, now);
      case ToOcr =>
        moved := TransitionJob(job, State.Ocr, Some(worker), Moved, now);
      case ToNormalizing(throughOcr) =>
        if throughOcr && job.state == State.Extracting {
          moved := TransitionJob(job, State.Ocr, Some(worker), Moved, now);
          job := moved.value;
        }
        moved := TransitionJob(job, State.Normalizing, Some(worker), Moved, now);
      case ToCompleted(degraded) =>
        moved := TransitionJob(job, State.Completed, Some(worker), Ended, now);
        if moved.Ok? && degraded {
          moved := Ok(moved.value.(failure := Some(Degraded)));
        }
      }
      if moved.Err? {
        return Some(moved.error);
      }
      jobs := jobs[id := moved.value];
      return None;
    }
  }
}
