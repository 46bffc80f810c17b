/** The two candidate queries agree, and a claim takes the least schedule key of all
    eligible jobs in all classes with a free slot. */
module Scheduler {
  import opened Common
  import opened Execution
  import opened Queue

  lemma LeastIsUnique(k: Key, keys: set<Key>)
    requires IsLeast(k, keys)
    ensures Least(keys) == k
  {
  }

  /** Each class key is an aged key, or a recent key with its rank raised by one. */
  lemma ClassKeySplit(jobs: map<JobId, Job>, r: Resource, now: Time, starvationSeconds: int, k: Key)
    ensures k in ClassKeys(jobs, r, now, starvationSeconds) <==>
            || k in AgedKeys(jobs, r, now, starvationSeconds)
            || (k.rank > 0 && k.(rank := k.rank - 1) in RecentKeys(jobs, r, now, starvationSeconds))
    ensures k in AgedKeys(jobs, r, now, starvationSeconds) ==> k.rank == 0
  {
  }

  lemma CandidateQueriesAgree(jobs: map<JobId, Job>, r: Resource, now: Time, starvationSeconds: int)
    ensures PostgresCandidate(jobs, r, now, starvationSeconds) == PortableCandidate(jobs, r, now, starvationSeconds)
  {
    var keys := ClassKeys(jobs, r, now, starvationSeconds);
    var aged := AgedKeys(jobs, r, now, starvationSeconds);
    var recent := RecentKeys(jobs, r, now, starvationSeconds);
    forall k
      ensures k in keys <==> k in aged || (k.rank > 0 && k.(rank := k.rank - 1) in recent)
      ensures k in aged ==> k.rank == 0
    {
      ClassKeySplit(jobs, r, now, starvationSeconds, k);
    }
    if aged != {} {
      LeastIsUnique(Least(aged), keys);
    } else if recent != {} {
      var k := Least(recent);
      var raised := k.(rank := k.rank + 1);
      assert raised.(rank := raised.rank - 1) == k;
      LeastIsUnique(raised, keys);
    } else {
      assert keys == {};
    }
  }

  /** Every eligible job whose class has a free slot. */
  ghost function OpenKeys(c: Config, jobs: map<JobId, Job>, now: Time): set<Key> {
    set id | id in jobs && Eligible(jobs, id, now) && HasSlot(c.limits, jobs, jobs[id].resource)
      :: ScheduleKey(id, jobs[id], now, c.starvationSeconds)
  }

  lemma ResourcesComplete(r: Resource)
    ensures r in RESOURCES
  {
  }

  lemma AdmissibleKeysAreOpen(c: Config, jobs: map<JobId, Job>, now: Time)
    ensures AdmissibleKeys(c, jobs, now) <= OpenKeys(c, jobs, now)
  {
  }

  /** An open job is never before the candidate of its class, and that candidate is admissible. */
  lemma OpenKeyHasCandidate(c: Config, jobs: map<JobId, Job>, now: Time, k: Key) returns (least: Key)
    requires k in OpenKeys(c, jobs, now)
    ensures least in AdmissibleKeys(c, jobs, now)
    ensures least == k || KeyLess(least, k)
  {
    var r := jobs[k.id].resource;
    ResourcesComplete(r);
    var keys := ClassKeys(jobs, r, now, c.starvationSeconds);
    assert k in keys;
    least := Least(keys);
    assert least in CandidateKeys(jobs, now, c.starvationSeconds);
  }

  /** Main result: choosing among one candidate per class loses nothing; only a lock on the chosen row does. */
  lemma ClaimTakesLeastOpenJob(c: Config, jobs: map<JobId, Job>, locked: set<JobId>, now: Time)
    ensures var open := OpenKeys(c, FailBlocked(jobs, locked, now), now);
            Chosen(c, jobs, locked, now) == if open == {} || Least(open).id in locked then None else Some(Least(open).id)
  {
    var after := FailBlocked(jobs, locked, now);
    var open, admissible := OpenKeys(c, after, now), AdmissibleKeys(c, after, now);
    AdmissibleKeysAreOpen(c, after, now);
    if open != {} {
      var first := Least(open);
      var least := OpenKeyHasCandidate(c, after, now, first);
      assert least == first;
      LeastIsUnique(first, admissible);
    }
  }

  lemma CandidatesAreQueued(jobs: map<JobId, Job>, now: Time, starvationSeconds: int)
    ensures forall k :: k in CandidateKeys(jobs, now, starvationSeconds) ==> jobs[k.id].state == Queued
  {
  }

  /** A claim step claims exactly the chosen job, defers or fails only queued ones, and touches no locked row. */
  lemma ClaimStepClaimsChosen(c: Config, q: Tables, worker: WorkerId, locked: set<JobId>, now: Time, id: JobId)
    requires id in q.jobs
    ensures id in ClaimStep(c, q, worker, false, locked, now).jobs
    ensures var j, j' := q.jobs[id], ClaimStep(c, q, worker, false, locked, now).jobs[id];
            && (id in locked ==> j' == j)
            && if Chosen(c, q.jobs, locked, now) == Some(id) then j.state == Queued && j' == ClaimedRow(j, worker, now)
               else || j' == j
                    || (j.state == Queued && Blocked(q.jobs, id) && j' == DependencyFailedJob(j, now))
                    || (j.state == Queued && j' == DeferredRow(j, worker))
  {
    hide ClaimedRow, DeferredRow, DependencyFailedJob;
    var jobs := FailBlocked(q.jobs, locked, now);
    var candidates, admissible := CandidateKeys(jobs, now, c.starvationSeconds), AdmissibleKeys(c, jobs, now);
    if candidates != {} {
      var id' := Least(if admissible == {} then candidates else admissible).id;
      CandidatesAreQueued(jobs, now, c.starvationSeconds);
      QueuedWereNotFailed(q.jobs, locked, now, id');
    }
  }

  lemma QueuedWereNotFailed(jobs: map<JobId, Job>, locked: set<JobId>, now: Time, id: JobId)
    requires id in jobs && FailBlocked(jobs, locked, now)[id].state == Queued
    ensures FailBlocked(jobs, locked, now)[id] == jobs[id]
  {
  }
}
