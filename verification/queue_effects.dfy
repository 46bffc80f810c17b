/** What callers of the queue see, row by row and field by field, without the steps by which it gets there. */
module QueueEffects {
  import opened Common
  import opened Execution
  import opened Queue
  import opened JobRows
  import opened Scheduler
  import opened QueueInvariants
  import opened QueueRuns

  // ---------- which job a claim takes ----------

  /** The row may start at once. */
  predicate MayStart(jobs: map<JobId, Job>, id: JobId, now: Time) {
    && id in jobs && jobs[id].state == State.Queued && jobs[id].availableAt <= now && jobs[id].attempts < jobs[id].maxAttempts
    && (jobs[id].dependency.Some? ==>
          jobs[id].dependency.value in jobs && jobs[jobs[id].dependency.value].state == State.Completed)
  }

  /** Fewer jobs of the class are under way than it admits. */
  predicate HasRoom(c: Config, jobs: map<JobId, Job>, r: Resource) {
    r in c.limits ==>
      |set id | id in jobs && jobs[id].resource == r
                && jobs[id].state in {State.Claimed, State.Extracting, State.Ocr, State.Normalizing, State.CancelRequested}|
      < c.limits[r]
  }

  const PRIORITIES: seq<Priority> := [Interactive, High, Normal, Background, Maintenance, Bulk]

  predicate MoreUrgent(p: Priority, other: Priority) {
    exists i, j :: 0 <= i < j < |PRIORITIES| && PRIORITIES[i] == p && PRIORITIES[j] == other
  }

  /** Jobs that have waited for too long come first, then more urgent ones, then older ones. */
  predicate GoesBefore(c: Config, now: Time, j: Job, id: JobId, other: Job, otherId: JobId) {
    var late, otherLate := now - j.createdAt >= c.starvationSeconds, now - other.createdAt >= c.starvationSeconds;
    if late != otherLate then late
    else if !late && j.priority != other.priority then MoreUrgent(j.priority, other.priority)
    else j.createdAt < other.createdAt || (j.createdAt == other.createdAt && id < otherId)
  }

  /** The job that a claim takes, or finds locked: it may start, has room, and goes before all others that do. */
  predicate IsFirst(c: Config, jobs: map<JobId, Job>, now: Time, id: JobId) {
    && MayStart(jobs, id, now) && HasRoom(c, jobs, jobs[id].resource)
    && forall k :: k in jobs && k != id && MayStart(jobs, k, now) && HasRoom(c, jobs, jobs[k].resource) ==>
         GoesBefore(c, now, jobs[id], id, jobs[k], k)
  }

  lemma UrgencyIsOrder(p: Priority, other: Priority)
    ensures MoreUrgent(p, other) <==> PriorityOrder(p) < PriorityOrder(other)
  {
    forall i | 0 <= i < |PRIORITIES| ensures PriorityOrder(PRIORITIES[i]) == i {
    }
    assert PRIORITIES[PriorityOrder(p)] == p && PRIORITIES[PriorityOrder(other)] == other;
  }

  lemma KeysInOrder(c: Config, now: Time, j: Job, id: JobId, other: Job, otherId: JobId)
    ensures KeyLess(ScheduleKey(id, j, now, c.starvationSeconds), ScheduleKey(otherId, other, now, c.starvationSeconds))
            <==> GoesBefore(c, now, j, id, other, otherId)
  {
    hide MoreUrgent, PriorityOrder;
    UrgencyIsOrder(j.priority, other.priority);
    UrgencyIsOrder(other.priority, j.priority);
    SameOrder(j.priority, other.priority);
  }

  lemma SameOrder(p: Priority, other: Priority)
    ensures PriorityOrder(p) == PriorityOrder(other) <==> p == other
  {
  }

  lemma RoomIsSlot(c: Config, jobs: map<JobId, Job>, locked: set<JobId>, now: Time, r: Resource)
    ensures HasRoom(c, jobs, r) <==> HasSlot(c.limits, FailBlocked(jobs, locked, now), r)
  {
    hide FailBlocked;
    ActiveUnchanged(jobs, locked, now, r);
    assert ActiveIn(jobs, r) ==
           set id | id in jobs && jobs[id].resource == r
                    && jobs[id].state in {State.Claimed, State.Extracting, State.Ocr, State.Normalizing, State.CancelRequested};
  }

  /** Failing blocked jobs first makes no difference to which jobs may start. */
  lemma MayStartIsEligible(jobs: map<JobId, Job>, locked: set<JobId>, now: Time, id: JobId)
    requires id in jobs
    ensures var after := FailBlocked(jobs, locked, now);
            && (MayStart(jobs, id, now) <==> Eligible(after, id, now)) && (MayStart(jobs, id, now) ==> after[id] == jobs[id])
  {
  }

  lemma OpenIff(c: Config, jobs: map<JobId, Job>, locked: set<JobId>, now: Time, id: JobId)
    requires id in jobs
    ensures var after := FailBlocked(jobs, locked, now);
            MayStart(jobs, id, now) && HasRoom(c, jobs, jobs[id].resource) ==>
              ScheduleKey(id, jobs[id], now, c.starvationSeconds) in OpenKeys(c, after, now)
  {
    hide MayStart, HasRoom, HasSlot, ScheduleKey, FailBlocked;
    var after := FailBlocked(jobs, locked, now);
    SameKeys(jobs, locked, now);
    MayStartIsEligible(jobs, locked, now, id);
    RoomIsSlot(c, jobs, locked, now, jobs[id].resource);
  }

  lemma SameKeys(jobs: map<JobId, Job>, locked: set<JobId>, now: Time)
    ensures FailBlocked(jobs, locked, now).Keys == jobs.Keys
    ensures forall id :: id in jobs ==> FailBlocked(jobs, locked, now)[id].resource == jobs[id].resource
  {
  }

  lemma OpenOnlyIf(c: Config, jobs: map<JobId, Job>, locked: set<JobId>, now: Time, k: Key)
    requires k in OpenKeys(c, FailBlocked(jobs, locked, now), now)
    ensures MayStart(jobs, k.id, now) && HasRoom(c, jobs, jobs[k.id].resource)
    ensures k == ScheduleKey(k.id, jobs[k.id], now, c.starvationSeconds)
  {
    hide MayStart, HasRoom, HasSlot, FailBlocked;
    SameKeys(jobs, locked, now);
    MayStartIsEligible(jobs, locked, now, k.id);
    RoomIsSlot(c, jobs, locked, now, jobs[k.id].resource);
  }

  /** A claim takes the first job that may start and has room, unless its row is locked. */
  lemma ClaimTakesFirst(c: Config, jobs: map<JobId, Job>, locked: set<JobId>, now: Time)
    ensures match Chosen(c, jobs, locked, now)
            case Some(id) => IsFirst(c, jobs, now, id) && id !in locked
            case None => forall id :: id in jobs && IsFirst(c, jobs, now, id) ==> id in locked
  {
    hide MayStart, HasRoom, Chosen, GoesBefore, ScheduleKey, KeyLess, OpenKeys, FailBlocked;
    var open := OpenKeys(c, FailBlocked(jobs, locked, now), now);
    ClaimTakesLeastOpenJob(c, jobs, locked, now);
    forall id | id in jobs && IsFirst(c, jobs, now, id) ensures open != {} && Least(open).id == id {
      FirstIsLeast(c, jobs, locked, now, id);
    }
    if open != {} {
      LeastIsFirst(c, jobs, locked, now);
    }
  }

  lemma LeastIsFirst(c: Config, jobs: map<JobId, Job>, locked: set<JobId>, now: Time)
    requires OpenKeys(c, FailBlocked(jobs, locked, now), now) != {}
    ensures IsFirst(c, jobs, now, Least(OpenKeys(c, FailBlocked(jobs, locked, now), now)).id)
  {
    hide MayStart, HasRoom, GoesBefore, ScheduleKey, KeyLess, OpenKeys, FailBlocked;
    var open := OpenKeys(c, FailBlocked(jobs, locked, now), now);
    var least := Least(open);
    OpenOnlyIf(c, jobs, locked, now, least);
    StartsInJobs(jobs, least.id, now);
    forall k | k in jobs && k != least.id && MayStart(jobs, k, now) && HasRoom(c, jobs, jobs[k].resource)
      ensures GoesBefore(c, now, jobs[least.id], least.id, jobs[k], k)
    {
      StartsInJobs(jobs, k, now);
      OpenIff(c, jobs, locked, now, k);
      KeyNames(k, jobs[k], now, c.starvationSeconds);
      KeysInOrder(c, now, jobs[least.id], least.id, jobs[k], k);
    }
  }

  lemma StartsInJobs(jobs: map<JobId, Job>, id: JobId, now: Time)
    ensures MayStart(jobs, id, now) ==> id in jobs
  {
  }

  lemma KeyNames(id: JobId, j: Job, now: Time, starvationSeconds: int)
    ensures ScheduleKey(id, j, now, starvationSeconds).id == id
  {
  }

  lemma FirstIsLeast(c: Config, jobs: map<JobId, Job>, locked: set<JobId>, now: Time, id: JobId)
    requires IsFirst(c, jobs, now, id)
    ensures var open := OpenKeys(c, FailBlocked(jobs, locked, now), now); open != {} && Least(open).id == id
  {
    hide MayStart, HasRoom, GoesBefore, ScheduleKey, KeyLess, OpenKeys, FailBlocked;
    StartsInJobs(jobs, id, now);
    OpenIff(c, jobs, locked, now, id);
    var open := OpenKeys(c, FailBlocked(jobs, locked, now), now);
    LeastIsFirst(c, jobs, locked, now);
    var k := Least(open).id;
    if k != id {
      StartsInJobs(jobs, k, now);
      BeforeIsOneWay(c, now, jobs[id], id, jobs[k], k);
    }
  }

  lemma BeforeIsOneWay(c: Config, now: Time, j: Job, id: JobId, other: Job, otherId: JobId)
    requires GoesBefore(c, now, j, id, other, otherId)
    ensures !GoesBefore(c, now, other, otherId, j, id)
  {
    hide MoreUrgent, PriorityOrder;
    UrgencyIsOrder(j.priority, other.priority);
    UrgencyIsOrder(other.priority, j.priority);
  }

  // ---------- what a claim does to the rows ----------

  /** A longer journal, and nothing else. */
  predicate Journaled(j: Job, j': Job) { j' == j.(events := j'.events) && j.events < j'.events }

  /** Queued, with a predecessor that ended otherwise than completed, and neither row locked. */
  predicate MustFail(jobs: map<JobId, Job>, locked: set<JobId>, id: JobId)
    requires id in jobs
  {
    && jobs[id].state == State.Queued && id !in locked
    && jobs[id].dependency.Some? && jobs[id].dependency.value in jobs && jobs[id].dependency.value !in locked
    && jobs[jobs[id].dependency.value].state in {State.Failed, State.TimedOut, State.Cancelled}
  }

  predicate FailsForPredecessor(j: Job, j': Job, now: Time) {
    Journaled(j.(state := State.Failed, failure := Some(DependencyFailed), heartbeatAt := Some(now), finishedAt := Some(now)), j')
  }

  predicate Starts(j: Job, j': Job, worker: WorkerId, now: Time) {
    Journaled(j.(state := State.Claimed, claimedBy := Some(worker), heartbeatAt := Some(now), finishedAt := None,
                 attempts := j.attempts + 1), j')
  }

  predicate IsPutOff(j: Job, j': Job) { Journaled(j.(deferrals := j.deferrals + 1), j') }

  /** Nobody who may start has room, and this one goes before the others. */
  predicate WaitsFirst(c: Config, jobs: map<JobId, Job>, now: Time, id: JobId) {
    && MayStart(jobs, id, now)
    && (forall k :: k in jobs && MayStart(jobs, k, now) ==> !HasRoom(c, jobs, jobs[k].resource))
    && forall k :: k in jobs && k != id && MayStart(jobs, k, now) ==> GoesBefore(c, now, jobs[id], id, jobs[k], k)
  }

  /** All that a claim does: one job may start, blocked ones fail, and the first that finds no room is put off. */
  predicate ClaimSeen(c: Config, jobs: map<JobId, Job>, jobs': map<JobId, Job>, worker: WorkerId, locked: set<JobId>,
                      now: Time, claimed: Option<JobId>)
  {
    && jobs'.Keys == jobs.Keys
    && (match claimed
        case Some(id) => IsFirst(c, jobs, now, id) && id !in locked
        case None => forall id :: id in jobs && IsFirst(c, jobs, now, id) ==> id in locked)
    && forall k :: k in jobs ==>
         if claimed == Some(k) then Starts(jobs[k], jobs'[k], worker, now)
         else if MustFail(jobs, locked, k) then FailsForPredecessor(jobs[k], jobs'[k], now)
         else if WaitsFirst(c, jobs, now, k) && k !in locked then IsPutOff(jobs[k], jobs'[k])
         else jobs'[k] == jobs[k]
  }

  lemma RowsOfClaim(j: Job, worker: WorkerId, now: Time)
    ensures Starts(j, ClaimedRow(j, worker, now), worker, now)
    ensures IsPutOff(j, DeferredRow(j, worker)) && FailsForPredecessor(j, DependencyFailedJob(j, now), now)
  {
    var e := ClaimedRow(j, worker, now).events;
    assert j.events < e && e[..|j.events|] == j.events;
  }

  /** The candidate put off goes before all others that may start. */
  lemma FirstCandidate(c: Config, jobs: map<JobId, Job>, locked: set<JobId>, now: Time)
    requires CandidateKeys(FailBlocked(jobs, locked, now), now, c.starvationSeconds) != {}
    ensures var id := Least(CandidateKeys(FailBlocked(jobs, locked, now), now, c.starvationSeconds)).id;
            && MayStart(jobs, id, now)
            && forall k :: k in jobs && k != id && MayStart(jobs, k, now) ==> GoesBefore(c, now, jobs[id], id, jobs[k], k)
  {
    hide MayStart, GoesBefore, ScheduleKey, KeyLess, FailBlocked, CandidateKeys, Eligible;
    var after := FailBlocked(jobs, locked, now);
    var candidates := CandidateKeys(after, now, c.starvationSeconds);
    var least := Least(candidates);
    SameKeys(jobs, locked, now);
    CandidateIsClassKey(after, now, c.starvationSeconds, least);
    MayStartIsEligible(jobs, locked, now, least.id);
    forall k | k in jobs && k != least.id && MayStart(jobs, k, now) ensures GoesBefore(c, now, jobs[least.id], least.id, jobs[k], k) {
      MayStartIsEligible(jobs, locked, now, k);
      var first := ClassHasCandidate(after, now, c.starvationSeconds, k);
      KeyNames(k, jobs[k], now, c.starvationSeconds);
      KeyLessTrans(least, first, ScheduleKey(k, jobs[k], now, c.starvationSeconds));
      KeysInOrder(c, now, jobs[least.id], least.id, jobs[k], k);
    }
  }

  lemma CandidateIsClassKey(jobs: map<JobId, Job>, now: Time, starvationSeconds: int, k: Key)
    requires k in CandidateKeys(jobs, now, starvationSeconds)
    ensures k.id in jobs && Eligible(jobs, k.id, now) && k == ScheduleKey(k.id, jobs[k.id], now, starvationSeconds)
  {
  }

  lemma ClassHasCandidate(jobs: map<JobId, Job>, now: Time, starvationSeconds: int, id: JobId) returns (first: Key)
    requires id in jobs && Eligible(jobs, id, now)
    ensures first in CandidateKeys(jobs, now, starvationSeconds)
    ensures var k := ScheduleKey(id, jobs[id], now, starvationSeconds); first == k || KeyLess(first, k)
  {
    ResourcesComplete(jobs[id].resource);
    var keys := ClassKeys(jobs, jobs[id].resource, now, starvationSeconds);
    assert ScheduleKey(id, jobs[id], now, starvationSeconds) in keys;
    first := Least(keys);
  }

  lemma KeyLessTrans(a: Key, b: Key, c: Key)
    requires (a == b || KeyLess(a, b)) && (b == c || KeyLess(b, c)) && a != c
    ensures KeyLess(a, c)
  {
  }

  /** With a candidate but none that has room, the first candidate is the one that waits first. */
  lemma WaitsFirstIff(c: Config, jobs: map<JobId, Job>, locked: set<JobId>, now: Time)
    ensures var after := FailBlocked(jobs, locked, now);
            var candidates := CandidateKeys(after, now, c.starvationSeconds);
            forall k :: k in jobs ==>
              (WaitsFirst(c, jobs, now, k) <==>
                 AdmissibleKeys(c, after, now) == {} && candidates != {} && Least(candidates).id == k)
  {
    hide MayStart, GoesBefore, HasRoom, FailBlocked, CandidateKeys, AdmissibleKeys, OpenKeys, Eligible, Least, IsLeast, ScheduleKey;
    var after := FailBlocked(jobs, locked, now);
    var candidates := CandidateKeys(after, now, c.starvationSeconds);
    NoRoomIff(c, jobs, locked, now);
    forall k | k in jobs
      ensures WaitsFirst(c, jobs, now, k) <==>
                AdmissibleKeys(c, after, now) == {} && candidates != {} && Least(candidates).id == k
    {
      if WaitsFirst(c, jobs, now, k) {
        SameKeys(jobs, locked, now);
        MayStartIsEligible(jobs, locked, now, k);
        var _ := ClassHasCandidate(after, now, c.starvationSeconds, k);
        FirstCandidate(c, jobs, locked, now);
        var id := Least(candidates).id;
        StartsInJobs(jobs, id, now);
        if id != k { BeforeIsOneWay(c, now, jobs[id], id, jobs[k], k); }
      } else if candidates != {} {
        FirstCandidate(c, jobs, locked, now);
      }
    }
  }

  lemma NoRoomIff(c: Config, jobs: map<JobId, Job>, locked: set<JobId>, now: Time)
    ensures AdmissibleKeys(c, FailBlocked(jobs, locked, now), now) == {} <==>
            forall k :: k in jobs && MayStart(jobs, k, now) ==> !HasRoom(c, jobs, jobs[k].resource)
  {
    hide MayStart, HasRoom, FailBlocked, AdmissibleKeys, OpenKeys, ScheduleKey;
    var after := FailBlocked(jobs, locked, now);
    AdmissibleKeysAreOpen(c, after, now);
    if AdmissibleKeys(c, after, now) != {} {
      var k :| k in AdmissibleKeys(c, after, now);
      OpenOnlyIf(c, jobs, locked, now, k);
      StartsInJobs(jobs, k.id, now);
    }
    forall k | k in jobs && MayStart(jobs, k, now) && HasRoom(c, jobs, jobs[k].resource)
      ensures AdmissibleKeys(c, after, now) != {}
    {
      OpenIff(c, jobs, locked, now, k);
      var least := OpenKeyHasCandidate(c, after, now, ScheduleKey(k, jobs[k], now, c.starvationSeconds));
    }
  }

  lemma BlockedMustFail(jobs: map<JobId, Job>, locked: set<JobId>, now: Time)
    ensures var after := FailBlocked(jobs, locked, now);
            && after.Keys == jobs.Keys
            && forall k :: k in jobs ==>
                 if MustFail(jobs, locked, k) then FailsForPredecessor(jobs[k], after[k], now) else after[k] == jobs[k]
    ensures BlockedIds(jobs, locked) == set k | k in jobs && MustFail(jobs, locked, k)
  {
    hide DependencyFailedJob;
    forall k | k in jobs { RowsOfClaim(jobs[k], "", now); }
  }

  /** Main result: what a claim does, for all rows. */
  lemma ClaimEffects(c: Config, q: Tables, worker: WorkerId, locked: set<JobId>, now: Time)
    ensures ClaimSeen(c, q.jobs, ClaimStep(c, q, worker, false, locked, now).jobs, worker, locked, now,
                      Chosen(c, q.jobs, locked, now))
    ensures ClaimStep(c, q, worker, false, locked, now).leases == q.leases
  {
    hide MayStart, HasRoom, GoesBefore, FailBlocked, CandidateKeys, AdmissibleKeys, Least, IsLeast, MustFail, WaitsFirst;
    hide Starts, IsPutOff, FailsForPredecessor, ClaimedRow, DeferredRow, DependencyFailedJob, IsFirst;
    var jobs, after := q.jobs, FailBlocked(q.jobs, locked, now);
    var candidates, admissible := CandidateKeys(after, now, c.starvationSeconds), AdmissibleKeys(c, after, now);
    ClaimTakesFirst(c, jobs, locked, now);
    WaitsFirstIff(c, jobs, locked, now);
    BlockedMustFail(jobs, locked, now);
    FirstMayStart(c, jobs, locked, now);
    if candidates != {} {
      var id := Least(if admissible == {} then candidates else admissible).id;
      RowsOfClaim(jobs[id], worker, now);
    }
  }

  lemma FirstMayStart(c: Config, jobs: map<JobId, Job>, locked: set<JobId>, now: Time)
    ensures var after := FailBlocked(jobs, locked, now);
            var candidates, admissible := CandidateKeys(after, now, c.starvationSeconds), AdmissibleKeys(c, after, now);
            && (admissible != {} ==> candidates != {})
            && (candidates != {} ==>
                  var id := Least(if admissible == {} then candidates else admissible).id;
                  id in jobs && after[id] == jobs[id] && !MustFail(jobs, locked, id)
                  && (admissible != {} ==> !WaitsFirst(c, jobs, now, id)))
  {
    hide GoesBefore, ScheduleKey, KeyLess, FailBlocked, HasRoom, HasSlot;
    var after := FailBlocked(jobs, locked, now);
    var candidates, admissible := CandidateKeys(after, now, c.starvationSeconds), AdmissibleKeys(c, after, now);
    SameKeys(jobs, locked, now);
    if candidates != {} {
      var k := Least(if admissible == {} then candidates else admissible);
      assert k in candidates;
      CandidateIsClassKey(after, now, c.starvationSeconds, k);
      MayStartIsEligible(jobs, locked, now, k.id);
      WaitsFirstIff(c, jobs, locked, now);
    }
  }

  // ---------- failures and the time after them ----------

  const DELAYS: seq<int> := [2, 2, 4, 8, 16, 32]

  /** Two seconds after the first attempt, twice as many after each further one, and never more than a minute. */
  function BackOff(attempts: nat): int { if attempts < |DELAYS| then DELAYS[attempts] else 60 }

  lemma DelayIsBackOff(attempts: nat)
    ensures DelaySeconds(attempts) == BackOff(attempts)
  {
    assert Power2(4) == 2 * Power2(3) == 4 * Power2(2) == 8 * Power2(1) == 16 * Power2(0);
    if attempts >= 6 { BackOffDoublesThenSaturates(attempts); }
  }

  predicate IsRetried(j: Job, failure: FailureClass) { failure in {Retryable, Timeout} && j.attempts < j.maxAttempts }

  predicate FailureSeen(j: Job, j': Job, failure: FailureClass, now: Time) {
    if IsRetried(j, failure) then
      Journaled(j.(state := State.Queued, failure := Some(failure), claimedBy := None, heartbeatAt := Some(now),
                   availableAt := now + BackOff(j.attempts)), j')
    else
      Journaled(j.(state := if failure == Timeout then State.TimedOut else State.Failed, failure := Some(failure),
                   claimedBy := None, heartbeatAt := Some(now), finishedAt := Some(now)), j')
  }

  lemma FailureEffects(j: Job, worker: WorkerId, failure: FailureClass, now: Time)
    ensures match FailedRow(j, worker, failure, now)
            case Ok(j') => FailureSeen(j, j', failure, now)
            case Err(_) => !Allowed(j.state, if IsRetried(j, failure) then State.Queued
                                             else if failure == Timeout then State.TimedOut else State.Failed)
  {
    hide DelaySeconds, BackOff;
    DelayIsBackOff(j.attempts);
  }

  /** Off: waiting for its time, or ended without a manual retry. */
  predicate IsOff(jobs: map<JobId, Job>, id: JobId, document: DocumentId, until: Time) {
    id in jobs && jobs[id].document == document
    && (jobs[id].state in {State.Completed, State.Failed, State.TimedOut, State.Cancelled}
                   || (jobs[id].state == State.Queued && jobs[id].availableAt >= until))
  }

  lemma OffStep(c: Config, q: Tables, s: Step, id: JobId, document: DocumentId, until: Time)
    requires Enabled(c, q, s) && IsOff(q.jobs, id, document, until)
    requires s.now < until && !(s.action.Retry? && s.action.document == document)
    ensures IsOff(Next(c, q, s).jobs, id, document, until) && ClaimedNow(c, q, s) != Some(id)
  {
    hide RowOk, ClaimStep, Chosen, IsFirst, DependencyFailedJob, DeferredRow;
    RowAfterStep(c, q, s, id);
    match s.action
    case Claim(worker, maintenance, locked) =>
      if maintenance {
        MaintenanceClaims(c, q, worker, locked, s.now);
      } else {
        ClaimTakesFirst(c, q.jobs, locked, s.now);
        NotFirst(c, q.jobs, s.now, id);
        ClaimStepClaimsChosen(c, q, worker, locked, s.now, id);
        RowsOfClaim(q.jobs[id], worker, s.now);
      }
    case Retry(_, _, _, _) => RetriedIsLeast(q, s.action, s.now, id);
    case _ => RowKept(c, q, s, id);
  }

  lemma NotFirst(c: Config, jobs: map<JobId, Job>, now: Time, id: JobId)
    requires id in jobs && (jobs[id].state != State.Queued || now < jobs[id].availableAt)
    ensures !IsFirst(c, jobs, now, id)
  {
  }

  /** All steps are before a time, and nobody retries the document by hand. */
  predicate AllBefore(steps: seq<Step>, document: DocumentId, until: Time) {
    forall i :: 0 <= i < |steps| ==> steps[i].now < until && !(steps[i].action.Retry? && steps[i].action.document == document)
  }

  lemma {:induction false} OffRun(c: Config, q: Tables, steps: seq<Step>, id: JobId, document: DocumentId, until: Time)
    requires ValidRun(c, q, steps) && IsOff(q.jobs, id, document, until) && AllBefore(steps, document, until)
    ensures ClaimsOf(c, q, steps, id) == 0
    decreases |steps|
  {
    hide Next, Enabled, IsOff;
    if steps != [] {
      OffStep(c, q, steps[0], id, document, until);
      OffRun(c, Next(c, q, steps[0]), steps[1..], id, document, until);
    }
  }

  /** Main result: after a failure that is retried, no run claims the job before its back-off has passed,
      unless somebody retries its document by hand. */
  lemma RetryWaits(c: Config, q: Tables, fail: Step, steps: seq<Step>)
    requires fail.action.Fail? && Enabled(c, q, fail) && ValidRun(c, Next(c, q, fail), steps)
    requires var j := q.jobs[fail.action.id];
             && j.state != State.CancelRequested && IsRetried(j, fail.action.failure)
             && AllBefore(steps, j.document, fail.now + BackOff(j.attempts))
    ensures ClaimsOf(c, Next(c, q, fail), steps, fail.action.id) == 0
  {
    hide FailedRow, BackOff;
    var id := fail.action.id;
    var j := q.jobs[id];
    FailureEffects(j, fail.action.worker, fail.action.failure, fail.now);
    OffRun(c, Next(c, q, fail), steps, id, j.document, fail.now + BackOff(j.attempts));
  }

  // ---------- recovery ----------

  /** Under way, not locked, and with its last beat before the cutoff. */
  predicate IsLate(jobs: map<JobId, Job>, locked: set<JobId>, cutoff: Time, id: JobId) {
    && id in jobs && id !in locked
    && jobs[id].state in {State.Claimed, State.Extracting, State.Ocr, State.Normalizing, State.CancelRequested}
    && jobs[id].heartbeatAt.Some? && jobs[id].heartbeatAt.value < cutoff
  }

  predicate RecoverySeen(j: Job, j': Job, now: Time) {
    var freed := j.(claimedBy := None, heartbeatAt := Some(now));
    if j.state == State.CancelRequested then
      Journaled(freed.(state := State.Cancelled, failure := Some(CancelledByUser), finishedAt := Some(now)), j')
    else if j.attempts < j.maxAttempts then Journaled(freed.(state := State.Queued, availableAt := now), j')
    else Journaled(freed.(state := State.Failed, failure := Some(Retryable), finishedAt := Some(now)), j')
  }

  predicate AllRecoverySeen(jobs: map<JobId, Job>, jobs': map<JobId, Job>, locked: set<JobId>, cutoff: Time, now: Time) {
    && jobs'.Keys == jobs.Keys
    && forall id :: id in jobs ==>
         if IsLate(jobs, locked, cutoff, id) then RecoverySeen(jobs[id], jobs'[id], now) else jobs'[id] == jobs[id]
  }

  /** Late jobs that go back to the queue, and those that have no attempt left. */
  function Requeued(jobs: map<JobId, Job>, locked: set<JobId>, cutoff: Time): set<JobId> {
    set id | id in jobs && IsLate(jobs, locked, cutoff, id)
             && jobs[id].state != State.CancelRequested && jobs[id].attempts < jobs[id].maxAttempts
  }

  function GivenUp(jobs: map<JobId, Job>, locked: set<JobId>, cutoff: Time): set<JobId> {
    set id | id in jobs && IsLate(jobs, locked, cutoff, id)
             && jobs[id].state != State.CancelRequested && jobs[id].attempts >= jobs[id].maxAttempts
  }

  lemma RecoveredRowSeen(j: Job, worker: WorkerId, now: Time)
    ensures RecoverySeen(j, RecoveredRow(j, worker, now), now)
  {
  }

  lemma LateIsStale(jobs: map<JobId, Job>, locked: set<JobId>, cutoff: Time)
    ensures forall id :: id in jobs ==> (id in StaleIds(jobs, locked, cutoff) <==> IsLate(jobs, locked, cutoff, id))
  {
  }

  lemma RecoveryEffects(c: Config, q: Tables, worker: WorkerId, locked: set<JobId>, now: Time)
    ensures var q' := RecoverStep(c, q, worker, locked, now);
            && AllRecoverySeen(q.jobs, q'.jobs, locked, now - c.jobTimeout, now)
            && forall l :: l in q'.leases <==> l in q.leases && !IsLate(q.jobs, locked, now - c.jobTimeout, q.leases[l].job)
  {
    hide RecoveredRow, RecoverySeen;
    LateIsStale(q.jobs, locked, now - c.jobTimeout);
    forall id | id in q.jobs { RecoveredRowSeen(q.jobs[id], worker, now); }
    assert forall id :: IsLate(q.jobs, locked, now - c.jobTimeout, id) ==> id in q.jobs;
  }

  // ---------- cancellation, manual retries, beats ----------

  predicate OthersSame(jobs: map<JobId, Job>, jobs': map<JobId, Job>, id: JobId) {
    jobs'.Keys == jobs.Keys && forall k :: k in jobs && k != id ==> jobs'[k] == jobs[k]
  }

  predicate IsCancelled(j: Job, j': Job, now: Time) {
    Journaled(j.(state := State.Cancelled, failure := Some(CancelledByUser), heartbeatAt := Some(now), finishedAt := Some(now)), j')
  }

  /** A queued job is cancelled at once, one under way is asked to stop, and all else stays. */
  predicate CancelRequestSeen(j: Job, j': Job, now: Time) {
    if j.state == State.Queued then IsCancelled(j, j', now)
    else if j.state in {State.Claimed, State.Extracting, State.Ocr, State.Normalizing} then
      Journaled(j.(state := State.CancelRequested, heartbeatAt := Some(now)), j')
    else j' == j
  }

  lemma CancelEffects(c: Config, q: Tables, s: Step)
    requires Enabled(c, q, s)
    ensures s.action.RequestCancel? ==>
              var id, q' := s.action.id, Next(c, q, s);
              && OthersSame(q.jobs, q'.jobs, id) && q'.leases == q.leases
              && (id in q.jobs ==> CancelRequestSeen(q.jobs[id], q'.jobs[id], s.now))
    ensures s.action.ObserveCancel? ==>
              var id, q' := s.action.id, Next(c, q, s);
              && OthersSame(q.jobs, q'.jobs, id)
              && if q.jobs[id].state == State.CancelRequested
                 then IsCancelled(q.jobs[id].(claimedBy := None), q'.jobs[id], s.now) && OnlyLeasesGone(q.leases, q'.leases, id)
                 else q'.jobs == q.jobs && q'.leases == q.leases
  {
  }

  ghost predicate OnlyLeasesGone(leases: map<LeaseId, Lease>, leases': map<LeaseId, Lease>, id: JobId) {
    && (forall l :: l in leases' <==> l in leases && leases[l].job != id)
    && forall l :: l in leases' ==> leases'[l] == leases[l]
  }

  predicate IsLive(j: Job) {
    j.state in {State.Queued, State.Claimed, State.Extracting, State.Ocr, State.Normalizing, State.CancelRequested}
  }

  predicate CanRestart(j: Job, document: DocumentId) {
    j.document == document && j.state in {State.Failed, State.TimedOut} && j.attempts < j.maxAttempts
  }

  predicate Restarts(j: Job, j': Job, now: Time) {
    Journaled(j.(state := State.Queued, heartbeatAt := Some(now), availableAt := now, finishedAt := None, priority := Interactive), j')
  }

  /** A live job is left alone; or else the latest job that failed or timed out with an attempt left starts
      again; or else there is a new one. */
  predicate RetrySeen(jobs: map<JobId, Job>, jobs': map<JobId, Job>, document: DocumentId, id: JobId, maxAttempts: nat,
                      r: Resource, now: Time)
  {
    if exists k :: k in jobs && jobs[k].document == document && IsLive(jobs[k]) then jobs' == jobs
    else if exists k :: k in jobs && CanRestart(jobs[k], document) then
      exists k :: k in jobs && CanRestart(jobs[k], document) && OthersSame(jobs, jobs', k) && Restarts(jobs[k], jobs'[k], now)
                  && forall other :: other in jobs && CanRestart(jobs[other], document) ==> jobs[other].createdAt <= jobs[k].createdAt
    else if maxAttempts >= 1 then
      jobs'.Keys == jobs.Keys + {id} && (forall k :: k in jobs && k != id ==> jobs'[k] == jobs[k])
      && IsNew(jobs'[id], document, Interactive, r, maxAttempts, None, now)
    else jobs' == jobs
  }

  /** A queued row with nothing done yet, that may start at once. */
  predicate IsNew(j: Job, document: DocumentId, priority: Priority, r: Resource, maxAttempts: nat,
                  dependency: Option<JobId>, now: Time)
  {
    j == Job(document, State.Queued, priority, r, 0, maxAttempts, dependency, None, None, now, None, None, 0, now, j.events)
    && |j.events| == 1
  }

  lemma NewJobIsNew(document: DocumentId, priority: Priority, r: Resource, maxAttempts: nat, dependency: Option<JobId>, now: Time)
    ensures IsNew(NewJob(document, priority, r, maxAttempts, dependency, now), document, priority, r, maxAttempts, dependency, now)
  {
  }

  lemma RetriedRowRestarts(j: Job, now: Time)
    ensures Restarts(j, RetriedRow(j, now), now)
  {
  }

  lemma LiveIff(jobs: map<JobId, Job>, document: DocumentId)
    ensures LiveOf(jobs, document) <==> exists k :: k in jobs && jobs[k].document == document && IsLive(jobs[k])
  {
  }

  lemma LatestRestarts(jobs: map<JobId, Job>, document: DocumentId)
    ensures RetryableKeys(jobs, document) == {} <==> forall k :: k in jobs ==> !CanRestart(jobs[k], document)
    ensures RetryableKeys(jobs, document) != {} ==>
              var k := Least(RetryableKeys(jobs, document)).id;
              && k in jobs && CanRestart(jobs[k], document)
              && forall other :: other in jobs && CanRestart(jobs[other], document) ==> jobs[other].createdAt <= jobs[k].createdAt
  {
    var keys := RetryableKeys(jobs, document);
    forall other | other in jobs && CanRestart(jobs[other], document)
      ensures Key(0, -jobs[other].createdAt, other) in keys
    {
    }
    if keys != {} { assert Least(keys) in keys; }
  }

  lemma RetryEffects(q: Tables, a: Action, now: Time)
    requires a.Retry? && a.id !in q.jobs
    ensures RetrySeen(q.jobs, RetryStep(q, a, now).jobs, a.document, a.id, a.maxAttempts, a.resource, now)
    ensures RetryStep(q, a, now).leases == q.leases
  {
    hide RetryableKeys, Least, IsLeast, LiveOf, RetriedRow, Restarts, CanRestart, IsLive, IsNew, NewJob;
    LiveIff(q.jobs, a.document);
    LatestRestarts(q.jobs, a.document);
    NewJobIsNew(a.document, Interactive, a.resource, a.maxAttempts, None, now);
    var keys := RetryableKeys(q.jobs, a.document);
    if keys != {} && !LiveOf(q.jobs, a.document) {
      var k := Least(keys).id;
      RetriedRowRestarts(q.jobs[k], now);
      assert OthersSame(q.jobs, RetryStep(q, a, now).jobs, k);
    }
  }

  // ---------- leases and beats ----------

  /** The beat of the job, if the worker still holds it, and those of its leases. */
  predicate BeatSeen(q: Tables, q': Tables, id: JobId, worker: WorkerId, now: Time) {
    && OthersSame(q.jobs, q'.jobs, id)
    && (id in q.jobs ==>
          q'.jobs[id] == if q.jobs[id].claimedBy == Some(worker)
                            && q.jobs[id].state in {State.Claimed, State.Extracting, State.Ocr, State.Normalizing,
                                                    State.CancelRequested}
                         then q.jobs[id].(heartbeatAt := Some(now)) else q.jobs[id])
    && q'.leases.Keys == q.leases.Keys
    && forall l :: l in q.leases ==>
         q'.leases[l] == if q.leases[l].job == id && q.leases[l].worker == worker
                         then q.leases[l].(heartbeatAt := now) else q.leases[l]
  }

  lemma BeatEffects(q: Tables, id: JobId, worker: WorkerId, now: Time)
    ensures BeatSeen(q, HeartbeatStep(q, id, worker, now), id, worker, now)
  {
  }

  /** Leases whose last beat is not before the cutoff. */
  predicate InForce(leases: map<LeaseId, Lease>, l: LeaseId, cutoff: Time) { l in leases && leases[l].heartbeatAt >= cutoff }

  /** Leases that have run out go. A lease of the job in the class is renewed; or else there is a new one, when
      fewer than the limit are in force; or else the job is put off. */
  ghost predicate LeaseSeen(c: Config, q: Tables, q': Tables, id: JobId, worker: WorkerId, r: Resource, lease: LeaseId,
                            now: Time, got: bool)
    requires id in q.jobs && r in c.limits
  {
    var cutoff := now - c.jobTimeout;
    var own := exists l :: InForce(q.leases, l, cutoff) && q.leases[l].job == id && q.leases[l].resource == r;
    var room := |set l | l in q.leases && InForce(q.leases, l, cutoff) && q.leases[l].resource == r| < c.limits[r];
    && (got <==> own || room)
    && OthersSame(q.jobs, q'.jobs, id)
    && (if own then q'.jobs[id] == q.jobs[id]
        else if room then Journaled(q.jobs[id], q'.jobs[id])
        else IsPutOff(q.jobs[id], q'.jobs[id]))
    && (forall l :: l in q'.leases <==> InForce(q.leases, l, cutoff) || (!own && room && l == lease))
    && (forall l :: InForce(q.leases, l, cutoff) ==>
          q'.leases[l] == if own && q.leases[l].job == id && q.leases[l].resource == r
                          then q.leases[l].(heartbeatAt := now) else q.leases[l])
    && (!own && room ==> q'.leases[lease] == Lease(id, r, worker, now))
  }

  lemma OwnLease(leases: map<LeaseId, Lease>, id: JobId, r: Resource, cutoff: Time)
    ensures LeasesOf(Unexpired(leases, cutoff), id, r) != {}
            <==> exists l :: InForce(leases, l, cutoff) && leases[l].job == id && leases[l].resource == r
    ensures LeasesIn(Unexpired(leases, cutoff), r) == set l | l in leases && InForce(leases, l, cutoff) && leases[l].resource == r
  {
    var own := LeasesOf(Unexpired(leases, cutoff), id, r);
    forall l | InForce(leases, l, cutoff) && leases[l].job == id && leases[l].resource == r ensures l in own {
    }
    if own != {} {
      var l :| l in own;
      assert InForce(leases, l, cutoff);
    }
  }

  lemma LeaseEffects(c: Config, q: Tables, a: Action, now: Time)
    requires a.Acquire? && a.id in q.jobs && a.resource in c.limits && a.lease !in q.leases
    ensures var q', leases := AcquireStep(c, q, a, now).(clock := now), Unexpired(q.leases, now - c.jobTimeout);
            if c.limits[a.resource] < 1 then q' == q.(clock := now)
            else LeaseSeen(c, q, q', a.id, a.worker, a.resource, a.lease, now,
                           LeasesOf(leases, a.id, a.resource) != {} || |LeasesIn(leases, a.resource)| < c.limits[a.resource])
  {
    hide LeasesOf, LeasesIn;
    OwnLease(q.leases, a.id, a.resource, now - c.jobTimeout);
    OwnOnes(q.leases, a.id, a.resource, now - c.jobTimeout);
  }

  lemma OwnOnes(leases: map<LeaseId, Lease>, id: JobId, r: Resource, cutoff: Time)
    ensures forall l :: l in LeasesOf(Unexpired(leases, cutoff), id, r) <==>
              InForce(leases, l, cutoff) && leases[l].job == id && leases[l].resource == r
  {
  }

  // ---------- processing ----------

  /** What a stretch of processing leaves in the row; a degraded result is marked when the job completes. */
  predicate AdvanceSeen(j: Job, j': Job, route: Route, now: Time) {
    match route
    case ToExtracting => Journaled(j.(state := State.Extracting, heartbeatAt := Some(now)), j')
    case ToOcr => Journaled(j.(state := State.Ocr, heartbeatAt := Some(now)), j')
    case ToNormalizing(_) => Journaled(j.(state := State.Normalizing, heartbeatAt := Some(now)), j')
    case ToCompleted(degraded) =>
      Journaled(j.(state := State.Completed, heartbeatAt := Some(now), finishedAt := Some(now),
                   failure := if degraded then Some(Degraded) else None), j')
  }

  lemma AdvanceEffects(j: Job, worker: WorkerId, route: Route, now: Time)
    ensures AdvancedRow(j, worker, route, now).Ok? ==> AdvanceSeen(j, AdvancedRow(j, worker, route, now).value, route, now)
  {
  }

  predicate UnderWay(s: State) { s in {State.Claimed, State.Extracting, State.Ocr, State.Normalizing} }

  /** Which state may follow which, in other words. */
  lemma TransitionsAre(a: State, b: State)
    ensures Allowed(a, b) <==>
      || (a == State.Queued && b in {State.Claimed, State.Cancelled, State.Failed})
      || (UnderWay(a) && b in {State.Queued, State.CancelRequested, State.Failed, State.TimedOut})
      || (a, b) in {(State.Claimed, State.Extracting), (State.Extracting, State.Ocr), (State.Extracting, State.Normalizing),
                    (State.Ocr, State.Normalizing), (State.Normalizing, State.Completed)}
      || (a == State.CancelRequested && b in {State.Cancelled, State.Completed, State.Failed, State.TimedOut})
      || (a in {State.TimedOut, State.Failed} && b == State.Queued)
  {
  }

  // ---------- new jobs, released leases ----------

  lemma EnqueueEffects(q: Tables, a: Action, now: Time)
    requires a.Enqueue? && a.id !in q.jobs
    ensures var q' := EnqueueStep(q, a, now);
            if a.maxAttempts >= 1 && (a.dependency.Some? ==> a.dependency.value in q.jobs) then
              && q'.jobs.Keys == q.jobs.Keys + {a.id} && q'.leases == q.leases
              && (forall k :: k in q.jobs ==> q'.jobs[k] == q.jobs[k])
              && IsNew(q'.jobs[a.id], a.document, a.priority, a.resource, a.maxAttempts, a.dependency, now)
            else q' == q
  {
    hide NewJob, IsNew;
    NewJobIsNew(a.document, a.priority, a.resource, a.maxAttempts, a.dependency, now);
  }

  lemma ReleaseEffects(q: Tables, id: JobId, r: Resource, worker: WorkerId)
    requires id in q.jobs
    ensures var q' := ReleaseStep(q, id, r, worker);
            && OthersSame(q.jobs, q'.jobs, id) && Journaled(q.jobs[id], q'.jobs[id])
            && (forall l :: l in q'.leases <==> l in q.leases && !(q.leases[l].job == id && q.leases[l].resource == r))
            && forall l :: l in q'.leases ==> q'.leases[l] == q.leases[l]
  {
  }
}
