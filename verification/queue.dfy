/** The durable job queue of apps/api/pdi/ingestion/queue.py: its committed rows, and
    every queue function as one atomic step on them. */
module Queue {
  import opened Common
  import opened Execution

  // ---------- rows ----------

  datatype EventKind =
    | Created | Admitted | ClaimedJob | Moved | AdmissionDeferred | RetryScheduled | Ended
    | CancelAsked | Recovered | ManualRetry | ResourceAcquired | ResourceReleased

  datatype Event = Event(from: State, to: State, kind: EventKind, attempt: nat, worker: Option<WorkerId>)

  datatype Job = Job(
    document: DocumentId,
    state: State,
    priority: Priority,
    resource: Resource,
    attempts: nat,
    maxAttempts: nat,
    dependency: Option<JobId>,
    claimedBy: Option<WorkerId>,
    heartbeatAt: Option<Time>,
    availableAt: Time,
    finishedAt: Option<Time>,
    failure: Option<FailureClass>,
    deferrals: nat,
    createdAt: Time,
    events: seq<Event>)

  datatype Lease = Lease(job: JobId, resource: Resource, worker: WorkerId, heartbeatAt: Time)

  /** The committed tables, and the latest time at which one of them was written. */
  datatype Tables = Tables(jobs: map<JobId, Job>, leases: map<LeaseId, Lease>, clock: Time)

  // ---------- changes to one row ----------

  function Noted(j: Job, kind: EventKind, worker: Option<WorkerId>): Job {
    j.(events := j.events + [Event(j.state, j.state, kind, j.attempts, worker)])
  }

  function Transitioned(j: Job, target: State, worker: Option<WorkerId>, kind: EventKind, now: Time): Job {
    j.(state := target,
       heartbeatAt := Some(now),
       finishedAt := if Terminal(target) then Some(now) else j.finishedAt,
       failure := if target == Completed then None
                  else if target == Cancelled then Some(CancelledByUser)
                  else j.failure,
       events := j.events + [Event(j.state, target, kind, j.attempts, worker)])
  }

  function NewJob(document: DocumentId, priority: Priority, resource: Resource, maxAttempts: nat,
                  dependency: Option<JobId>, now: Time): Job {
    Noted(Job(document, Queued, priority, resource, 0, maxAttempts, dependency, None, None, now, None, None, 0, now, []),
          Created, None)
  }

  function DependencyFailedJob(j: Job, now: Time): Job {
    Transitioned(j.(failure := Some(DependencyFailed)), Failed, None, Ended, now)
  }

  function ClaimedRow(j: Job, worker: WorkerId, now: Time): Job {
    var admitted := Transitioned(Noted(j, Admitted, Some(worker)), Claimed, Some(worker), ClaimedJob, now);
    admitted.(claimedBy := Some(worker), finishedAt := None, attempts := j.attempts + 1)
  }

  function DeferredRow(j: Job, worker: WorkerId): Job {
    Noted(j.(deferrals := j.deferrals + 1), AdmissionDeferred, Some(worker))
  }

  function FailedRow(j: Job, worker: WorkerId, failure: FailureClass, now: Time): Result<Job, QueueError> {
    var given := j.(failure := Some(failure), claimedBy := None);
    var retry := ShouldRetry(failure, j.attempts, j.maxAttempts);
    var target := if retry then Queued else if failure == Timeout then TimedOut else Failed;
    if !Allowed(j.state, target) then Err(InvalidTransition)
    else if retry then
      Ok(Transitioned(given, target, Some(worker), RetryScheduled, now)
         .(availableAt := now + DelaySeconds(j.attempts)))
    else Ok(Transitioned(given, target, Some(worker), Ended, now))
  }

  function CancelAskedRow(j: Job, now: Time): Job {
    if Terminal(j.state) || j.state == CancelRequested then j
    else if j.state == Queued then Transitioned(j, Cancelled, None, Ended, now)
    else Transitioned(j, CancelRequested, None, CancelAsked, now)
  }

  function CancelObservedRow(j: Job, worker: WorkerId, now: Time): Job {
    if j.state != CancelRequested then j
    else Transitioned(j, Cancelled, Some(worker), Ended, now).(claimedBy := None)
  }

  predicate Stale(j: Job, cutoff: Time) {
    Active(j.state) && j.heartbeatAt.Some? && j.heartbeatAt.value < cutoff
  }

  function RecoveredRow(j: Job, worker: WorkerId, now: Time): Job {
    var moved :=
      if j.state == CancelRequested then Transitioned(j, Cancelled, Some(worker), Ended, now)
      else if j.attempts < j.maxAttempts then
        Transitioned(j, Queued, Some(worker), Recovered, now).(availableAt := now)
      else Transitioned(j.(failure := Some(Retryable)), Failed, Some(worker), Ended, now);
    moved.(claimedBy := None)
  }

  function RetriedRow(j: Job, now: Time): Job {
    Transitioned(j, Queued, None, ManualRetry, now)
      .(availableAt := now, finishedAt := None, priority := Interactive)
  }

  /** What `process_job` commits in one stretch; normalizing may pass through OCR first. */
  datatype Route = ToExtracting | ToOcr | ToNormalizing(throughOcr: bool) | ToCompleted(degraded: bool)

  function RouteTarget(route: Route): State {
    match route
    case ToExtracting => State.Extracting
    case ToOcr => State.Ocr
    case ToNormalizing(_) => State.Normalizing
    case ToCompleted(_) => State.Completed
  }

  function AdvancedRow(j: Job, worker: WorkerId, route: Route, now: Time): Result<Job, QueueError> {
    match route
    case ToExtracting =>
      if Allowed(j.state, Extracting) then Ok(Transitioned(j, Extracting, Some(worker), Moved, now))
      else Err(InvalidTransition)
    case ToOcr =>
      if Allowed(j.state, Ocr) then Ok(Transitioned(j, Ocr, Some(worker), Moved, now))
      else Err(InvalidTransition)
    case ToNormalizing(throughOcr) =>
      var at := if throughOcr && j.state == Extracting then Transitioned(j, Ocr, Some(worker), Moved, now) else j;
      if Allowed(at.state, Normalizing) then Ok(Transitioned(at, Normalizing, Some(worker), Moved, now))
      else Err(InvalidTransition)
    case ToCompleted(degraded) =>
      if Allowed(j.state, Completed) then
        var done := Transitioned(j, Completed, Some(worker), Ended, now);
        Ok(if degraded then done.(failure := Some(Degraded)) else done)
      else Err(InvalidTransition)
  }

  // ---------- scheduling ----------

  /** Jobs are admitted in the order of these keys, least first. */
  datatype Key = Key(rank: nat, createdAt: Time, id: JobId)

  predicate KeyLess(a: Key, b: Key) {
    || a.rank < b.rank
    || (a.rank == b.rank && a.createdAt < b.createdAt)
    || (a.rank == b.rank && a.createdAt == b.createdAt && a.id < b.id)
  }

  predicate IsLeast(k: Key, keys: set<Key>) {
    k in keys && forall other :: other in keys ==> other == k || KeyLess(k, other)
  }

  lemma {:induction false} LeastExists(keys: set<Key>)
    requires keys != {}
    ensures exists k :: IsLeast(k, keys)
  {
    var x :| x in keys;
    if keys == {x} {
      assert IsLeast(x, keys);
    } else {
      var rest := keys - {x};
      LeastExists(rest);
      var m :| IsLeast(m, rest);
      assert keys == rest + {x};
      assert IsLeast(if KeyLess(x, m) then x else m, keys);
    }
  }

  /** The first row of an ordered query. */
  function Least(keys: set<Key>): (k: Key)
    requires keys != {}
    ensures k in keys && IsLeast(k, keys)
  {
    LeastExists(keys);
    var k :| IsLeast(k, keys);
    k
  }

  predicate Aged(j: Job, now: Time, starvationSeconds: int) { j.createdAt <= now - starvationSeconds }

  function ScheduleKey(id: JobId, j: Job, now: Time, starvationSeconds: int): Key {
    Key(if Aged(j, now, starvationSeconds) then 0 else PriorityOrder(j.priority) + 1, j.createdAt, id)
  }

  predicate Eligible(jobs: map<JobId, Job>, id: JobId, now: Time)
    requires id in jobs
  {
    var j := jobs[id];
    && j.state == Queued
    && j.availableAt <= now
    && j.attempts < j.maxAttempts
    && (j.dependency.Some? ==> j.dependency.value in jobs && jobs[j.dependency.value].state == Completed)
  }

  function AgedKeys(jobs: map<JobId, Job>, r: Resource, now: Time, starvationSeconds: int): set<Key> {
    set id | id in jobs && Eligible(jobs, id, now) && jobs[id].resource == r
             && jobs[id].createdAt <= now - starvationSeconds
      :: Key(0, jobs[id].createdAt, id)
  }

  function RecentKeys(jobs: map<JobId, Job>, r: Resource, now: Time, starvationSeconds: int): set<Key> {
    set id | id in jobs && Eligible(jobs, id, now) && jobs[id].resource == r
             && jobs[id].createdAt > now - starvationSeconds
      :: Key(PriorityOrder(jobs[id].priority), jobs[id].createdAt, id)
  }

  /** One lateral row of the PostgreSQL query: the first aged job, or else the first by priority. */
  function PostgresCandidate(jobs: map<JobId, Job>, r: Resource, now: Time, starvationSeconds: int): Option<JobId> {
    var aged := AgedKeys(jobs, r, now, starvationSeconds);
    var recent := RecentKeys(jobs, r, now, starvationSeconds);
    if aged != {} then Some(Least(aged).id) else if recent != {} then Some(Least(recent).id) else None
  }

  function ClassKeys(jobs: map<JobId, Job>, r: Resource, now: Time, starvationSeconds: int): (keys: set<Key>)
    ensures forall k :: k in keys ==> k.id in jobs
  {
    set id | id in jobs && Eligible(jobs, id, now) && jobs[id].resource == r
      :: ScheduleKey(id, jobs[id], now, starvationSeconds)
  }

  /** The portable query: the row ranked first in its resource class. */
  function PortableCandidate(jobs: map<JobId, Job>, r: Resource, now: Time, starvationSeconds: int): Option<JobId> {
    var keys := ClassKeys(jobs, r, now, starvationSeconds);
    if keys != {} then Some(Least(keys).id) else None
  }

  const RESOURCES: set<Resource> := {CpuLight, CpuHeavy, IoHeavy, OcrEngine, LocalAi, Upkeep}

  /** The keys of the candidates, one of every resource class that has an eligible job. */
  function CandidateKeys(jobs: map<JobId, Job>, now: Time, starvationSeconds: int): (keys: set<Key>)
    ensures forall k :: k in keys ==> k.id in jobs
  {
    set r | r in RESOURCES && ClassKeys(jobs, r, now, starvationSeconds) != {}
      :: Least(ClassKeys(jobs, r, now, starvationSeconds))
  }

  function ActiveIn(jobs: map<JobId, Job>, r: Resource): set<JobId> {
    set id | id in jobs && Active(jobs[id].state) && jobs[id].resource == r
  }

  predicate HasSlot(limits: map<Resource, int>, jobs: map<JobId, Job>, r: Resource) {
    r in limits ==> |ActiveIn(jobs, r)| < limits[r]
  }

  function AdmissibleKeys(c: Config, jobs: map<JobId, Job>, now: Time): set<Key> {
    set k | k in CandidateKeys(jobs, now, c.starvationSeconds) && HasSlot(c.limits, jobs, jobs[k.id].resource)
  }

  predicate Blocked(jobs: map<JobId, Job>, id: JobId)
    requires id in jobs
  {
    var j := jobs[id];
    && j.state == Queued
    && j.dependency.Some?
    && j.dependency.value in jobs
    && jobs[j.dependency.value].state in {Failed, TimedOut, Cancelled}
  }

  /** The query locks the job and its predecessor, and skips rows that another transaction holds locked. */
  predicate FailsNow(jobs: map<JobId, Job>, locked: set<JobId>, id: JobId)
    requires id in jobs
  {
    Blocked(jobs, id) && id !in locked && jobs[id].dependency.value !in locked
  }

  function BlockedIds(jobs: map<JobId, Job>, locked: set<JobId>): set<JobId> {
    set id | id in jobs && FailsNow(jobs, locked, id)
  }

  function FailBlocked(jobs: map<JobId, Job>, locked: set<JobId>, now: Time): map<JobId, Job> {
    map id | id in jobs :: if FailsNow(jobs, locked, id) then DependencyFailedJob(jobs[id], now) else jobs[id]
  }

  /** The job that a claim takes, if it takes one. */
  function Chosen(c: Config, jobs: map<JobId, Job>, locked: set<JobId>, now: Time): Option<JobId> {
    var keys := AdmissibleKeys(c, FailBlocked(jobs, locked, now), now);
    if keys == {} || Least(keys).id in locked then None else Some(Least(keys).id)
  }

  // ---------- atomic steps ----------

  datatype Action =
    | Enqueue(id: JobId, document: DocumentId, priority: Priority, resource: Resource, maxAttempts: nat,
              dependency: Option<JobId>)
    | Claim(worker: WorkerId, maintenance: bool, locked: set<JobId>)
    | Advance(id: JobId, worker: WorkerId, route: Route)
    | Fail(id: JobId, worker: WorkerId, failure: FailureClass)
    | RequestCancel(id: JobId)
    | ObserveCancel(id: JobId, worker: WorkerId)
    | Recover(worker: WorkerId, locked: set<JobId>)
    | Heartbeat(id: JobId, worker: WorkerId)
    | Acquire(id: JobId, worker: WorkerId, resource: Resource, lease: LeaseId)
    | Release(id: JobId, resource: Resource, worker: WorkerId)
    | ReleaseAll(id: JobId)
    | Retry(document: DocumentId, id: JobId, maxAttempts: nat, resource: Resource)

  datatype Step = Step(now: Time, action: Action)

  predicate Holds(jobs: map<JobId, Job>, id: JobId, worker: WorkerId) {
    id in jobs && Active(jobs[id].state) && jobs[id].claimedBy == Some(worker)
  }

  function WithoutLeasesOf(leases: map<LeaseId, Lease>, gone: set<JobId>): map<LeaseId, Lease> {
    map l | l in leases && leases[l].job !in gone :: leases[l]
  }

  function LeasesOf(leases: map<LeaseId, Lease>, id: JobId, r: Resource): set<LeaseId> {
    set l | l in leases && leases[l].job == id && leases[l].resource == r
  }

  function LeasesIn(leases: map<LeaseId, Lease>, r: Resource): set<LeaseId> {
    set l | l in leases && leases[l].resource == r
  }

  function Unexpired(leases: map<LeaseId, Lease>, cutoff: Time): map<LeaseId, Lease> {
    map l | l in leases && leases[l].heartbeatAt >= cutoff :: leases[l]
  }

  function EnqueueStep(q: Tables, a: Action, now: Time): Tables
    requires a.Enqueue?
  {
    if a.maxAttempts < 1 || (a.dependency.Some? && a.dependency.value !in q.jobs) then q
    else q.(jobs := q.jobs[a.id := NewJob(a.document, a.priority, a.resource, a.maxAttempts, a.dependency, now)])
  }

  function ClaimStep(c: Config, q: Tables, worker: WorkerId, maintenance: bool, locked: set<JobId>, now: Time): Tables {
    if maintenance then q
    else
      var jobs := FailBlocked(q.jobs, locked, now);
      var candidates := CandidateKeys(jobs, now, c.starvationSeconds);
      var admissible := AdmissibleKeys(c, jobs, now);
      if candidates == {} then q.(jobs := jobs)
      else
        var id := Least(if admissible == {} then candidates else admissible).id;
        if id in locked then q.(jobs := jobs)
        else if admissible == {} then q.(jobs := jobs[id := DeferredRow(jobs[id], worker)])
        else q.(jobs := jobs[id := ClaimedRow(jobs[id], worker, now)])
  }

  function FailStep(q: Tables, id: JobId, worker: WorkerId, failure: FailureClass, now: Time): Tables
    requires id in q.jobs
  {
    match FailedRow(q.jobs[id], worker, failure, now)
    case Err(_) => q
    case Ok(j) => q.(jobs := q.jobs[id := j], leases := WithoutLeasesOf(q.leases, {id}))
  }

  function StaleIds(jobs: map<JobId, Job>, locked: set<JobId>, cutoff: Time): set<JobId> {
    set id | id in jobs && id !in locked && Stale(jobs[id], cutoff)
  }

  function RecoverStep(c: Config, q: Tables, worker: WorkerId, locked: set<JobId>, now: Time): Tables {
    var cutoff := now - c.jobTimeout;
    q.(jobs := map id | id in q.jobs ::
                 if id !in locked && Stale(q.jobs[id], cutoff) then RecoveredRow(q.jobs[id], worker, now) else q.jobs[id],
       leases := WithoutLeasesOf(q.leases, StaleIds(q.jobs, locked, cutoff)))
  }

  function HeartbeatStep(q: Tables, id: JobId, worker: WorkerId, now: Time): Tables {
    q.(jobs := if Holds(q.jobs, id, worker) then q.jobs[id := q.jobs[id].(heartbeatAt := Some(now))] else q.jobs,
       leases := map l | l in q.leases ::
                   if q.leases[l].job == id && q.leases[l].worker == worker
                   then q.leases[l].(heartbeatAt := now) else q.leases[l])
  }

  function AcquireStep(c: Config, q: Tables, a: Action, now: Time): Tables
    requires a.Acquire? && a.id in q.jobs && a.resource in c.limits
  {
    var leases := Unexpired(q.leases, now - c.jobTimeout);
    var own := LeasesOf(leases, a.id, a.resource);
    if c.limits[a.resource] < 1 then q
    else if own != {} then
      q.(leases := map l | l in leases :: if l in own then leases[l].(heartbeatAt := now) else leases[l])
    else if |LeasesIn(leases, a.resource)| >= c.limits[a.resource] then
      q.(leases := leases, jobs := q.jobs[a.id := DeferredRow(q.jobs[a.id], a.worker)])
    else
      q.(leases := leases[a.lease := Lease(a.id, a.resource, a.worker, now)],
         jobs := q.jobs[a.id := Noted(q.jobs[a.id], ResourceAcquired, Some(a.worker))])
  }

  function ReleaseStep(q: Tables, id: JobId, r: Resource, worker: WorkerId): Tables
    requires id in q.jobs
  {
    q.(leases := map l | l in q.leases && !(q.leases[l].job == id && q.leases[l].resource == r) :: q.leases[l],
       jobs := q.jobs[id := Noted(q.jobs[id], ResourceReleased, Some(worker))])
  }

  predicate LiveOf(jobs: map<JobId, Job>, document: DocumentId) {
    exists id :: id in jobs && jobs[id].document == document && Live(jobs[id].state)
  }

  /** Failed or timed-out jobs of a document with an attempt left; the latest has the least key. */
  function RetryableKeys(jobs: map<JobId, Job>, document: DocumentId): (keys: set<Key>)
    ensures forall k :: k in keys ==> k.id in jobs
  {
    set id | id in jobs && jobs[id].document == document && jobs[id].state in {Failed, TimedOut}
             && jobs[id].attempts < jobs[id].maxAttempts
      :: Key(0, -jobs[id].createdAt, id)
  }

  function RetryStep(q: Tables, a: Action, now: Time): Tables
    requires a.Retry?
  {
    var keys := RetryableKeys(q.jobs, a.document);
    if LiveOf(q.jobs, a.document) then q
    else if keys != {} then
      var id := Least(keys).id;
      q.(jobs := q.jobs[id := RetriedRow(q.jobs[id], now)])
    else if a.maxAttempts < 1 then q
    else q.(jobs := q.jobs[a.id := NewJob(a.document, Interactive, a.resource, a.maxAttempts, None, now)])
  }

  /** What the source asks of its callers. A worker acts only on an active job that it holds;
      new rows get unused identifiers. */
  predicate Enabled(c: Config, q: Tables, s: Step) {
    && q.clock <= s.now
    && match s.action
       case Enqueue(id, _, _, _, _, _) => id !in q.jobs
       case Advance(id, worker, _) => Holds(q.jobs, id, worker)
       case Fail(id, worker, _) => Holds(q.jobs, id, worker)
       case ObserveCancel(id, worker) => Holds(q.jobs, id, worker)
       case Acquire(id, worker, r, lease) => Holds(q.jobs, id, worker) && r in c.limits && lease !in q.leases
       case Release(id, _, _) => id in q.jobs
       case Retry(_, id, _, _) => id !in q.jobs
       case _ => true
  }

  function Acted(c: Config, q: Tables, s: Step): Tables
    requires Enabled(c, q, s)
  {
    match s.action
    case Enqueue(_, _, _, _, _, _) => EnqueueStep(q, s.action, s.now)
    case Claim(worker, maintenance, locked) => ClaimStep(c, q, worker, maintenance, locked, s.now)
    case Advance(id, worker, route) =>
      (match AdvancedRow(q.jobs[id], worker, route, s.now)
       case Err(_) => q
       case Ok(j) => q.(jobs := q.jobs[id := j]))
    case Fail(id, worker, failure) => FailStep(q, id, worker, failure, s.now)
    case RequestCancel(id) =>
      if id !in q.jobs then q else q.(jobs := q.jobs[id := CancelAskedRow(q.jobs[id], s.now)])
    case ObserveCancel(id, worker) =>
      if q.jobs[id].state != CancelRequested then q
      else q.(jobs := q.jobs[id := CancelObservedRow(q.jobs[id], worker, s.now)],
              leases := WithoutLeasesOf(q.leases, {id}))
    case Recover(worker, locked) => RecoverStep(c, q, worker, locked, s.now)
    case Heartbeat(id, worker) => HeartbeatStep(q, id, worker, s.now)
    case Acquire(_, _, _, _) => AcquireStep(c, q, s.action, s.now)
    case Release(id, r, worker) => ReleaseStep(q, id, r, worker)
    case ReleaseAll(id) => q.(leases := WithoutLeasesOf(q.leases, {id}))
    case Retry(_, _, _, _) => RetryStep(q, s.action, s.now)
  }

  function Next(c: Config, q: Tables, s: Step): Tables
    requires Enabled(c, q, s)
  {
    Acted(c, q, s).(clock := s.now)
  }

  predicate ValidRun(c: Config, q: Tables, steps: seq<Step>)
    decreases |steps|
  {
    steps == [] || (Enabled(c, q, steps[0]) && ValidRun(c, Next(c, q, steps[0]), steps[1..]))
  }

  function After(c: Config, q: Tables, steps: seq<Step>): Tables
    requires ValidRun(c, q, steps)
    decreases |steps|
  {
    if steps == [] then q else After(c, Next(c, q, steps[0]), steps[1..])
  }

  function Empty(): Tables { Tables(map[], map[], 0) }
}
