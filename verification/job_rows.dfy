/** What one job row and its journal always satisfy, change by change. */
module JobRows {
  import opened Common
  import opened Execution
  import opened Queue

  function Count(events: seq<Event>, p: Event -> bool): nat {
    if events == [] then 0 else Count(events[..|events| - 1], p) + if p(events[|events| - 1]) then 1 else 0
  }

  const IS_CLAIM := (e: Event) => e.kind == ClaimedJob
  const IS_CHANGE := (e: Event) => e.from != e.to
  const IS_MANUAL_RETRY := (e: Event) => e.kind == ManualRetry

  /** The journal starts with the creation and is a chained valid path. */
  predicate Journal(events: seq<Event>) {
    && events != []
    && events[0].from == events[0].to == State.Queued
    && (forall i :: 0 < i < |events| ==> events[i].from == events[i - 1].to)
    && (forall i :: 0 <= i < |events| ==> events[i].from == events[i].to || Allowed(events[i].from, events[i].to))
  }

  function Last(events: seq<Event>): Event
    requires events != []
  {
    events[|events| - 1]
  }

  /** How many transitions a job can still make without a manual retry, at most. */
  function Potential(j: Job): int { 7 * (j.maxAttempts - j.attempts) + Rank(j.state) }

  predicate FailureFits(state: State, failure: Option<FailureClass>) {
    && (state == State.TimedOut ==> failure == Some(Timeout))
    && (state == State.Cancelled ==> failure == Some(CancelledByUser))
    && (state == State.Completed ==> failure in {None, Some(Degraded)})
    && (state == State.Failed ==> failure.Some? && failure != Some(Timeout))
  }

  /** The journal ends where the row is, counts its claims, and bounds its transitions. */
  predicate JournalOk(j: Job) {
    && Journal(j.events)
    && Last(j.events).to == j.state
    && Count(j.events, IS_CLAIM) == j.attempts
    && Count(j.events, IS_CHANGE) + Potential(j) <= 7 * j.maxAttempts + 1 + 2 * Count(j.events, IS_MANUAL_RETRY)
  }

  predicate FieldsOk(j: Job) {
    && 1 <= j.maxAttempts
    && j.attempts <= j.maxAttempts
    && (j.state == State.Queued ==> j.attempts < j.maxAttempts)
    && (j.claimedBy.Some? <==> Active(j.state) || j.state == State.Completed)
    && (j.finishedAt.Some? <==> Terminal(j.state))
    && (Active(j.state) ==> j.heartbeatAt.Some?)
    && FailureFits(j.state, j.failure)
  }

  predicate RowOk(j: Job) { FieldsOk(j) && JournalOk(j) }

  /** What never changes in a row, and what never comes back. */
  predicate Later(j: Job, j': Job) {
    && j'.document == j.document
    && j'.resource == j.resource
    && j'.maxAttempts == j.maxAttempts
    && j'.dependency == j.dependency
    && j'.createdAt == j.createdAt
    && j.attempts <= j'.attempts
    && (j.state == State.Completed ==> j'.state == State.Completed)
    && j.events <= j'.events
  }

  /** A change other than a claim or a manual retry: nothing starts, nothing is used up. */
  predicate Kept(j: Job, j': Job) {
    && Later(j, j')
    && (RowOk(j) ==> RowOk(j'))
    && j'.attempts == j.attempts
    && (Live(j'.state) ==> Live(j.state))
    && (Active(j'.state) ==> Active(j.state))
    && (j'.state != j.state ==> Rank(j'.state) < Rank(j.state))
    && (j'.state == State.Queued && j.state == State.Queued ==> j'.availableAt == j.availableAt)
  }

  lemma EventAppended(j: Job, e: Event)
    requires Journal(j.events) && Last(j.events).to == j.state
    requires e.from == j.state && (e.from == e.to || Allowed(e.from, e.to))
    ensures Journal(j.events + [e]) && Last(j.events + [e]) == e
    ensures forall p :: Count(j.events + [e], p) == Count(j.events, p) + if p(e) then 1 else 0
  {
  }

  lemma NewJobOk(document: DocumentId, priority: Priority, r: Resource, maxAttempts: nat, dependency: Option<JobId>, now: Time)
    requires maxAttempts >= 1
    ensures RowOk(NewJob(document, priority, r, maxAttempts, dependency, now))
  {
  }

  lemma NotedKept(j: Job, kind: EventKind, worker: Option<WorkerId>)
    requires kind !in {ClaimedJob, ManualRetry}
    ensures Kept(j, Noted(j, kind, worker))
  {
    if RowOk(j) {
      EventAppended(j, Event(j.state, j.state, kind, j.attempts, worker));
    }
  }

  /** Every allowed transition out of a state that is not an end, but a claim, spends potential. */
  lemma PotentialFalls(j: Job, target: State)
    requires Allowed(j.state, target) && !Terminal(j.state) && target != State.Claimed
    ensures Rank(target) < Rank(j.state)
  {
  }

  lemma MovedJournal(j: Job, j': Job, kind: EventKind, worker: Option<WorkerId>)
    requires JournalOk(j)
    requires Allowed(j.state, j'.state) && !Terminal(j.state) && j'.state != State.Claimed
    requires kind !in {ClaimedJob, ManualRetry}
    requires j'.events == j.events + [Event(j.state, j'.state, kind, j.attempts, worker)]
    requires j'.attempts == j.attempts && j'.maxAttempts == j.maxAttempts
    ensures JournalOk(j') && j.events <= j'.events
  {
    EventAppended(j, Event(j.state, j'.state, kind, j.attempts, worker));
    PotentialFalls(j, j'.state);
  }

  lemma DependencyFailedKept(j: Job, now: Time)
    requires j.state == State.Queued
    ensures Kept(j, DependencyFailedJob(j, now))
  {
    if RowOk(j) { MovedJournal(j, DependencyFailedJob(j, now), Ended, None); }
  }

  lemma DeferredKept(j: Job, worker: WorkerId)
    ensures Kept(j, DeferredRow(j, worker))
  {
    NotedKept(j, AdmissionDeferred, Some(worker));
  }

  lemma ClaimedRowOk(j: Job, worker: WorkerId, now: Time)
    requires RowOk(j) && j.state == State.Queued
    ensures RowOk(ClaimedRow(j, worker, now)) && Later(j, ClaimedRow(j, worker, now))
  {
    NotedKept(j, Admitted, Some(worker));
    var admitted := Noted(j, Admitted, Some(worker));
    EventAppended(admitted, Event(State.Queued, State.Claimed, ClaimedJob, j.attempts, Some(worker)));
  }

  lemma FailedKept(j: Job, worker: WorkerId, failure: FailureClass, now: Time)
    requires Active(j.state) && FailedRow(j, worker, failure, now).Ok?
    ensures Kept(j, FailedRow(j, worker, failure, now).value)
    ensures !Active(FailedRow(j, worker, failure, now).value.state)
  {
    hide JournalOk;
    if RowOk(j) {
      var j' := FailedRow(j, worker, failure, now).value;
      MovedJournal(j, j', if j'.state == State.Queued then RetryScheduled else Ended, Some(worker));
    }
  }

  lemma CancelAskedKept(j: Job, now: Time)
    ensures Kept(j, CancelAskedRow(j, now))
  {
    if RowOk(j) && CancelAskedRow(j, now) != j {
      MovedJournal(j, CancelAskedRow(j, now), if j.state == State.Queued then Ended else CancelAsked, None);
    }
  }

  lemma CancelObservedKept(j: Job, worker: WorkerId, now: Time)
    ensures Kept(j, CancelObservedRow(j, worker, now))
  {
    if RowOk(j) && j.state == State.CancelRequested {
      MovedJournal(j, CancelObservedRow(j, worker, now), Ended, Some(worker));
    }
  }

  lemma RecoveredKept(j: Job, worker: WorkerId, now: Time)
    requires Active(j.state)
    ensures Kept(j, RecoveredRow(j, worker, now)) && !Active(RecoveredRow(j, worker, now).state)
  {
    hide JournalOk;
    if RowOk(j) {
      var j' := RecoveredRow(j, worker, now);
      MovedJournal(j, j', if j'.state == State.Queued then Recovered else Ended, Some(worker));
    }
  }

  lemma HeartbeatKept(j: Job, now: Time)
    ensures Kept(j, j.(heartbeatAt := Some(now)))
  {
  }

  lemma RetriedRowOk(j: Job, now: Time)
    requires RowOk(j) && j.state in {State.Failed, State.TimedOut} && j.attempts < j.maxAttempts
    ensures RowOk(RetriedRow(j, now)) && Later(j, RetriedRow(j, now))
  {
    EventAppended(j, Event(j.state, State.Queued, ManualRetry, j.attempts, None));
  }

  lemma AdvancedKept(j: Job, worker: WorkerId, route: Route, now: Time)
    requires Active(j.state) && AdvancedRow(j, worker, route, now).Ok?
    ensures var j' := AdvancedRow(j, worker, route, now).value;
            Kept(j, j') && (Active(j'.state) || j'.state == State.Completed)
  {
    hide JournalOk;
    if RowOk(j) {
      var j' := AdvancedRow(j, worker, route, now).value;
      if route.ToNormalizing? && route.throughOcr && j.state == State.Extracting {
        var at := Transitioned(j, State.Ocr, Some(worker), Moved, now);
        MovedJournal(j, at, Moved, Some(worker));
        MovedJournal(at, j', Moved, Some(worker));
      } else {
        MovedJournal(j, j', if route.ToCompleted? then Ended else Moved, Some(worker));
      }
    }
  }
}
