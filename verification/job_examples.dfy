/** Two runs from the empty queue: a job that nobody but recovery finishes, and a document with two jobs. */
module JobExamples {
  import opened Common
  import opened Execution
  import opened Queue
  import opened Scheduler
  import opened QueueRuns

  const SMALL := Config(map[CpuHeavy := 1], 60, 10, 60)

  /** Document 0 is enqueued with three attempts and claimed, and its cancellation is requested. */
  const CANCELLED: seq<Step> := [
    Step(0, Enqueue(0, 0, Priority.Normal, CpuHeavy, 3, None)),
    Step(1, Claim("worker", false, {})),
    Step(2, RequestCancel(0))]

  function Enqueued(): Tables {
    Tables(map[0 := NewJob(0, Priority.Normal, CpuHeavy, 3, None, 0)], map[], 0)
  }

  lemma ClaimTakesTheJob()
    ensures Chosen(SMALL, Enqueued().jobs, {}, 1) == Some(0)
  {
    hide Least, IsLeast;
    var jobs := Enqueued().jobs;
    var after := FailBlocked(jobs, {}, 1);
    assert after == jobs;
    assert ActiveIn(jobs, CpuHeavy) == {};
    assert Eligible(jobs, 0, 1) && HasSlot(SMALL.limits, jobs, CpuHeavy);
    assert ScheduleKey(0, jobs[0], 1, 60) in OpenKeys(SMALL, jobs, 1);
    ClaimTakesLeastOpenJob(SMALL, jobs, {}, 1);
    assert Least(OpenKeys(SMALL, jobs, 1)) in OpenKeys(SMALL, jobs, 1);
  }

  /** The retryable failure of the job is refused, and it stays with its worker, which is done with it. */
  lemma RetryOfCancelledIsRefused()
    ensures SMALL.Valid() && ValidRun(SMALL, Empty(), CANCELLED)
    ensures var q := After(SMALL, Empty(), CANCELLED);
            var failing := Step(3, Fail(0, "worker", Retryable));
            && Enabled(SMALL, q, failing)
            && Next(SMALL, q, failing) == q.(clock := 3)
            && q.jobs[0].state == State.CancelRequested && q.jobs[0].claimedBy == Some("worker")
  {
    hide ClaimStep, Chosen;
    var q1, q2 := Enqueued(), Next(SMALL, Enqueued(), CANCELLED[1]);
    assert Next(SMALL, Empty(), CANCELLED[0]) == q1;
    ClaimTakesTheJob();
    ClaimStepClaimsChosen(SMALL, q1, "worker", {}, 1, 0);
    assert q2.jobs[0] == ClaimedRow(q1.jobs[0], "worker", 1);
    var q3 := Next(SMALL, q2, CANCELLED[2]);
    assert CANCELLED[1..][1..] == [CANCELLED[2]] && CANCELLED[1..][0] == CANCELLED[1];
    assert ValidRun(SMALL, q2, [CANCELLED[2]]) && After(SMALL, q2, [CANCELLED[2]]) == q3;
    assert ValidRun(SMALL, q1, CANCELLED[1..]) && After(SMALL, q1, CANCELLED[1..]) == q3;
    assert q3.jobs[0].attempts == 1;
  }

  lemma AfterOne(c: Config, q: Tables, s: Step)
    requires Enabled(c, q, s)
    ensures ValidRun(c, q, [s]) && After(c, q, [s]) == Next(c, q, s)
  {
    hide Next, Enabled;
    assert [s][1..] == [];
    assert After(c, Next(c, q, s), []) == Next(c, q, s);
  }

  lemma LiveJob()
    ensures Enqueued().jobs[0].document == 0 && Live(Enqueued().jobs[0].state)
  {
  }

  /** A document enqueued twice has two live jobs. */
  lemma EnqueuedTwice()
    ensures var steps := [CANCELLED[0], Step(1, Enqueue(1, 0, Priority.Normal, CpuHeavy, 3, None))];
            && ValidRun(SMALL, Empty(), steps)
            && !OneLiveJobPerDocument(After(SMALL, Empty(), steps).jobs)
  {
    var again := Step(1, Enqueue(1, 0, Priority.Normal, CpuHeavy, 3, None));
    var steps := [CANCELLED[0], again];
    assert Next(SMALL, Empty(), CANCELLED[0]) == Enqueued() && steps[1..] == [again];
    hide OneLiveJobPerDocument, NewJob;
    assert Enqueued().jobs[0].document == 0 && Live(Enqueued().jobs[0].state) by { LiveJob(); }
    LiveOne(Enqueued().jobs, 0);
    AddedBeside(SMALL, Enqueued(), again);
    AfterOne(SMALL, Enqueued(), again);
  }
}
