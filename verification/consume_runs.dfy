/** Passes of the consume service that crash anywhere, one after the other, while users write their
    files, and the undisturbed pass that puts everything right. */
module ConsumeRuns {
  import opened Common
  import opened Consume
  import opened ConsumeFacts
  import opened Consumers

  /** A pass ends `crash` actions after it started, or by itself; before it, users may have written to
      files of the inbox, and an administrator may have asked for all failed records to be retried. */
  datatype Pass = Pass(env: Environment, now: Time, crash: nat, writes: map<Name, (Content, Stamp)>, retryFailed: bool)

  // ---------- between passes ----------

  function Rewritten(files: map<Path, File>, writes: map<Name, (Content, Stamp)>): map<Path, File> {
    map p | p in files ::
      if p.directory == Inbox && p.name in writes then files[p].(content := writes[p.name].0, stamp := writes[p.name].1)
      else files[p]
  }

  /** Nothing changed but what is in the files of the inbox. */
  ghost predicate Written(w: World, w': World) {
    && w' == w.(files := w'.files) && w'.files.Keys == w.files.Keys
    && forall p :: p in w.files ==>
         if p.directory == Inbox then w'.files[p].token == w.files[p].token else w'.files[p] == w.files[p]
  }

  lemma WritesKeepInv(w: World, writes: map<Name, (Content, Stamp)>)
    requires Inv(w)
    ensures var w' := w.(files := Rewritten(w.files, writes)); Inv(w') && Written(w, w')
  {
    var w' := w.(files := Rewritten(w.files, writes));
    assert forall p :: p in w'.files ==> p in w.files && w'.files[p].token == w.files[p].token;
  }

  function RetryRequested(records: seq<Record>): seq<Record> {
    seq(|records|, i requires 0 <= i < |records| => if records[i].status == Failed then records[i].(retry := true) else records[i])
  }

  lemma RetryKeepsInv(w: World)
    requires Inv(w)
    ensures var w' := w.(records := RetryRequested(w.records)); Inv(w') && Conserved(w, w')
  {
    var records := RetryRequested(w.records);
    assert forall i: nat :: i < |records| && HoldsFile(records, i, {}) ==> HoldsFile(w.records, i, {});
  }

  // ---------- traces ----------

  ghost predicate Kept(w: World, w': World) { Conserved(w, w') || Written(w, w') }

  /** Every step keeps all files, documents and records, but for what users write in the inbox. */
  ghost predicate KeepsAll(trace: seq<World>) {
    forall i :: 0 <= i < |trace| - 1 ==> Kept(trace[i], trace[i + 1])
  }

  /** Nothing is lost up to any point before which no files collided. */
  ghost predicate LossNeedsCollision(trace: seq<World>, settings: Settings) {
    forall cut :: 0 <= cut <= |trace| && NoneCollide(trace[..cut], settings) ==> KeepsAll(trace[..cut])
  }

  ghost predicate AllQuiet(passes: seq<Pass>) {
    forall i :: 0 <= i < |passes| ==> Quiet(passes[i].env)
  }

  lemma ChainKeepsAll(history: seq<World>)
    requires Chain(history, 0)
    ensures KeepsAll(history)
  {
    hide Conserved, Written;
  }

  lemma StepExtends(trace: seq<World>, w: World, settings: Settings)
    requires trace != [] && Kept(trace[|trace| - 1], w) && LossNeedsCollision(trace, settings)
    requires AllInv(trace) && Inv(w)
    ensures AllInv(trace + [w]) && LossNeedsCollision(trace + [w], settings)
    ensures KeepsAll(trace) ==> KeepsAll(trace + [w])
  {
    hide Kept, Colliding, Inv;
    forall cut | 0 <= cut <= |trace| + 1 && NoneCollide((trace + [w])[..cut], settings)
      ensures KeepsAll((trace + [w])[..cut])
    {
      if cut <= |trace| {
        assert (trace + [w])[..cut] == trace[..cut];
      } else {
        assert (trace + [w])[..cut][..|trace|] == trace[..|trace|] == trace;
        assert NoneCollide(trace[..|trace|], settings);
      }
    }
  }

  /** A pass continues the trace up to where it crashed. */
  lemma PassExtends(trace: seq<World>, history: seq<World>, seen: nat, settings: Settings)
    requires trace != [] && seen < |history| && history[0] == trace[|trace| - 1]
    requires AllInv(trace) && AllInv(history) && LossNeedsCollision(trace, settings)
    requires forall cut :: 1 <= cut <= |history| && NoneCollide(history[..cut], settings) ==> KeepsAll(history[..cut])
    ensures var longer := trace + history[1..seen + 1]; AllInv(longer) && LossNeedsCollision(longer, settings)
  {
    hide Kept, Colliding, Inv;
    var longer := trace + history[1..seen + 1];
    forall cut | 0 <= cut <= |longer| && NoneCollide(longer[..cut], settings) ensures KeepsAll(longer[..cut]) {
      if cut <= |trace| {
        assert longer[..cut] == trace[..cut];
      } else {
        var rest := history[..cut - |trace| + 1];
        assert longer[..cut][..|trace|] == trace[..|trace|] == trace;
        assert NoneCollide(trace[..|trace|], settings);
        assert forall i :: 0 <= i < |rest| ==> rest[i] == longer[..cut][|trace| - 1 + i];
        assert NoneCollide(rest, settings);
        TracesJoin(trace, history, cut - |trace|);
        assert longer[..cut] == trace + history[1..cut - |trace| + 1];
      }
    }
  }

  lemma TracesJoin(trace: seq<World>, history: seq<World>, seen: nat)
    requires trace != [] && KeepsAll(trace) && seen < |history|
    requires history[0] == trace[|trace| - 1] && KeepsAll(history[..seen + 1])
    ensures KeepsAll(trace + history[1..seen + 1])
  {
    hide Kept;
    var longer := trace + history[1..seen + 1];
    forall i | 0 <= i < |longer| - 1 ensures Kept(longer[i], longer[i + 1]) {
      if i >= |trace| - 1 {
        var h, j := history[..seen + 1], i - (|trace| - 1);
        assert longer[i] == h[j] && longer[i + 1] == h[j + 1];
      }
    }
  }

  // ---------- runs ----------

  /** The trace of all states through any number of passes. Whatever crashes, fails, arrives or is written,
      nothing is lost before the names and stamps of two inbox files collide, or if no pass is disturbed. */
  method RunPasses(settings: Settings, start: World, passes: seq<Pass>) returns (trace: seq<World>)
    requires Inv(start)
    ensures trace != [] && trace[0] == start && AllInv(trace)
    ensures LossNeedsCollision(trace, settings)
    ensures AllQuiet(passes) ==> KeepsAll(trace)
  {
    hide Inv, Conserved, Written, Quiet, Colliding, LossNeedsCollision, NoneCollide, KeepsAll;
    trace := [start];
    AloneLosesNothing(start, settings);
    for k := 0 to |passes|
      invariant trace != [] && trace[0] == start && AllInv(trace)
      invariant LossNeedsCollision(trace, settings)
      invariant AllQuiet(passes) ==> KeepsAll(trace)
    {
      var w := trace[|trace| - 1];
      var w' := w.(files := Rewritten(w.files, passes[k].writes));
      WritesKeepInv(w, passes[k].writes);
      StepExtends(trace, w', settings);
      trace, w := trace + [w'], w';
      if passes[k].retryFailed {
        RetryKeepsInv(w);
        w' := w.(records := RetryRequested(w.records));
        StepExtends(trace, w', settings);
        trace, w := trace + [w'], w';
      }
      var consumer := new Consumer(settings, passes[k].env, w);
      var report, stopped, clobbered, glances := consumer.ProcessConsumeOnce(true, passes[k].now);
      var seen := if passes[k].crash < |consumer.history| then passes[k].crash else |consumer.history| - 1;
      LoggedChains(w, consumer.history);
      PassExtends(trace, consumer.history, seen, settings);
      if AllQuiet(passes) {
        assert !clobbered;
        LoggedKeeps(w, consumer.history, seen + 1);
        TracesJoin(trace, consumer.history, seen);
      }
      trace := trace + consumer.history[1..seen + 1];
    }
  }

  lemma AloneLosesNothing(start: World, settings: Settings)
    ensures LossNeedsCollision([start], settings) && KeepsAll([start])
  {
  }

  lemma LoggedChains(w: World, history: seq<World>)
    requires [w] <= history
    ensures forall cut :: 1 <= cut <= |history| && Logged([w], history[..cut]) ==> KeepsAll(history[..cut])
  {
    forall cut | 1 <= cut <= |history| && Logged([w], history[..cut]) ensures KeepsAll(history[..cut]) {
      ChainKeepsAll(history[..cut]);
    }
  }

  lemma LoggedKeeps(w: World, history: seq<World>, n: nat)
    requires Logged([w], history) && n <= |history|
    ensures KeepsAll(history[..n])
  {
    hide Conserved, Written;
  }

  // ---------- where a file is ----------

  /** A user writes the file while it is in the inbox. */
  ghost predicate WrittenByUser(w: World, w': World, token: Token) {
    exists p :: p in w.files && p in w'.files && p.directory == Inbox
                && w.files[p].token == token == w'.files[p].token && w'.files[p] != w.files[p]
  }

  lemma OneStep(w: World, w': World, f: File)
    requires Kept(w, w') && Held(w.files, f)
    ensures Held(w'.files, f) || (WrittenByUser(w, w', f.token) && exists f' :: Held(w'.files, f') && f'.token == f.token)
  {
    if !Conserved(w, w') {
      var p :| p in w.files && w.files[p] == f;
      assert w'.files[p].token == f.token && Held(w'.files, w'.files[p]);
    }
  }

  lemma {:induction false} FileStays(trace: seq<World>, i: nat, j: nat, f: File) returns (f': File)
    requires i <= j < |trace| && KeepsAll(trace[..j + 1]) && Held(trace[i].files, f)
    ensures Held(trace[j].files, f') && f'.token == f.token
    ensures f' == f || exists k :: i <= k < j && WrittenByUser(trace[k], trace[k + 1], f.token)
    decreases j
  {
    hide Kept, WrittenByUser, Held;
    f' := f;
    if i < j {
      assert trace[..j + 1][..j] == trace[..j];
      KeepsFewer(trace, j);
      var g := FileStays(trace, i, j - 1, f);
      assert trace[..j + 1][j - 1] == trace[j - 1] && trace[..j + 1][j] == trace[j];
      assert Kept(trace[..j + 1][j - 1], trace[..j + 1][j - 1 + 1]);
      OneStep(trace[j - 1], trace[j], g);
      if Held(trace[j].files, g) {
        f' := g;
      } else {
        f' :| Held(trace[j].files, f') && f'.token == g.token;
        assert WrittenByUser(trace[j - 1], trace[j - 1 + 1], f.token);
      }
    }
  }

  lemma KeepsFewer(trace: seq<World>, j: nat)
    requires 0 < j < |trace| && KeepsAll(trace[..j + 1])
    ensures KeepsAll(trace[..j])
  {
    hide Kept;
    var shorter, longer := trace[..j], trace[..j + 1];
    forall i | 0 <= i < |shorter| - 1 ensures Kept(shorter[i], shorter[i + 1]) {
      assert shorter[i] == longer[i] && shorter[i + 1] == longer[i + 1];
    }
  }

  lemma {:induction false} DocumentsStay(trace: seq<World>, i: nat, j: nat)
    requires i <= j < |trace| && KeepsAll(trace[..j + 1])
    ensures trace[i].documents <= trace[j].documents
    decreases j
  {
    hide Held, FilesConserved;
    if i < j {
      KeepsFewer(trace, j);
      DocumentsStay(trace, i, j - 1);
      assert Kept(trace[..j + 1][j - 1], trace[..j + 1][j - 1 + 1]);
    }
  }

  /** Main result: wherever the passes stop, each file that was ever there is in exactly one place, unchanged
      unless a user wrote it in the inbox since, and committed documents are still there with their blobs,
      unless the names and stamps of two inbox files collided before. */
  lemma EachFileInOnePlace(trace: seq<World>, i: nat, j: nat, f: File)
    requires i <= j < |trace| && AllInv(trace) && KeepsAll(trace[..j + 1]) && Held(trace[i].files, f)
    ensures exists p :: p in trace[j].files && trace[j].files[p].token == f.token
                        && (trace[j].files[p] == f || exists k :: i <= k < j && WrittenByUser(trace[k], trace[k + 1], f.token))
                        && forall q :: q in trace[j].files && trace[j].files[q].token == f.token ==> q == p
    ensures trace[i].documents <= trace[j].documents
    ensures forall d :: d in trace[i].documents ==> d.blob < |trace[j].blobs| && trace[j].blobs[d.blob] == Some(d.content)
  {
    hide KeepsAll, WrittenByUser;
    var f' := FileStays(trace, i, j, f);
    DocumentsStay(trace, i, j);
    assert Inv(trace[j]);
    var p :| p in trace[j].files && trace[j].files[p] == f';
    assert OnePlace(trace[j].files);
  }

  /** Main result: after any crashes, at `trace[crash]`, one undisturbed pass loses nothing, leaves
      nothing in progress, and leaves claims of finished records exactly where a retry found two files
      for one record. */
  method CrashThenRecover(settings: Settings, start: World, passes: seq<Pass>, env: Environment, now: Time)
    returns (trace: seq<World>, crash: nat, report: Report)
    requires Inv(start) && Quiet(env)
    ensures crash < |trace| && trace[0] == start && AllInv(trace)
    ensures NoneCollide(trace[..crash + 1], settings) || AllQuiet(passes) ==> KeepsAll(trace)
    ensures var crashed, w := trace[crash], trace[|trace| - 1];
            && Conserved(crashed, w)
            && (forall id: nat :: Achieved(crashed, settings.accepts, w.files, w.records, id))
            && (forall id: nat :: PutAway(crashed, settings.accepts, w, id))
            && report.ingested == |w.documents| - |crashed.documents|
  {
    hide Conserved, Written, Quiet, Achieved, PutAway, AllFiled, GlancesAt, InboxOf, AnyOverwrites, NoneCollide, Colliding;
    hide Inv, AllInv, KeepsAll, LossNeedsCollision, AllQuiet, Chain;
    trace := RunPasses(settings, start, passes);
    crash := |trace| - 1;
    assert trace[..crash + 1] == trace;
    LastInv(trace, settings);
    var crashed := trace[crash];
    var consumer := new Consumer(settings, env, crashed);
    ghost var h := consumer.history;
    var passed, stopped, clobbered, glances := consumer.ProcessConsumeOnce(true, now);
    report := passed;
    LoggedConserves(h, consumer.history, |consumer.history| - 1);
    ghost var before, n := trace, |consumer.history|;
    assert consumer.history[..n] == consumer.history;
    trace := trace + consumer.history[1..];
    LongerTrace(before, consumer.history, settings);
    LoggedKeeps(crashed, consumer.history, n);
    if NoneCollide(before, settings) || AllQuiet(passes) {
      TracesJoin(before, consumer.history, n - 1);
    }
  }

  lemma LastInv(trace: seq<World>, settings: Settings)
    requires trace != [] && AllInv(trace)
    ensures Inv(trace[|trace| - 1])
    ensures LossNeedsCollision(trace, settings) && NoneCollide(trace, settings) ==> KeepsAll(trace)
  {
    assert trace[..|trace|] == trace;
  }

  lemma LongerTrace(trace: seq<World>, history: seq<World>, settings: Settings)
    requires trace != [] && history != [] && history[0] == trace[|trace| - 1] && AllInv(trace) && AllInv(history)
    ensures var longer := trace + history[1..];
            && longer[..|trace|] == trace && longer[|longer| - 1] == history[|history| - 1] && AllInv(longer)
  {
    hide Inv;
  }
}
