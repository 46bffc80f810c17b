/** Runs of the consume service from two or from one new file, in most of which something goes wrong. */
module ConsumeExamples {
  import opened Common
  import opened Consume
  import opened ConsumeFacts
  import opened Consumers
  import opened ConsumeRuns

  const FIRST := Path(Inbox, Given(" a"))
  const SECOND := Path(Inbox, Given("a"))
  const SAME_STAMP := Stamp(3, 0)
  const ONE := File(1, "one", SAME_STAMP)
  const TWO := File(2, "two", SAME_STAMP)

  function Stripped(text: string): string {
    if text == "" then text
    else if text[0] == ' ' then Stripped(text[1..])
    else if text[|text| - 1] == ' ' then Stripped(text[..|text| - 1])
    else text
  }

  /** Blanks at the ends of a name are not safe. Slashes and names over 255 characters do not come up. */
  function SafeName(name: Name): Name {
    match name
    case Given(text) => Given(if Stripped(text) == "" then "document" else Stripped(text))
    case _ => name
  }

  lemma BothAreSafelyTheSame()
    ensures SafeName(FIRST.name) == SafeName(SECOND.name) == SECOND.name
  {
    assert " a"[1..] == "a";
  }

  const SETTINGS := Settings(SafeName, _ => false, _ => true, 5)

  /** The storage is down; `full` says whether failed files cannot be retained either. */
  function Trouble(full: bool): Environment {
    Environment((n, d) => full && d == Retained, _ => true, _ => None)
  }

  function Calm(): Environment { Environment((n, d) => false, _ => false, _ => None) }

  function NewFiles(files: map<Path, File>): World { World(files, [], [], []) }

  const BOTH := NewFiles(map[FIRST := ONE, SECOND := TWO])

  lemma NewFilesInv(files: map<Path, File>)
    requires OnePlace(files) && forall p :: p in files ==> p.directory == Inbox
    ensures Inv(NewFiles(files))
  {
  }

  /** Two new files, of which the first is observed and the second is taken for it. */
  method ObserveBoth(full: bool) returns (consumer: Consumer)
    ensures fresh(consumer) && consumer.Ready() && consumer.settings == SETTINGS && consumer.env == Trouble(full)
    ensures consumer.history[0] == BOTH && consumer.files == BOTH.files && |consumer.records| == 1
    ensures JustObserved(consumer.records[0], SECOND.name, SAME_STAMP, 0)
  {
    hide Inv, Conserved, Chain, AllInv, OtherClaimsSame, InboxKept, RetainedOk;
    NewFilesInv(BOTH.files);
    BothAreSafelyTheSame();
    consumer := new Consumer(SETTINGS, Trouble(full), BOTH);
    consumer.ReadyRetained();
    var watch, report, clobbered := consumer.ScanPath(FIRST, 0, map[], NOTHING, {});
    ghost var none: set<RecordId> := {};
    assert none + {0} == {0};
    watch, report, clobbered := consumer.ScanPath(SECOND, 0, watch, NOTHING, {0});
  }

  /** They are seen again, unchanged, when they are stable: the first is claimed. */
  method ClaimFirst(full: bool) returns (consumer: Consumer, watch: map<Name, RecordId>)
    ensures fresh(consumer) && consumer.Ready() && consumer.settings == SETTINGS && consumer.env == Trouble(full)
    ensures consumer.history[0] == BOTH && |consumer.records| == 1
    ensures consumer.records[0].name == SECOND.name && watch == map[SECOND.name := 0]
    ensures consumer.records[0].stamp == SAME_STAMP && consumer.records[0].stableSince == 0
    ensures RetainedOk(consumer.files, consumer.records, {0})
    ensures SECOND in consumer.files && consumer.files[SECOND] == TWO
    ensures full ==> consumer.files == map[ClaimPath(0) := ONE, SECOND := TWO]
    ensures !full ==> consumer.records[0].status == Failed && HasRetained(consumer.files, consumer.records[0], ONE)
                      && ClaimPath(0) !in consumer.files
  {
    hide Inv, Conserved, Chain, AllInv, OtherClaimsSame, HasRetained, NewKey, FailedKey;
    hide PutAway, Ended, ProcessedKept, RetainedKept, Filed, Counted, OwnFile;
    consumer := ObserveBoth(full);
    var report, stopped, clobbered;
    report, stopped := consumer.RecoverClaims(NOTHING);
    watch := consumer.ObservedByName();
    consumer.ReadyRetained();
    RetainedObserved(consumer.files, consumer.records, {0});
    watch, report, clobbered := consumer.ScanPath(FIRST, 10, watch, NOTHING, {0});
  }

  /** With the retained directory full, the first claim stays where it is, and the second file of the
      same pass is moved onto it: the first is nowhere any more. */
  method PassOverwritesAClaim() returns (history: seq<World>)
    ensures history != [] && AllInv(history) && history[0] == BOTH && Colliding(BOTH.files, SETTINGS)
    ensures Held(BOTH.files, ONE) && !Held(history[|history| - 1].files, ONE)
  {
    hide Conserved, Chain, OtherClaimsSame, InboxKept, HasRetained, RetainedOk, Inv, Scanned, Colliding, Held;
    var consumer, watch := ClaimFirst(true);
    var report, clobbered;
    watch, report, clobbered := consumer.ScanPath(SECOND, 10, watch, NOTHING, {0});
    OnlyTwo(consumer.files);
    return consumer.history;
  }

  lemma OnlyTwo(files: map<Path, File>)
    requires files == Moved(map[ClaimPath(0) := ONE, SECOND := TWO], SECOND, ClaimPath(0))
    ensures Colliding(BOTH.files, SETTINGS) && Held(BOTH.files, ONE) && !Held(files, ONE)
  {
    assert files == map[ClaimPath(0) := TWO];
    assert Clash(BOTH.files, SETTINGS, FIRST, SECOND) && BOTH.files[FIRST] == ONE;
  }

  // ---------- a claim that stays ----------

  method Start(env: Environment, w: World, retry: bool) returns (consumer: Consumer)
    requires Inv(w)
    ensures fresh(consumer) && consumer.Ready() && consumer.settings == SETTINGS && consumer.env == env
    ensures consumer.Current() == if retry then w.(records := RetryRequested(w.records)) else w
    ensures consumer.history == [consumer.Current()]
  {
    hide Inv;
    if retry { RetryKeepsInv(w); }
    consumer := new Consumer(SETTINGS, env, if retry then w.(records := RetryRequested(w.records)) else w);
  }

  /** The first file is claimed, fails and is retained; then the process stops. A retry is asked for, and
      the process stops after the first commit of it. In the next pass the second file takes the place of the
      interrupted claim, fails, and cannot be retained. */
  method TwoFilesForOneRecord() returns (w: World)
    ensures Inv(w) && Doubled(w, 0)
  {
    hide Inv, Conserved, Chain, OtherClaimsSame, RetainedOk;
    var consumer, _ := ClaimFirst(false);
    consumer := Start(Trouble(false), consumer.Current(), true);
    var record := consumer.records[0];
    record := record.(status := InProgress, attempts := record.attempts + 1, retry := false, error := None);
    consumer.ReadyRetained();
    RetainedSame(consumer.files, consumer.records, {}, 0, record);
    consumer.CommitRecord(0, record);
    consumer := Start(Trouble(true), consumer.Current(), false);
    var report, stopped := consumer.RecoverInterrupted(0, NOTHING);
    consumer := Start(Trouble(true), consumer.Current(), true);
    w := consumer.Current();
  }

  /** An undisturbed pass then takes the retained file, and the claim stays where it is. */
  method DoubledClaimStays() returns (w: World)
    ensures LeftOver(w.files, w.records, 0)
  {
    hide Inv, Conserved, Chain, Doubled, LeftOver;
    var doubled := TwoFilesForOneRecord();
    var consumer := Start(Calm(), doubled, false);
    var report, stopped, clobbered, glances := consumer.ProcessConsumeOnce(true, 20);
    assert Achieved(doubled, SETTINGS.accepts, consumer.files, consumer.records, 0);
    return consumer.Current();
  }

  // ---------- one new file ----------

  method ObserveOne() returns (w: World)
    ensures Inv(w) && w.files == map[FIRST := ONE] && |w.records| == 1
    ensures JustObserved(w.records[0], SECOND.name, SAME_STAMP, 0)
    ensures w.records[0].key == SourceKey(FIRST.name, SAME_STAMP, None)
  {
    hide Inv, Conserved, Chain, OtherClaimsSame, InboxKept, RetainedOk;
    NewFilesInv(map[FIRST := ONE]);
    BothAreSafelyTheSame();
    var consumer := Start(Calm(), NewFiles(map[FIRST := ONE]), false);
    consumer.ReadyRetained();
    var watch, report, clobbered := consumer.ScanPath(FIRST, 0, map[], NOTHING, {});
    return consumer.Current();
  }

  /** A file that a user goes on writing is not claimed when its wait is over: it waits again. */
  method WrittenFileWaitsAgain(content: Content, later: Stamp) returns (w: World)
    requires later != SAME_STAMP
    ensures |w.records| == 1 && w.records[0].status == Observed && w.records[0].stamp == later && w.records[0].stableSince == 10
    ensures FIRST in w.files && w.files[FIRST] == File(1, content, later)
  {
    hide Inv, Conserved, Chain, OtherClaimsSame, InboxKept, RetainedOk, NewKey, FailedKey, SafeName;
    BothAreSafelyTheSame();
    w := ObserveOne();
    var writes := map[FIRST.name := (content, later)];
    WritesKeepInv(w, writes);
    var consumer := Start(Calm(), w.(files := Rewritten(w.files, writes)), false);
    var report, stopped := consumer.RecoverClaims(NOTHING);
    var watch := consumer.ObservedByName();
    consumer.ReadyRetained();
    RetainedObserved(consumer.files, consumer.records, {0});
    var clobbered;
    watch, report, clobbered := consumer.ScanPath(FIRST, 10, watch, NOTHING, {0});
    w := consumer.Current();
  }

  /** Or the process stops after the record of its claim is committed. The next pass looks for the safe name,
      gives the claim up, and every later pass leaves the file where it is. */
  method InterruptedClaimIsGivenUp(later: Time) returns (w: World)
    ensures FIRST in w.files && w.files[FIRST] == ONE
    ensures |w.records| == 1 && w.records[0].status == Failed && w.records[0].error == Some(SourceMissing)
  {
    hide Inv, Conserved, Chain, OtherClaimsSame, InboxKept, RetainedOk;
    BothAreSafelyTheSame();
    w := ObserveOne();
    var consumer := Start(Calm(), w, false);
    consumer.ReadyRetained();
    RetainedSame(consumer.files, consumer.records, {}, 0, consumer.records[0].(status := InProgress));
    consumer.CommitRecord(0, consumer.records[0].(status := InProgress));
    consumer := Start(Calm(), consumer.Current(), false);
    var report, stopped := consumer.RecoverInterrupted(0, NOTHING);
    consumer.ReadyRetained();
    assert FailedKey(consumer.records, SourceKey(FIRST.name, SAME_STAMP, None));
    var watch, passed, clobbered := consumer.ScanPath(FIRST, later, map[], NOTHING, {});
    w := consumer.Current();
  }
}
