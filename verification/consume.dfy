/** The consume folder of apps/api/pdi/external/consume.py: its files, its records, and what
    one action of it may do to them. A record's index is its identifier. */
module Consume {
  import opened Common

  type RecordId = nat
  type Token = nat
  type BlobKey = nat
  type Content = string
  type Time = int

  /** Names as files have them; claim names and names with a time are made by the service alone. */
  datatype Name = Given(text: string) | ClaimOf(record: RecordId) | Timestamped(base: Name, at: nat)

  datatype Directory = Inbox | Processing | Processed | Retained

  datatype Path = Path(directory: Directory, name: Name)

  datatype Stamp = Stamp(size: nat, modified: int)

  /** The token tells apart files with equal content. */
  datatype File = File(token: Token, content: Content, stamp: Stamp)

  datatype Status = Observed | InProgress | Ingested | Duplicate | Failed

  datatype Problem = IngestionFailed | FailureRetention | SourceMissing | RetainedMissing | ClaimMove

  /** `owner` is the record that a disambiguated key names. */
  datatype SourceKey = SourceKey(name: Name, stamp: Stamp, owner: Option<RecordId>)

  datatype Record = Record(
    name: Name,
    key: SourceKey,
    stamp: Stamp,
    stableSince: Time,
    status: Status,
    retained: Option<Name>,
    retry: bool,
    attempts: nat,
    document: Option<nat>,
    error: Option<Problem>)

  datatype Document = Document(content: Content, blob: BlobKey)

  /** What is on disk and committed; equal contents stand for equal hashes. */
  datatype World = World(
    files: map<Path, File>,
    records: seq<Record>,
    documents: seq<Document>,
    blobs: seq<Option<Content>>)

  predicate Terminal(s: Status) { s in {Ingested, Duplicate} }

  function ClaimPath(id: RecordId): Path { Path(Processing, ClaimOf(id)) }

  predicate Committed(documents: seq<Document>, content: Content) {
    exists i :: 0 <= i < |documents| && documents[i].content == content
  }

  // ---------- what always holds ----------

  /** No file is in two places. */
  predicate OnePlace(files: map<Path, File>) {
    forall p, q :: p in files && q in files && files[p].token == files[q].token ==> p == q
  }

  predicate Stored(documents: seq<Document>, blobs: seq<Option<Content>>) {
    forall i :: 0 <= i < |documents| ==>
      documents[i].blob < |blobs| && blobs[documents[i].blob] == Some(documents[i].content)
  }

  predicate ContentsDistinct(documents: seq<Document>) {
    forall i, j :: 0 <= i < j < |documents| ==> documents[i].content != documents[j].content
  }

  /** Files in the processing directory are claims, of records no longer merely observed. */
  predicate ClaimsOk(files: map<Path, File>, records: seq<Record>) {
    forall p :: p in files && p.directory == Processing ==>
      p.name.ClaimOf? && p.name.record < |records| && records[p.name.record].status != Observed
  }

  predicate KeysOk(records: seq<Record>) {
    && (forall i, j :: 0 <= i < j < |records| ==> records[i].key != records[j].key)
    && (forall i :: 0 <= i < |records| && records[i].key.owner.Some? ==> records[i].key.owner.value == i)
  }

  /** Records that are not finished, and some others, have retained files of their own, if they name any. */
  predicate RetainedOk(files: map<Path, File>, records: seq<Record>, others: set<RecordId>) {
    && (forall i: nat :: i < |records| && HoldsFile(records, i, others) ==> Path(Retained, records[i].retained.value) in files)
    && (forall i: nat, j: nat :: i < j < |records| && HoldsFile(records, i, others) && HoldsFile(records, j, others) ==>
          records[i].retained != records[j].retained)
  }

  predicate HoldsFile(records: seq<Record>, i: RecordId, others: set<RecordId>)
    requires i < |records|
  {
    records[i].retained.Some? && (!Terminal(records[i].status) || i in others)
  }

  predicate Inv(w: World) {
    && RetainedOk(w.files, w.records, {})
    && OnePlace(w.files)
    && Stored(w.documents, w.blobs)
    && ContentsDistinct(w.documents)
    && ClaimsOk(w.files, w.records)
    && KeysOk(w.records)
  }

  // ---------- what no action may lose ----------

  ghost predicate Held(files: map<Path, File>, f: File) { exists p :: p in files && files[p] == f }

  ghost predicate FilesConserved(files: map<Path, File>, files': map<Path, File>) {
    forall f :: Held(files, f) ==> Held(files', f)
  }

  /** Every file is still somewhere, unchanged; documents and records stay. */
  ghost predicate Conserved(w: World, w': World) {
    FilesConserved(w.files, w'.files) && w.documents <= w'.documents && |w.records| <= |w'.records|
  }

  ghost predicate Chain(history: seq<World>, from: nat) {
    forall i :: from <= i < |history| - 1 ==> Conserved(history[i], history[i + 1])
  }

  /** `after` continues `before`, and conserves at every step. */
  ghost predicate Logged(before: seq<World>, after: seq<World>) {
    before != [] && before <= after && Chain(after, |before| - 1)
  }

  ghost predicate AllInv(history: seq<World>) { forall i :: 0 <= i < |history| ==> Inv(history[i]) }

  lemma ConservedTransitive(u: World, v: World, w: World)
    requires Conserved(u, v) && Conserved(v, w)
    ensures Conserved(u, w)
  {
    hide Held;
  }

  lemma LoggedSplits(h: seq<World>, h': seq<World>, h'': seq<World>)
    requires h != [] && h <= h' <= h''
    ensures Logged(h, h'') <==> Logged(h, h') && Logged(h', h'')
  {
  }

  /** Wherever a logged history is cut off, everything from its start is still there. */
  lemma {:induction false} LoggedConserves(before: seq<World>, after: seq<World>, i: nat)
    requires Logged(before, after) && |before| - 1 <= i < |after|
    ensures Conserved(before[|before| - 1], after[i])
    decreases i
  {
    hide Conserved;
    if i == |before| - 1 {
      ConservedSame(after[i]);
    } else {
      LoggedConserves(before, after, i - 1);
      ConservedTransitive(before[|before| - 1], after[i - 1], after[i]);
    }
  }

  lemma ConservedSame(w: World)
    ensures Conserved(w, w)
  {
  }

  // ---------- moving a file ----------

  function Moved(files: map<Path, File>, source: Path, destination: Path): map<Path, File>
    requires source in files
  {
    (files - {source})[destination := files[source]]
  }

  /** A move keeps every file exactly when nothing is in its way. */
  lemma MoveConservesIffFree(files: map<Path, File>, source: Path, destination: Path)
    requires OnePlace(files) && source in files && source != destination
    ensures OnePlace(Moved(files, source, destination))
    ensures FilesConserved(files, Moved(files, source, destination)) <==> destination !in files
  {
    var files' := Moved(files, source, destination);
    if destination in files {
      assert Held(files, files[destination]);
      forall p | p in files' ensures files'[p] != files[destination] {
        assert p == destination || (p in files && files'[p] == files[p]);
      }
      assert !Held(files', files[destination]);
    } else {
      forall f | Held(files, f) ensures Held(files', f) {
        var p :| p in files && files[p] == f;
        var p' := if p == source then destination else p;
        assert p' in files' && files'[p'] == f;
      }
    }
  }

  /** Users add files to the inbox, under names that are free there. */
  predicate Grown(files: map<Path, File>, files': map<Path, File>) {
    && (forall p :: p in files ==> p in files' && files'[p] == files[p])
    && (forall p :: p in files' ==> p in files || p.directory == Inbox)
  }

  lemma GrownConserves(files: map<Path, File>, files': map<Path, File>)
    requires Grown(files, files')
    ensures FilesConserved(files, files')
  {
  }

  /** Only the file at `path` may be elsewhere, and no claim is new. */
  predicate OnlyMoved(files: map<Path, File>, files': map<Path, File>, path: Path) {
    && (forall p :: p in files && p != path ==> p in files' && files'[p] == files[p])
    && (forall p :: p in files' && p.directory == Processing ==> p in files && files'[p] == files[p])
  }

  /** Nothing changed among the claims but at `path`. */
  ghost predicate OtherClaimsSame(files: map<Path, File>, files': map<Path, File>, path: Path) {
    forall p: Path :: p.directory == Processing && p != path ==>
      (p in files' <==> p in files) && (p in files ==> files'[p] == files[p])
  }

  // ---------- names with a time ----------

  ghost function LatestStamp(paths: set<Path>): (bound: nat)
    ensures forall p :: p in paths && p.name.Timestamped? ==> p.name.at < bound
  {
    if paths == {} then 0 else
    var x :| x in paths;
    var rest := LatestStamp(paths - {x});
    assert forall p :: p in paths ==> p == x || p in paths - {x};
    if x.name.Timestamped? && x.name.at >= rest then x.name.at + 1 else rest
  }

  lemma FreeTimestampExists(files: map<Path, File>, directory: Directory, name: Name)
    ensures exists at: nat :: Path(directory, Timestamped(name, at)) !in files
  {
    var at := LatestStamp(files.Keys);
    assert Path(directory, Timestamped(name, at)) !in files.Keys;
  }

  // ---------- a pass and its surroundings ----------

  /** What happens around the `n`-th action: a move into a directory may fail, the storage or the
      database may, and a user may add a file to the inbox. */
  datatype Environment = Environment(
    moveFails: (nat, Directory) -> bool,
    breaks: nat -> bool,
    arrives: nat -> Option<(Name, File)>)

  ghost predicate NoArrivals(env: Environment) { forall n: nat :: env.arrives(n) == None }

  ghost predicate Quiet(env: Environment) {
    NoArrivals(env) && (forall n: nat, d :: !env.moveFails(n, d)) && forall n: nat :: !env.breaks(n)
  }

  datatype Settings = Settings(
    safe: Name -> Name,
    ignored: Name -> bool,
    accepts: Content -> bool,
    stability: int)

  datatype Report = Report(observed: nat, ingested: nat, duplicates: nat, failed: nat, retried: nat)

  const NOTHING := Report(0, 0, 0, 0, 0)

  /** Two inbox files that a scan takes for one: their names are made safe in the same way, and they
      have the same size and time. */
  predicate Colliding(files: map<Path, File>, settings: Settings) {
    exists p, q :: p in files && q in files && p != q && Clash(files, settings, p, q)
  }

  predicate Clash(files: map<Path, File>, settings: Settings, p: Path, q: Path)
    requires p in files && q in files
  {
    && p.directory == q.directory == Inbox
    && !settings.ignored(p.name) && !settings.ignored(q.name)
    && settings.safe(p.name) == settings.safe(q.name)
    && files[p].stamp == files[q].stamp
  }

  /** Where every name is made safe in its own way, no files collide. */
  lemma InjectiveNamesDoNotCollide(files: map<Path, File>, settings: Settings)
    requires forall a, b :: settings.safe(a) == settings.safe(b) ==> a == b
    ensures !Colliding(files, settings)
  {
    forall p, q | p in files && q in files && p != q ensures !Clash(files, settings, p, q) {
      if p.directory == q.directory { assert p.name != q.name; }
    }
  }

  /** A failed record to be retried, with both its retained file and its claim: only the first is taken. */
  predicate Doubled(w: World, id: RecordId) {
    && id < |w.records|
    && w.records[id].status == Failed && w.records[id].retry && w.records[id].retained.Some?
    && Path(Retained, w.records[id].retained.value) in w.files
    && ClaimPath(id) in w.files
  }

  /** A claim that a finished record left in the processing directory. */
  predicate LeftOver(files: map<Path, File>, records: seq<Record>, id: RecordId) {
    id < |records| && Terminal(records[id].status) && ClaimPath(id) in files
  }

  /** What an undisturbed pass achieves, from `w`: nothing is in progress, and exactly the claims of
      doubled records with an acceptable retained file are left over. */
  predicate Achieved(w: World, accepts: Content -> bool, files: map<Path, File>, records: seq<Record>, id: RecordId) {
    && (id < |records| ==> records[id].status != InProgress)
    && (LeftOver(files, records, id) <==>
          Doubled(w, id) && accepts(w.files[Path(Retained, w.records[id].retained.value)].content))
  }
}
