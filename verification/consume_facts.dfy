/** What single actions of the consume service leave as it was. */
module ConsumeFacts {
  import opened Common
  import opened Consume

  function InboxOf(files: map<Path, File>): set<Path> {
    set p | p in files && p.directory == Inbox
  }

  /** Claims succeed, and every ingestion fails. */
  ghost predicate Faulty(env: Environment) {
    NoArrivals(env) && forall n: nat :: env.breaks(n) && !env.moveFails(n, Processing)
  }

  ghost predicate Retains(env: Environment) { forall n: nat :: !env.moveFails(n, Retained) }

  ghost predicate RetainsNothing(env: Environment) { forall n: nat :: env.moveFails(n, Retained) }

  // ---------- where files end ----------

  ghost predicate InDirectory(files: map<Path, File>, directory: Directory, file: File) {
    exists p :: p in files && p.directory == directory && files[p] == file
  }

  predicate HasDocument(record: Record, documents: seq<Document>, content: Content) {
    && record.document.Some? && record.document.value < |documents|
    && documents[record.document.value].content == content
  }

  /** An ingestion is counted once, by its outcome, and a successful one of a retry also as retried. */
  function Counted(report: Report, status: Status, again: bool): Report {
    match status
    case Ingested => report.(ingested := report.ingested + 1, retried := report.retried + if again then 1 else 0)
    case Duplicate => report.(duplicates := report.duplicates + 1, retried := report.retried + if again then 1 else 0)
    case _ => report.(failed := report.failed + 1)
  }

  /** What an ingestion leaves behind: the file is archived and is the content of the record's document, or
      it is kept among the failed files under the name in the record, unless that failed too. */
  ghost predicate Ended(w: World, id: RecordId, file: File) {
    && id < |w.records| && !w.records[id].retry
    && match w.records[id].status
       case Observed => false
       case InProgress => false
       case Failed =>
         && w.records[id].error in {Some(IngestionFailed), Some(FailureRetention)}
         && (w.records[id].error == Some(IngestionFailed) ==> HasRetained(w.files, w.records[id], file))
       case _ => HasDocument(w.records[id], w.documents, file.content) && InDirectory(w.files, Processed, file)
  }

  /** The file that is a record's own when a pass starts: its retained file if it is to be retried, and
      otherwise its claim. */
  function OwnFile(w: World, id: RecordId): Option<Path>
    requires id < |w.records|
  {
    var record := w.records[id];
    var again := record.status == Failed && record.retry;
    if again && record.retained.Some? && Path(Retained, record.retained.value) in w.files then
      Some(Path(Retained, record.retained.value))
    else if (again || record.status in {InProgress, Ingested, Duplicate}) && ClaimPath(id) in w.files then Some(ClaimPath(id))
    else None
  }

  /** What an undisturbed pass from `w` to `w'` does with a record's own file: it is archived if the record
      was finished or the content is acceptable, and is then that of the record's document; otherwise it is
      kept among the failed files, under the name in the record. */
  ghost predicate PutAway(w: World, accepts: Content -> bool, w': World, id: RecordId) {
    id < |w.records| && OwnFile(w, id).Some? ==>
      var file := w.files[OwnFile(w, id).value];
      && id < |w'.records|
      && if Terminal(w.records[id].status) then w'.records[id] == w.records[id] && InDirectory(w'.files, Processed, file)
         else if accepts(file.content) then
           && Terminal(w'.records[id].status) && HasDocument(w'.records[id], w'.documents, file.content)
           && InDirectory(w'.files, Processed, file)
         else w'.records[id].status == Failed && HasRetained(w'.files, w'.records[id], file)
  }

  /** Archived files are where they were. */
  predicate ProcessedKept(f: map<Path, File>, f': map<Path, File>) {
    forall p :: p in f && p.directory == Processed ==> p in f' && f'[p] == f[p]
  }

  lemma ProcessedSame(f: map<Path, File>)
    ensures ProcessedKept(f, f)
  {
  }

  lemma GrownKeepsStores(f: map<Path, File>, f': map<Path, File>)
    requires Grown(f, f')
    ensures ProcessedKept(f, f') && RetainedKept(f, f', None)
  {
  }

  lemma OnlyMovedStores(f: map<Path, File>, f': map<Path, File>, path: Path)
    requires OnlyMoved(f, f', path) && path.directory != Processed
    ensures ProcessedKept(f, f') && (path.directory != Retained ==> RetainedKept(f, f', None))
  {
  }

  lemma TakenInStores(f: map<Path, File>, f': map<Path, File>, inbox: Path, id: RecordId)
    requires inbox in f && inbox.directory == Inbox && Grown(Moved(f, inbox, ClaimPath(id)), f')
    ensures ProcessedKept(f, f') && RetainedKept(f, f', None)
  {
  }

  lemma StoresTransitive(f: map<Path, File>, f': map<Path, File>, f'': map<Path, File>)
    requires ProcessedKept(f, f') && ProcessedKept(f', f'')
    ensures ProcessedKept(f, f'')
    ensures RetainedKept(f, f', None) && RetainedKept(f', f'', None) ==> RetainedKept(f, f'', None)
  {
  }

  lemma ArchivedStays(f: map<Path, File>, f': map<Path, File>, file: File)
    requires ProcessedKept(f, f') && InDirectory(f, Processed, file)
    ensures InDirectory(f', Processed, file)
  {
  }

  lemma RetainedStays(f: map<Path, File>, f': map<Path, File>, file: File)
    requires RetainedKept(f, f', None) && InDirectory(f, Retained, file)
    ensures InDirectory(f', Retained, file)
  {
  }

  /** A record not yet recovered is recovered as it would have been at the start. */
  lemma RecoveredPutAway(w: World, before: World, accepts: Content -> bool, after: World, id: RecordId)
    requires id < |w.records| && Untouched(w, before.files, before.records, id) && PutAway(before, accepts, after, id)
    ensures PutAway(w, accepts, after, id)
  {
  }

  /** Another record's recovery leaves a file where it was put. */
  lemma StaysPutAway(w: World, before: World, accepts: Content -> bool, after: World, id: RecordId, other: RecordId)
    requires id < |before.records| && other < |before.records| && other != id
    requires PutAway(w, accepts, before, other) && before.documents <= after.documents
    requires OneRecordChanged(before.records, after.records, id) && ProcessedKept(before.files, after.files)
    requires RetainedOk(before.files, before.records, {})
    requires RetainedKept(before.files, after.files, before.records[id].retained)
    requires !(before.records[id].status == Failed && before.records[id].retry) ==>
               forall name :: RetainedKept(before.files, after.files, name)
    ensures PutAway(w, accepts, after, other)
  {
    if other < |w.records| && OwnFile(w, other).Some? {
      var file := w.files[OwnFile(w, other).value];
      if InDirectory(before.files, Processed, file) {
        ArchivedStays(before.files, after.files, file);
      }
      if !Terminal(w.records[other].status) && !accepts(file.content) {
        assert HoldsFile(before.records, other, {});
        if before.records[id].status == Failed && before.records[id].retry {
          if before.records[id].retained.Some? { assert HoldsFile(before.records, id, {}); }
          assert before.records[id].retained != before.records[other].retained;
        } else {
          assert RetainedKept(before.files, after.files, None);
        }
      }
    }
  }

  /** Where nothing archived or retained moves, and a record stays, its file stays. */
  lemma PutAwayStays(w: World, accepts: Content -> bool, before: World, after: World, id: RecordId)
    requires PutAway(w, accepts, before, id) && before.documents <= after.documents
    requires ProcessedKept(before.files, after.files) && RetainedKept(before.files, after.files, None)
    requires id < |before.records| && before.records[id].status != Observed ==>
               id < |after.records| && after.records[id] == before.records[id]
    requires id < |w.records| ==> id < |before.records|
    requires id < |w.records| && before.records[id].status == Observed ==> w.records[id].status == Observed
    ensures PutAway(w, accepts, after, id)
  {
    if id < |w.records| && OwnFile(w, id).Some? {
      var file := w.files[OwnFile(w, id).value];
      if InDirectory(before.files, Processed, file) {
        ArchivedStays(before.files, after.files, file);
      }
    }
  }

  // ---------- retained files ----------

  /** A file that is taken from the retained ones is the record's own. */
  predicate OwnPath(record: Record, path: Path) {
    path.directory == Retained ==> record.retained == Some(path.name)
  }

  predicate HasRetained(files: map<Path, File>, record: Record, file: File) {
    && record.retained.Some?
    && Path(Retained, record.retained.value) in files && files[Path(Retained, record.retained.value)] == file
  }

  lemma RetainedGrown(f: map<Path, File>, f': map<Path, File>, rs: seq<Record>, others: set<RecordId>)
    requires Grown(f, f') && RetainedOk(f, rs, others)
    ensures RetainedOk(f', rs, others)
  {
  }

  lemma RetainedFewer(f: map<Path, File>, rs: seq<Record>, others: set<RecordId>, fewer: set<RecordId>)
    requires RetainedOk(f, rs, others) && fewer <= others
    ensures RetainedOk(f, rs, fewer)
  {
  }

  lemma RetainedMore(f: map<Path, File>, rs: seq<Record>, others: set<RecordId>, id: RecordId)
    requires RetainedOk(f, rs, others) && (id in others || id >= |rs|)
    ensures RetainedOk(f, rs, others + {id})
  {
  }

  lemma RetainedUnfinished(f: map<Path, File>, rs: seq<Record>, id: RecordId)
    requires RetainedOk(f, rs, {}) && id < |rs| && !Terminal(rs[id].status)
    ensures RetainedOk(f, rs, {id})
  {
  }

  lemma RetainedObserved(f: map<Path, File>, rs: seq<Record>, others: set<RecordId>)
    requires RetainedOk(f, rs, {}) && forall i :: i in others ==> i < |rs| && !Terminal(rs[i].status)
    ensures RetainedOk(f, rs, others)
  {
  }

  /** A record that keeps its retained file, unless it was finished and is not one of `others`. */
  lemma RetainedSame(f: map<Path, File>, rs: seq<Record>, others: set<RecordId>, id: RecordId, record: Record)
    requires RetainedOk(f, rs, others) && id < |rs| && record.retained == rs[id].retained
    requires id in others || !Terminal(rs[id].status) || Terminal(record.status)
    ensures RetainedOk(f, rs[id := record], others) && RetainedOk(f, rs[id := record], {})
  {
    var rs' := rs[id := record];
    assert forall i: nat :: i < |rs| && HoldsFile(rs', i, others) ==> HoldsFile(rs, i, others) && rs'[i].retained == rs[i].retained;
    assert RetainedOk(f, rs', others);
    RetainedFewer(f, rs', others, {});
  }

  lemma RetainedAdded(f: map<Path, File>, rs: seq<Record>, rs': seq<Record>, others: set<RecordId>)
    requires RetainedOk(f, rs, others)
    requires |rs'| == |rs| + 1 && rs'[..|rs|] == rs && rs'[|rs|].retained == None
    ensures RetainedOk(f, rs', others + {|rs|})
  {
    assert forall i :: 0 <= i < |rs| ==> rs'[i] == rs[i];
    assert forall i: nat :: i < |rs'| && HoldsFile(rs', i, others + {|rs|}) ==> i < |rs| && HoldsFile(rs, i, others);
  }

  /** A move of a file that is not retained, to a place that is free or not for retained files. */
  lemma RetainedElsewhere(f: map<Path, File>, rs: seq<Record>, others: set<RecordId>, source: Path, destination: Path)
    requires RetainedOk(f, rs, others) && source in f && source.directory != Retained
    ensures RetainedOk(Moved(f, source, destination), rs, others) && RetainedOk(Moved(f, source, destination), rs, {})
  {
    RetainedFewer(Moved(f, source, destination), rs, others, {});
  }

  /** A finished record's file is archived, wherever it was. */
  lemma ArchivedRetained(f: map<Path, File>, rs: seq<Record>, others: set<RecordId>, id: RecordId, source: Path, destination: Path)
    requires RetainedOk(f, rs, others) && source in f && destination.directory == Processed
    requires id < |rs| && id in others && Terminal(rs[id].status) && OwnPath(rs[id], source)
    ensures RetainedOk(Moved(f, source, destination), rs, if source.directory == Retained then others - {id} else others)
    ensures RetainedOk(Moved(f, source, destination), rs, {})
  {
    var left := if source.directory == Retained then others - {id} else others;
    assert forall i: nat :: i < |rs| && HoldsFile(rs, i, left) ==> HoldsFile(rs, i, others);
    if source.directory == Retained {
      forall i: nat | i < |rs| && HoldsFile(rs, i, left) ensures rs[i].retained != Some(source.name) {
        assert HoldsFile(rs, id, others) && i != id;
      }
    }
    assert RetainedOk(Moved(f, source, destination), rs, left);
    RetainedFewer(Moved(f, source, destination), rs, left, {});
  }

  /** A file moved to a free place among the retained ones, and its record. */
  lemma RetainedNamed(f: map<Path, File>, f': map<Path, File>, rs: seq<Record>, others: set<RecordId>, id: RecordId, name: Name)
    requires RetainedOk(f, rs, others) && id < |rs|
    requires Path(Retained, name) !in f && Path(Retained, name) in f'
    requires forall p :: p in f && p.directory == Retained ==> p in f'
    ensures var rs' := rs[id := rs[id].(retained := Some(name))];
            RetainedOk(f', rs', others) && RetainedOk(f', rs', {})
  {
    var rs' := rs[id := rs[id].(retained := Some(name))];
    assert forall i: nat :: i < |rs| && i != id && HoldsFile(rs', i, others) ==> HoldsFile(rs, i, others) && rs'[i] == rs[i];
    assert RetainedOk(f', rs', others);
    RetainedFewer(f', rs', others, {});
  }

  // ---------- what a scan does with one file ----------

  predicate JustObserved(record: Record, name: Name, stamp: Stamp, now: Time) {
    && record.status == Observed && record.name == name && record.stamp == stamp && record.stableSince == now
    && record.retained == None && !record.retry
  }

  /** A key of its own for a file whose key another record has. */
  function NewKey(records: seq<Record>, name: Name, stamp: Stamp): SourceKey {
    SourceKey(name, stamp, if KeyTaken(records, SourceKey(name, stamp, None)) then Some(|records|) else None)
  }

  predicate FailedKey(records: seq<Record>, key: SourceKey) {
    exists i :: 0 <= i < |records| && records[i].key == key && records[i].status == Failed
  }

  /** The file has been watched, unchanged, for long enough. */
  predicate Claims(settings: Settings, now: Time, w: World, watch: map<Name, RecordId>, path: Path)
    requires path in w.files
  {
    var name := settings.safe(path.name);
    && !settings.ignored(path.name)
    && name in watch && watch[name] < |w.records|
    && w.records[watch[name]].stamp == w.files[path].stamp
    && now - w.records[watch[name]].stableSince >= settings.stability
  }

  /** Ignored, watched anew, first observed, passed over as failed, claimed or left to wait. */
  predicate Scanned(settings: Settings, now: Time, w: World, watch: map<Name, RecordId>, path: Path,
                    records: seq<Record>, watch': map<Name, RecordId>)
    requires path in w.files
  {
    var name, stamp := settings.safe(path.name), w.files[path].stamp;
    if settings.ignored(path.name) then records == w.records && watch' == watch
    else if name in watch then
      && watch' == watch && watch[name] < |w.records|
      && var id := watch[name];
      if w.records[id].stamp != stamp then
        records == w.records[id := w.records[id].(key := SourceKey(path.name, stamp, Some(id)), stamp := stamp, stableSince := now)]
      else if Claims(settings, now, w, watch, path) then OneRecordChanged(w.records, records, id)
      else records == w.records
    else if FailedKey(w.records, SourceKey(path.name, stamp, None)) then records == w.records && watch' == watch
    else
      && |records| == |w.records| + 1 && records[..|w.records|] == w.records
      && JustObserved(records[|w.records|], name, stamp, now)
      && records[|w.records|].key == NewKey(w.records, path.name, stamp)
      && watch' == watch[name := |w.records|]
  }

  lemma ScannedTouches(settings: Settings, now: Time, w: World, watch: map<Name, RecordId>, path: Path,
                       records: seq<Record>, watch': map<Name, RecordId>)
    requires path in w.files && Watched(w.records, watch) && Scanned(settings, now, w, watch, path, records, watch')
    ensures var name := settings.safe(path.name);
            var id := if name in watch then watch[name] else |w.records|;
            && Touched(w.records, records, id, name) && Watched(records, watch')
            && (watch' == watch || (name !in watch && watch' == watch[name := id]))
  {
    hide FailedKey, Claims;
    var n := |w.records|;
    if |records| > n { assert forall k :: 0 <= k < n ==> records[k] == records[..n][k]; }
  }

  /** A file visited with a name and a stamp. */
  predicate Visited(start: map<Path, File>, settings: Settings, visited: set<Path>, n: Name, stamp: Stamp) {
    exists p :: p in visited && VisitedAs(start, settings, p, n, stamp)
  }

  predicate VisitedAs(start: map<Path, File>, settings: Settings, p: Path, n: Name, stamp: Stamp) {
    && p in start && p.directory == Inbox && !settings.ignored(p.name)
    && settings.safe(p.name) == n && start[p].stamp == stamp
  }

  lemma VisitedCollides(start: map<Path, File>, settings: Settings, visited: set<Path>, path: Path, n: Name)
    requires path in start && path !in visited && VisitedAs(start, settings, path, n, start[path].stamp)
    requires Visited(start, settings, visited, n, start[path].stamp)
    ensures Colliding(start, settings)
  {
    var p :| p in visited && VisitedAs(start, settings, p, n, start[path].stamp);
    assert Clash(start, settings, p, path);
  }

  lemma ClaimsSameStamp(settings: Settings, now: Time, w: World, watch: map<Name, RecordId>, path: Path)
    requires path in w.files && path.directory == Inbox && Claims(settings, now, w, watch, path)
    ensures var name := settings.safe(path.name);
            && name in watch && watch[name] < |w.records| && w.records[watch[name]].stamp == w.files[path].stamp
            && !settings.ignored(path.name)
  {
  }

  /** Each watched record that is no longer merely observed has the stamp of a visited file of its name. */
  lemma StillVisited(settings: Settings, now: Time, w: World, watch: map<Name, RecordId>, path: Path,
                     records: seq<Record>, watch': map<Name, RecordId>, start: map<Path, File>, visited: set<Path>)
    requires path in w.files && path in start && start[path] == w.files[path] && path.directory == Inbox
    requires Watched(w.records, watch) && Scanned(settings, now, w, watch, path, records, watch') && Watched(records, watch')
    requires forall n :: n in watch && w.records[watch[n]].status != Observed ==>
               Visited(start, settings, visited, n, w.records[watch[n]].stamp)
    ensures forall n :: n in watch' && records[watch'[n]].status != Observed ==>
              Visited(start, settings, visited + {path}, n, records[watch'[n]].stamp)
  {
    hide FailedKey, Claims;
    ScannedTouches(settings, now, w, watch, path, records, watch');
    forall n | n in watch' && records[watch'[n]].status != Observed
      ensures Visited(start, settings, visited + {path}, n, records[watch'[n]].stamp)
    {
      if n == settings.safe(path.name) && !settings.ignored(path.name) {
        assert VisitedAs(start, settings, path, n, records[watch'[n]].stamp);
        assert path in visited + {path};
      } else {
        assert n in watch && records[watch[n]] == w.records[watch[n]];
        var p :| p in visited && VisitedAs(start, settings, p, n, w.records[watch[n]].stamp);
        assert p in visited + {path};
      }
    }
  }

  lemma InboxStays(f: map<Path, File>, f': map<Path, File>, path: Path, pending: set<Path>)
    requires InboxKept(f, f', path) && path !in pending && forall p :: p in pending ==> p in f && p.directory == Inbox
    ensures forall p :: p in pending ==> p in f' && f'[p] == f[p]
  {
  }

  // ---------- what a scan looks at ----------

  /** What a scan finds when its turn comes to a path. */
  datatype Glance = Glance(world: World, watch: map<Name, RecordId>, path: Path, tick: nat)

  /** The file is claimed, its claim name is taken, and the move onto it succeeds. */
  predicate Overwrites(settings: Settings, env: Environment, now: Time, g: Glance) {
    && g.path in g.world.files && Claims(settings, now, g.world, g.watch, g.path)
    && ClaimPath(g.watch[settings.safe(g.path.name)]) in g.world.files && !env.moveFails(g.tick + 1, Processing)
  }

  predicate AnyOverwrites(settings: Settings, env: Environment, now: Time, glances: seq<Glance>) {
    exists i :: 0 <= i < |glances| && Overwrites(settings, env, now, glances[i])
  }

  /** Each path once, with its file as it was at the start, in worlds of the history. */
  predicate GlancesAt(start: map<Path, File>, history: seq<World>, paths: set<Path>, glances: seq<Glance>) {
    && (forall i :: 0 <= i < |glances| ==> GlanceAt(start, history, paths, glances[i]))
    && (forall i, j :: 0 <= i < j < |glances| ==> glances[i].path != glances[j].path)
    && (forall p :: p in paths ==> exists i :: 0 <= i < |glances| && glances[i].path == p)
  }

  predicate GlanceAt(start: map<Path, File>, history: seq<World>, paths: set<Path>, g: Glance) {
    && g.path in paths && g.path in start && g.path in g.world.files && g.world.files[g.path] == start[g.path]
    && g.world in history
  }

  /** A claimed file was archived, and its content is a document's, or it was kept among the failed ones. */
  ghost predicate Filed(file: File, accepts: Content -> bool, w: World) {
    if accepts(file.content) then InDirectory(w.files, Processed, file) && Committed(w.documents, file.content)
    else InDirectory(w.files, Retained, file)
  }

  ghost predicate AllFiled(settings: Settings, now: Time, glances: seq<Glance>, w: World) {
    forall g :: g in glances && g.path in g.world.files && Claims(settings, now, g.world, g.watch, g.path) ==>
      Filed(g.world.files[g.path], settings.accepts, w)
  }

  lemma EndedFiled(w: World, id: RecordId, file: File, accepts: Content -> bool)
    requires Ended(w, id, file) && w.records[id].error != Some(FailureRetention)
    requires Terminal(w.records[id].status) <==> accepts(file.content)
    ensures Filed(file, accepts, w)
  {
  }

  lemma OneMoreFiled(settings: Settings, now: Time, glances: seq<Glance>, g: Glance, w: World)
    requires AllFiled(settings, now, glances, g.world) && g.path in g.world.files
    requires Claims(settings, now, g.world, g.watch, g.path) ==> Filed(g.world.files[g.path], settings.accepts, w)
    requires ProcessedKept(g.world.files, w.files) && RetainedKept(g.world.files, w.files, None)
    requires g.world.documents <= w.documents
    ensures AllFiled(settings, now, glances + [g], w)
  {
    forall k | k in glances && k.path in k.world.files && Claims(settings, now, k.world, k.watch, k.path)
      ensures Filed(k.world.files[k.path], settings.accepts, w)
    {
      var file := k.world.files[k.path];
      if settings.accepts(file.content) {
        ArchivedStays(g.world.files, w.files, file);
      } else {
        RetainedStays(g.world.files, w.files, file);
      }
    }
  }

  /** Archived and retained files, documents and records stay, but for the records watched, which were only
      observed before or are new. */
  ghost predicate OthersStay(w: World, w': World, watched: set<RecordId>) {
    && ProcessedKept(w.files, w'.files) && RetainedKept(w.files, w'.files, None) && w.documents <= w'.documents
    && |w.records| <= |w'.records|
    && (forall id: nat :: id < |w.records| && w.records[id].status != Observed ==>
          w'.records[id] == w.records[id] && id !in watched)
  }

  lemma AllStay(w: World, settings: Settings, now: Time, watch: map<Name, RecordId>)
    requires forall n :: n in watch ==> watch[n] < |w.records| && w.records[watch[n]].status == Observed
    ensures OthersStay(w, w, Ids(watch)) && AllFiled(settings, now, [], w)
  {
  }

  lemma NoneWatched(w: World, w': World, watched: set<RecordId>)
    requires OthersStay(w, w', watched)
    ensures OthersStay(w, w', {})
  {
  }

  lemma MoreStay(w: World, before: World, after: World, settings: Settings, watch: map<Name, RecordId>,
                 watch': map<Name, RecordId>, path: Path)
    requires OthersStay(w, before, Ids(watch))
    requires ProcessedKept(before.files, after.files) && RetainedKept(before.files, after.files, None)
    requires before.documents <= after.documents
    requires var name := settings.safe(path.name);
             var id := if name in watch then watch[name] else |before.records|;
             && Touched(before.records, after.records, id, name)
             && (watch' == watch || (name !in watch && watch' == watch[name := id]))
    ensures OthersStay(w, after, Ids(watch'))
  {
    StoresTransitive(w.files, before.files, after.files);
    var name := settings.safe(path.name);
    var id := if name in watch then watch[name] else |before.records|;
    assert id in Ids(watch) || id >= |w.records|;
    assert forall k :: k in Ids(watch') ==> k in Ids(watch) || k == id;
  }

  lemma NoGlances(settings: Settings, env: Environment, now: Time, start: map<Path, File>, history: seq<World>)
    ensures GlancesAt(start, history, {}, []) && !AnyOverwrites(settings, env, now, [])
  {
  }

  lemma OneMoreGlance(settings: Settings, env: Environment, now: Time, start: map<Path, File>, history: seq<World>,
                      history': seq<World>, paths: set<Path>, glances: seq<Glance>, g: Glance)
    requires GlancesAt(start, history, paths, glances) && history <= history'
    requires g.path !in paths && GlanceAt(start, history, paths + {g.path}, g)
    ensures GlancesAt(start, history', paths + {g.path}, glances + [g])
    ensures AnyOverwrites(settings, env, now, glances + [g])
            <==> AnyOverwrites(settings, env, now, glances) || Overwrites(settings, env, now, g)
  {
    hide Overwrites;
    var more := glances + [g];
    assert forall i :: 0 <= i < |glances| ==> more[i] == glances[i];
    assert more[|glances|] == g && forall w :: w in history ==> w in history';
    forall p | p in paths + {g.path} ensures exists i :: 0 <= i < |more| && more[i].path == p {
      if p in paths {
        var i :| 0 <= i < |glances| && glances[i].path == p;
        assert more[i].path == p;
      }
    }
    if AnyOverwrites(settings, env, now, glances) {
      var i :| 0 <= i < |glances| && Overwrites(settings, env, now, glances[i]);
      assert Overwrites(settings, env, now, more[i]);
    }
  }

  // ---------- histories ----------

  predicate NoneCollide(history: seq<World>, settings: Settings) {
    forall i :: 0 <= i < |history| ==> !Colliding(history[i].files, settings)
  }

  /** Up to any point before which no files collided, a pass conserves. */
  lemma LoggedPrefixes(start: seq<World>, scan: seq<World>, end: seq<World>, settings: Settings)
    requires start != [] && start <= scan <= end && Logged(start, scan)
    requires Logged(start, end) || Colliding(scan[|scan| - 1].files, settings)
    ensures forall cut :: |start| <= cut <= |end| && NoneCollide(end[..cut], settings) ==> Logged(start, end[..cut])
  {
    hide Chain, Colliding;
    forall cut | |start| <= cut <= |end| && NoneCollide(end[..cut], settings) ensures Logged(start, end[..cut]) {
      var h := end[..cut];
      assert cut >= |scan| ==> h[|scan| - 1] == scan[|scan| - 1];
      if Logged(start, end) {
        LoggedSplits(start, h, end);
      } else {
        LoggedSplits(start, h, scan);
      }
    }
  }

  // ---------- single facts ----------

  function Ids(watch: map<Name, RecordId>): set<RecordId> { set n | n in watch :: watch[n] }

  lemma WatchedClaimsFree(before: World, files: map<Path, File>, records: seq<Record>, watch: map<Name, RecordId>,
                          watch': map<Name, RecordId>, id: RecordId, name: Name)
    requires OtherClaimsSame(before.files, files, ClaimPath(id)) && ClaimPath(id) !in files
    requires watch' == watch || watch' == watch[name := id]
    requires forall n :: n in watch ==> ClaimPath(watch[n]) !in before.files
    ensures forall n :: n in watch' ==> ClaimPath(watch'[n]) !in files
  {
  }

  lemma ScanAchieves(w: World, before: World, accepts: Content -> bool, files: map<Path, File>, records: seq<Record>,
                     id: RecordId, name: Name, other: RecordId)
    requires Achieved(w, accepts, before.files, before.records, id)
    requires Achieved(w, accepts, before.files, before.records, other)
    requires Touched(before.records, records, id, name)
    requires OtherClaimsSame(before.files, files, ClaimPath(id))
    requires ClaimPath(id) !in before.files && ClaimPath(id) !in files
    requires id < |before.records| && before.records[id].status != InProgress ==> records[id].status != InProgress
    ensures Achieved(w, accepts, files, records, other)
  {
  }

  /** One record may have changed, or one was added and is observed. */
  predicate Touched(rs: seq<Record>, rs': seq<Record>, id: RecordId, name: Name) {
    && |rs| <= |rs'| <= |rs| + 1
    && (forall k :: 0 <= k < |rs| && k != id ==> rs'[k] == rs[k])
    && (id < |rs| ==> |rs'| == |rs| && rs'[id].name == rs[id].name)
    && (|rs| < |rs'| ==> id == |rs| && rs'[id].status == Observed && rs'[id].name == name)
  }

  lemma GrownOthers(f: map<Path, File>, f': map<Path, File>, id: RecordId)
    requires Grown(f, f')
    ensures OtherClaimsSame(f, f', ClaimPath(id)) && (ClaimPath(id) in f' <==> ClaimPath(id) in f)
  {
  }

  lemma KeyFound(records: seq<Record>, key: SourceKey, found: Option<RecordId>)
    requires KeysOk(records)
    requires found.Some? ==> found.value < |records| && records[found.value].key == key
    requires found.None? ==> !KeyTaken(records, key)
    ensures found.Some? <==> KeyTaken(records, key)
    ensures FailedKey(records, key) <==> found.Some? && records[found.value].status == Failed
  {
  }

  predicate Watched(records: seq<Record>, watch: map<Name, RecordId>) {
    forall n :: n in watch ==> watch[n] < |records| && records[watch[n]].name == n
  }

  predicate KeyTaken(records: seq<Record>, key: SourceKey) {
    exists i :: 0 <= i < |records| && records[i].key == key
  }

  lemma RestampedRecord(w: World, id: RecordId, record: Record)
    requires Inv(w) && id < |w.records| && record.key.owner == Some(id) && record.status == w.records[id].status
    requires record.retained == w.records[id].retained
    ensures Inv(w.(records := w.records[id := record]))
  {
  }

  lemma AddedRecord(w: World, record: Record)
    requires Inv(w) && record.status == Observed && record.retained == None
    requires record.key.owner == Some(|w.records|) || (record.key.owner == None && !KeyTaken(w.records, record.key))
    ensures Inv(w.(records := w.records + [record]))
  {
  }

  /** Inbox files, but one, are where they were. */
  predicate InboxKept(f: map<Path, File>, f': map<Path, File>, path: Path) {
    forall p :: p in f && p.directory == Inbox && p != path ==> p in f' && f'[p] == f[p]
  }

  lemma GrownInbox(f: map<Path, File>, f': map<Path, File>, path: Path)
    requires Grown(f, f')
    ensures InboxKept(f, f', path)
  {
  }

  lemma OnlyMovedInbox(f: map<Path, File>, f': map<Path, File>, claimed: Path, path: Path)
    requires OnlyMoved(f, f', claimed) && claimed.directory == Processing
    ensures InboxKept(f, f', path)
  {
  }

  lemma ClaimedFile(f: map<Path, File>, f': map<Path, File>, path: Path, id: RecordId)
    requires path in f && path.directory == Inbox && Grown(Moved(f, path, ClaimPath(id)), f')
    ensures OtherClaimsSame(f, f', ClaimPath(id)) && InboxKept(f, f', path)
    ensures ClaimPath(id) in f' && f'[ClaimPath(id)] == f[path]
  {
  }

  lemma FramesTransitive(f: map<Path, File>, f': map<Path, File>, f'': map<Path, File>, id: RecordId, path: Path)
    requires OtherClaimsSame(f, f', ClaimPath(id)) && OtherClaimsSame(f', f'', ClaimPath(id))
    requires InboxKept(f, f', path) && InboxKept(f', f'', path)
    ensures OtherClaimsSame(f, f'', ClaimPath(id)) && InboxKept(f, f'', path)
  {
  }

  predicate HasRecord(records: seq<Record>, id: RecordId) { id < |records| }

  lemma ClaimRecovered(w: World, before: World, accepts: Content -> bool, files: map<Path, File>, records: seq<Record>, id: RecordId)
    requires id < |w.records| && Untouched(w, before.files, before.records, id)
    requires id < |records| && records[id].status != InProgress
    requires LeftOver(files, records, id) <==>
               Doubled(before, id) && accepts(before.files[Path(Retained, before.records[id].retained.value)].content)
    ensures Achieved(w, accepts, files, records, id)
  {
  }

  lemma StaysUntouched(w: World, before: World, files: map<Path, File>, records: seq<Record>, id: RecordId, other: RecordId)
    requires id < |w.records| && other < |w.records| && other != id && |before.records| == |w.records|
    requires Untouched(w, before.files, before.records, id) && Untouched(w, before.files, before.records, other)
    requires OneRecordChanged(before.records, records, id)
    requires OtherClaimsSame(before.files, files, ClaimPath(id)) && RetainedKept(before.files, files, before.records[id].retained)
    requires !(before.records[id].status == Failed && before.records[id].retry) ==>
               forall name :: RetainedKept(before.files, files, name)
    requires RetainedOk(w.files, w.records, {})
    ensures Untouched(w, files, records, other)
  {
    assert ClaimPath(other) != ClaimPath(id);
    var record := w.records[other];
    if record.status == Failed && record.retry && record.retained.Some? {
      var p := Path(Retained, record.retained.value);
      assert p in before.files && HoldsFile(w.records, other, {});
      if before.records[id].status == Failed && before.records[id].retry {
        if w.records[id].retained.Some? { assert HoldsFile(w.records, id, {}); }
        assert w.records[id].retained != record.retained;
      } else {
        assert RetainedKept(before.files, files, None);
      }
    }
  }

  lemma StaysAchieved(w: World, before: World, accepts: Content -> bool, files: map<Path, File>, records: seq<Record>,
                      id: RecordId, other: RecordId)
    requires id < |before.records| && other < |before.records| && other != id
    requires Achieved(w, accepts, before.files, before.records, other)
    requires OneRecordChanged(before.records, records, id)
    requires OtherClaimsSame(before.files, files, ClaimPath(id))
    ensures Achieved(w, accepts, files, records, other)
  {
  }

  // ---------- recovery of all records ----------

  /** The claims and retained files that a record not yet recovered will find. */
  ghost predicate Untouched(w: World, files: map<Path, File>, records: seq<Record>, id: RecordId)
    requires id < |w.records|
  {
    && id < |records| && records[id] == w.records[id]
    && (ClaimPath(id) in files <==> ClaimPath(id) in w.files)
    && (ClaimPath(id) in files ==> files[ClaimPath(id)] == w.files[ClaimPath(id)])
    && (records[id].status == Failed && records[id].retry && records[id].retained.Some? ==>
          var p := Path(Retained, records[id].retained.value);
          p in files && p in w.files && files[p] == w.files[p])
  }

  /** Records still to be recovered are untouched, and the files of the others are put away. */
  ghost predicate Recovering(w: World, accepts: Content -> bool, now: World, pending: set<RecordId>) {
    && |now.records| == |w.records| && RetainedOk(w.files, w.records, {})
    && (forall id: nat :: id in pending ==> id < |w.records| && Untouched(w, now.files, now.records, id))
    && forall id: nat :: id < |w.records| && id !in pending ==>
         Achieved(w, accepts, now.files, now.records, id) && PutAway(w, accepts, now, id)
  }

  lemma NoneRecovered(w: World, accepts: Content -> bool, pending: set<RecordId>)
    requires RetainedOk(w.files, w.records, {}) && forall id: nat :: id in pending <==> id < |w.records|
    ensures Recovering(w, accepts, w, pending)
  {
    forall id: nat | id < |w.records| ensures Untouched(w, w.files, w.records, id) {
      if w.records[id].retained.Some? && !Terminal(w.records[id].status) { assert HoldsFile(w.records, id, {}); }
    }
  }

  lemma OneRecovered(w: World, accepts: Content -> bool, before: World, after: World, id: RecordId, pending: set<RecordId>)
    requires Recovering(w, accepts, before, pending) && id in pending
    requires PutAway(before, accepts, after, id) && before.documents <= after.documents
    requires OneRecordChanged(before.records, after.records, id) && after.records[id].status != InProgress
    requires LeftOver(after.files, after.records, id) <==>
               Doubled(before, id) && accepts(before.files[Path(Retained, before.records[id].retained.value)].content)
    requires OtherClaimsSame(before.files, after.files, ClaimPath(id)) && ProcessedKept(before.files, after.files)
    requires RetainedKept(before.files, after.files, before.records[id].retained)
    requires !(before.records[id].status == Failed && before.records[id].retry) ==>
               forall name :: RetainedKept(before.files, after.files, name)
    requires RetainedOk(before.files, before.records, {})
    ensures Recovering(w, accepts, after, pending - {id})
  {
    hide Untouched, Achieved, PutAway, LeftOver, Doubled, OtherClaimsSame, ProcessedKept, RetainedKept, RetainedOk;
    RecoveredPutAway(w, before, accepts, after, id);
    ClaimRecovered(w, before, accepts, after.files, after.records, id);
    forall other: nat | other < |w.records| && other != id
      ensures if other in pending then Untouched(w, after.files, after.records, other)
              else Achieved(w, accepts, after.files, after.records, other) && PutAway(w, accepts, after, other)
    {
      if other in pending {
        StaysUntouched(w, before, after.files, after.records, id, other);
      } else {
        StaysAchieved(w, before, accepts, after.files, after.records, id, other);
        StaysPutAway(w, before, accepts, after, id, other);
      }
    }
  }

  lemma AllRecovered(w: World, accepts: Content -> bool, now: World)
    requires Recovering(w, accepts, now, {})
    ensures forall id: nat :: Achieved(w, accepts, now.files, now.records, id) && PutAway(w, accepts, now, id)
  {
  }

  // ---------- small facts ----------

  /** Retained files, but the named one, are where they were. */
  ghost predicate RetainedKept(f: map<Path, File>, f': map<Path, File>, name: Option<Name>) {
    forall p: Path :: p.directory == Retained && Some(p.name) != name && p in f ==> p in f' && f'[p] == f[p]
  }

  lemma SameClaims(f: map<Path, File>, id: RecordId, name: Option<Name>)
    ensures OtherClaimsSame(f, f, ClaimPath(id)) && RetainedKept(f, f, name)
  {
  }

  lemma SameFilesClaims(f: map<Path, File>, id: RecordId)
    ensures OtherClaimsSame(f, f, ClaimPath(id)) && forall name :: RetainedKept(f, f, name)
  {
  }

  lemma MovedAway(f: map<Path, File>, f': map<Path, File>, source: Path, destination: Path)
    requires source in f && destination !in f && destination.directory in {Processed, Retained}
    requires Grown(Moved(f, source, destination), f')
    ensures OnlyMoved(f, f', source) && (source.directory != Inbox ==> source !in f')
    ensures destination in f' && f'[destination] == f[source] && forall p :: p in f && p != source ==> p in f'
    ensures f' == Moved(f, source, destination) ==> source !in f'
  {
  }

  lemma MovedIn(f: map<Path, File>, f': map<Path, File>, inbox: Path, id: RecordId)
    requires inbox in f && inbox.directory == Inbox && ClaimPath(id) !in f
    requires Grown(Moved(f, inbox, ClaimPath(id)), f')
    ensures OtherClaimsSame(f, f', ClaimPath(id)) && ClaimPath(id) in f' && f'[ClaimPath(id)] == f[inbox]
    ensures forall name :: RetainedKept(f, f', name)
  {
  }

  lemma GrownClaims(f: map<Path, File>, f': map<Path, File>)
    requires Grown(f, f')
    ensures forall p: Path :: p.directory != Inbox ==> (p in f' <==> p in f)
  {
  }

  lemma OnlyMovedClaims(f: map<Path, File>, f': map<Path, File>, path: Path, id: RecordId, name: Option<Name>)
    requires OnlyMoved(f, f', path)
    requires path == ClaimPath(id) || path.directory == Inbox || (path.directory == Retained && Some(path.name) == name)
    ensures OtherClaimsSame(f, f', ClaimPath(id)) && RetainedKept(f, f', name)
    ensures path != ClaimPath(id) ==> (ClaimPath(id) in f' <==> ClaimPath(id) in f)
  {
  }

  lemma OnlyMovedOthers(f: map<Path, File>, f': map<Path, File>, path: Path, id: RecordId)
    requires OnlyMoved(f, f', path) && path == ClaimPath(id)
    ensures OtherClaimsSame(f, f', ClaimPath(id)) && forall name :: RetainedKept(f, f', name)
  {
  }

  lemma OthersTransitive(f: map<Path, File>, f': map<Path, File>, f'': map<Path, File>, id: RecordId)
    requires OtherClaimsSame(f, f', ClaimPath(id)) && OtherClaimsSame(f', f'', ClaimPath(id))
    requires forall name :: RetainedKept(f, f', name)
    requires forall name :: RetainedKept(f', f'', name)
    ensures OtherClaimsSame(f, f'', ClaimPath(id)) && forall name :: RetainedKept(f, f'', name)
  {
    forall name ensures RetainedKept(f, f'', name) {
      assert RetainedKept(f, f', name) && RetainedKept(f', f'', name);
    }
  }

  predicate SameWatch(record: Record, record': Record) {
    record'.stamp == record.stamp && record'.stableSince == record.stableSince
  }

  /** One record may have changed, and it is still the same file's. */
  predicate OneRecordChanged(rs: seq<Record>, rs': seq<Record>, id: RecordId) {
    && |rs'| == |rs|
    && (forall k :: 0 <= k < |rs| && k != id ==> rs'[k] == rs[k])
    && (id < |rs| ==> rs'[id].name == rs[id].name && rs'[id].key == rs[id].key && SameWatch(rs[id], rs'[id]))
  }

  lemma AddedFile(w: World, path: Path, file: File)
    requires Inv(w) && path.directory == Inbox && path !in w.files
    requires forall p :: p in w.files ==> w.files[p].token != file.token
    ensures var w' := w.(files := w.files[path := file]);
            Inv(w') && Conserved(w, w') && Grown(w.files, w'.files)
  {
    var w' := w.(files := w.files[path := file]);
    GrownConserves(w.files, w'.files);
  }

  lemma MovedFile(w: World, source: Path, destination: Path)
    requires Inv(w) && source in w.files && source != destination
    requires destination.directory == Processing ==>
               && destination.name.ClaimOf? && destination.name.record < |w.records|
               && w.records[destination.name.record].status != Observed
    requires RetainedOk(Moved(w.files, source, destination), w.records, {})
    ensures var w' := w.(files := Moved(w.files, source, destination));
            Inv(w') && (Conserved(w, w') <==> destination !in w.files)
  {
    hide Held, RetainedOk;
    MoveConservesIffFree(w.files, source, destination);
  }

  lemma ChangedRecord(w: World, id: RecordId, record: Record)
    requires Inv(w) && id < |w.records| && record.key == w.records[id].key
    requires record.status == Observed ==> w.records[id].status == Observed
    requires RetainedOk(w.files, w.records[id := record], {})
    ensures Inv(w.(records := w.records[id := record]))
  {
    hide RetainedOk;
  }

  lemma SameFilesConserved(w: World, w': World)
    requires w'.files == w.files && w.documents <= w'.documents && |w.records| <= |w'.records|
    ensures Conserved(w, w')
  {
  }

  lemma LoggedOnce(h: seq<World>, w: World)
    requires h != []
    ensures Logged(h, h + [w]) <==> Conserved(h[|h| - 1], w)
  {
    var after := h + [w];
    assert after[|h| - 1] == h[|h| - 1] && after[|h| - 1 + 1] == w;
  }

  lemma LoggedSame(h: seq<World>)
    requires h != []
    ensures Logged(h, h)
  {
  }

  lemma GrownSame(files: map<Path, File>)
    ensures Grown(files, files)
  {
  }

  lemma GrownTransitive(f: map<Path, File>, f': map<Path, File>, f'': map<Path, File>)
    requires Grown(f, f') && Grown(f', f'')
    ensures Grown(f, f'')
  {
  }

  lemma GrownHas(f: map<Path, File>, f': map<Path, File>, path: Path)
    requires Grown(f, f') && path in f
    ensures path in f' && f'[path] == f[path]
  {
  }

  lemma GrownIsOnlyMoved(f: map<Path, File>, f': map<Path, File>, path: Path)
    requires Grown(f, f')
    ensures OnlyMoved(f, f', path)
  {
  }

  lemma OnlyMovedFrom(f: map<Path, File>, f': map<Path, File>, f'': map<Path, File>, path: Path)
    requires OnlyMoved(f', f'', path) && (Grown(f, f') || OnlyMoved(f, f', path))
    ensures OnlyMoved(f, f'', path)
  {
  }

  lemma CommittedAt(documents: seq<Document>, i: nat)
    requires i < |documents|
    ensures Committed(documents, documents[i].content)
  {
  }

  lemma NotCommitted(documents: seq<Document>, content: Content)
    requires forall k :: 0 <= k < |documents| ==> documents[k].content != content
    ensures !Committed(documents, content)
  {
  }
}
