/** One pass of the consume service, action by action. After every commit and every move the
    state is added to a history: the places where a crash can fall. */
module Consumers {
  import opened Common
  import opened Consume
  import opened ConsumeFacts

  class Consumer {
    const settings: Settings
    const env: Environment
    var files: map<Path, File>
    var records: seq<Record>
    var documents: seq<Document>
    var blobs: seq<Option<Content>>
    var tick: nat
    var history: seq<World>

    function Current(): World
      reads this
    {
      World(files, records, documents, blobs)
    }

    ghost predicate Ready()
      reads this
    {
      history != [] && history[|history| - 1] == Current() && AllInv(history)
    }

    lemma ReadyRetained()
      requires Ready()
      ensures RetainedOk(files, records, {})
    {
    }

    /** A process starts on whatever is on disk and committed. */
    constructor (settings: Settings, env: Environment, w: World)
      requires Inv(w)
      ensures Ready() && Current() == w && history == [w]
      ensures this.settings == settings && this.env == env
    {
      this.settings, this.env := settings, env;
      files, records, documents, blobs := w.files, w.records, w.documents, w.blobs;
      tick, history := 0, [w];
    }

    // ---------- single actions ----------

    /** Ends an action; then a user may add a file. */
    method Settle()
      requires history != [] && AllInv(history) && Inv(Current())
      modifies this`files, this`tick, this`history
      ensures Ready() && old(history) < history && tick == old(tick) + 1
      ensures Logged(old(history), history) <==> Conserved(old(history[|history| - 1]), old(Current()))
      ensures Grown(old(files), files) && (NoArrivals(env) ==> files == old(files))
    {
      hide Conserved, Chain, Grown, Inv;
      ghost var before, middle := history, history + [Current()];
      LoggedOnce(history, Current());
      LoggedSame(middle);
      GrownSame(files);
      history := history + [Current()];
      var arrival := env.arrives(tick);
      tick := tick + 1;
      if arrival.Some? {
        var path, file := Path(Inbox, arrival.value.0), arrival.value.1;
        if path !in files && forall p :: p in files ==> files[p].token != file.token {
          ghost var w := Current();
          files := files[path := file];
          AddedFile(w, path, file);
          LoggedOnce(history, Current());
          history := history + [Current()];
        }
      }
      LoggedSplits(before, middle, history);
    }

    method Move(source: Path, destination: Path) returns (moved: bool)
      requires Ready() && source != destination
      requires destination.directory == Processing ==>
                 && destination.name.ClaimOf? && destination.name.record < |records|
                 && records[destination.name.record].status != Observed
      requires source in files ==> RetainedOk(Moved(files, source, destination), records, {})
      modifies this`files, this`tick, this`history
      ensures Ready() && old(history) <= history && tick == old(tick) + 1
      ensures moved <==> source in old(files) && !env.moveFails(old(tick), destination.directory)
      ensures !moved ==> files == old(files) && history == old(history)
      ensures moved ==> Grown(Moved(old(files), source, destination), files)
      ensures moved && NoArrivals(env) ==> files == Moved(old(files), source, destination)
      ensures Logged(old(history), history) <==> !moved || destination !in old(files)
    {
      hide Conserved, FilesConserved, Inv, Chain;
      if source !in files || env.moveFails(tick, destination.directory) {
        LoggedSame(history);
        tick := tick + 1;
        return false;
      }
      MovedFile(Current(), source, destination);
      files := Moved(files, source, destination);
      Settle();
      return true;
    }

    /** Commits a record; it keeps its key, and never goes back to being observed. */
    method CommitRecord(id: RecordId, record: Record)
      requires Ready() && id < |records| && record.key == records[id].key
      requires record.status == Observed ==> records[id].status == Observed
      requires RetainedOk(files, records[id := record], {})
      modifies this`records, this`files, this`tick, this`history
      ensures Ready() && Logged(old(history), history) && tick == old(tick) + 1
      ensures records == old(records)[id := record]
      ensures Grown(old(files), files) && (NoArrivals(env) ==> files == old(files))
    {
      hide Inv, Conserved, Chain;
      ChangedRecord(Current(), id, record);
      records := records[id := record];
      SameFilesConserved(history[|history| - 1], Current());
      Settle();
    }

    /** A name for a file in a directory: the wanted one, or else that name with the time. */
    method ClaimedDestination(directory: Directory, name: Name) returns (path: Path)
      ensures path !in files && path.directory == directory
      ensures if Path(directory, name) !in files then path.name == name else path.name.Timestamped? && path.name.base == name
    {
      path := Path(directory, name);
      if path in files {
        FreeTimestampExists(files, directory, name);
        var at: nat :| Path(directory, Timestamped(name, at)) !in files;
        path := Path(directory, Timestamped(name, at));
      }
    }

    // ---------- documents ----------

    /** Stores the blob first; then an equal content makes it a duplicate, or document and job are
        committed together. A failure takes the blob back. */
    method IngestPath(path: Path) returns (r: Option<(nat, bool)>)
      requires Ready() && path in files
      modifies this`documents, this`blobs, this`files, this`tick, this`history
      ensures Ready() && Logged(old(history), history)
      ensures Grown(old(files), files) && (NoArrivals(env) ==> files == old(files))
      ensures r.Some? ==> r.value.0 < |documents| && documents[r.value.0].content == old(files)[path].content
      ensures r.Some? ==> (r.value.1 <==> Committed(old(documents), old(files)[path].content))
      ensures if r.Some? && !r.value.1 then |documents| == |old(documents)| + 1 else documents == old(documents)
      ensures old(documents) <= documents
      ensures Quiet(env) ==> (r.Some? <==> settings.accepts(old(files)[path].content))
      ensures env.breaks(old(tick)) ==> r.None?
      ensures |old(blobs)| <= |blobs| && blobs[..|old(blobs)|] == old(blobs)
      ensures r.Some? && !r.value.1 ==> blobs == old(blobs) + [Some(old(files)[path].content)]
      ensures r.None? || r.value.1 ==> forall b :: |old(blobs)| <= b < |blobs| ==> blobs[b] == None
    {
      hide OnePlace, ClaimsOk, KeysOk, Conserved, Chain, Grown, AllInv, Committed;
      var content := files[path].content;
      if !settings.accepts(content) || env.breaks(tick) {
        LoggedSame(history);
        GrownSame(files);
        return None;
      }
      BlobsInUse();
      StoreBlob(content);
      var i := 0;
      while i < |documents|
        invariant i <= |documents|
        invariant forall k :: 0 <= k < i ==> documents[k].content != content
      {
        if documents[i].content == content {
          CommittedAt(documents, i);
          DropLast(old(history), old(files));
          return Some((i, true));
        }
        i := i + 1;
      }
      NotCommitted(documents, content);
      if env.breaks(tick) {
        DropLast(old(history), old(files));
        return None;
      }
      ghost var h, f := history, files;
      CommitDocument(content);
      LoggedSplits(old(history), h, history);
      GrownTransitive(old(files), f, files);
      return Some((|documents| - 1, false));
    }

    lemma BlobsInUse()
      requires Ready()
      ensures forall i :: 0 <= i < |documents| ==> documents[i].blob < |blobs|
    {
    }

    method DropLast(ghost h: seq<World>, ghost f: map<Path, File>)
      requires Ready() && blobs != []
      requires forall i :: 0 <= i < |documents| ==> documents[i].blob < |blobs| - 1
      requires Logged(h, history) && Grown(f, files) && (NoArrivals(env) ==> files == f)
      modifies this`blobs, this`files, this`tick, this`history
      ensures Ready() && Logged(h, history)
      ensures Grown(f, files) && (NoArrivals(env) ==> files == f)
      ensures blobs == old(blobs)[|old(blobs)| - 1 := None]
    {
      hide OnePlace, ClaimsOk, KeysOk, ContentsDistinct, Conserved, Grown, Chain, AllInv;
      ghost var h', f' := history, files;
      DropStored();
      LoggedSplits(h, h', history);
      GrownTransitive(f, f', files);
    }

    method StoreBlob(content: Content)
      requires Ready()
      modifies this`blobs, this`files, this`tick, this`history
      ensures Ready() && Logged(old(history), history)
      ensures blobs == old(blobs) + [Some(content)]
      ensures Grown(old(files), files) && (NoArrivals(env) ==> files == old(files))
    {
      hide OnePlace, ClaimsOk, KeysOk, ContentsDistinct;
      blobs := blobs + [Some(content)];
      SameFilesConserved(history[|history| - 1], Current());
      Settle();
    }

    /** Deletes the blob stored last, which no document has. */
    method DropStored()
      requires Ready() && blobs != []
      requires forall i :: 0 <= i < |documents| ==> documents[i].blob < |blobs| - 1
      modifies this`blobs, this`files, this`tick, this`history
      ensures Ready() && Logged(old(history), history)
      ensures Grown(old(files), files) && (NoArrivals(env) ==> files == old(files))
      ensures blobs == old(blobs)[|old(blobs)| - 1 := None]
    {
      hide OnePlace, ClaimsOk, KeysOk, ContentsDistinct;
      blobs := blobs[|blobs| - 1 := None];
      SameFilesConserved(history[|history| - 1], Current());
      Settle();
    }

    method CommitDocument(content: Content)
      requires Ready() && !Committed(documents, content)
      requires blobs != [] && blobs[|blobs| - 1] == Some(content)
      modifies this`documents, this`files, this`tick, this`history
      ensures Ready() && Logged(old(history), history)
      ensures documents == old(documents) + [Document(content, |blobs| - 1)]
      ensures Grown(old(files), files) && (NoArrivals(env) ==> files == old(files))
    {
      hide OnePlace, ClaimsOk, KeysOk;
      documents := documents + [Document(content, |blobs| - 1)];
      SameFilesConserved(history[|history| - 1], Current());
      Settle();
    }

    // ---------- one claim ----------

    /** Keeps a failed file, under its name if that is free, and the record says where; a failing move
        leaves it where it is. */
    method RetainFailedFile(id: RecordId, path: Path, ghost others: set<RecordId>) returns (kept: bool)
      requires Ready() && id < |records| && path in files && !Terminal(records[id].status)
      requires RetainedOk(files, records, others) && OwnPath(records[id], path)
      modifies this`records, this`files, this`tick, this`history
      ensures Ready() && Logged(old(history), history) && RetainedOk(files, records, others)
      ensures OneRecordChanged(old(records), records, id)
      ensures records[id] == old(records[id]).(retained := records[id].retained)
      ensures OnlyMoved(old(files), files, path)
      ensures kept <==> path.directory == Retained || !env.moveFails(old(tick), Retained)
      ensures if kept then HasRetained(files, records[id], old(files)[path])
              else files == old(files) && records == old(records)
      ensures kept && path.directory == Processing ==> path !in files
      ensures kept && NoArrivals(env) ==> (path in files <==> path.directory == Retained)
    {
      hide Inv, Conserved, Chain, AllInv, Grown, OnlyMoved, RetainedOk, Moved;
      var name := path.name;
      GrownSame(files);
      GrownIsOnlyMoved(files, files, path);
      LoggedSame(history);
      if path.directory != Retained {
        var destination := ClaimedDestination(Retained, records[id].name);
        RetainedElsewhere(files, records, others, path, destination);
        kept := Move(path, destination);
        if !kept {
          return;
        }
        MovedAway(old(files), files, path, destination);
        name := destination.name;
        RetainedNamed(old(files), files, records, others, id, name);
      } else {
        RetainedSame(files, records, others, id, records[id].(retained := Some(name)));
      }
      ghost var h, f := history, files;
      CommitRecord(id, records[id].(retained := Some(name)));
      LoggedSplits(old(history), h, history);
      RetainedGrown(f, files, records, others);
      GrownHas(f, files, Path(Retained, name));
      GrownClaims(f, files);
      GrownIsOnlyMoved(f, files, path);
      OnlyMovedFrom(old(files), f, files, path);
      return true;
    }

    /** Marks the record as in progress, ingests the file, marks the outcome and then archives it.
        Any failure on the way fails the record and retains the file. */
    method IngestClaim(id: RecordId, path: Path, again: bool, report: Report, ghost others: set<RecordId>) returns (r: Report)
      requires Ready() && id < |records| && path in files && id in others
      requires RetainedOk(files, records, others) && OwnPath(records[id], path)
      modifies this
      ensures Ready() && Logged(old(history), history)
      ensures RetainedOk(files, records, if path.directory == Retained then others - {id} else others)
      ensures OneRecordChanged(old(records), records, id)
      ensures records[id].status in {Ingested, Duplicate, Failed} && records[id].error != Some(SourceMissing)
      ensures Ended(Current(), id, old(files)[path]) && old(documents) <= documents
      ensures records[id].attempts == old(records[id].attempts) + 1
      ensures records[id].error == Some(FailureRetention) ==>
                path in files && files[path] == old(files)[path] && records[id].retained == old(records[id].retained)
      ensures Quiet(env) ==> records[id].error != Some(FailureRetention)
      ensures r == Counted(report, records[id].status, again)
      ensures OnlyMoved(old(files), files, path)
      ensures Quiet(env) ==> (path in files <==> path.directory == Retained && records[id].status == Failed)
      ensures var content := old(files)[path].content;
              Quiet(env) ==>
                (records[id].status == if !settings.accepts(content) then Failed
                                       else if Committed(old(documents), content) then Duplicate else Ingested)
      ensures Quiet(env) ==> r.ingested - report.ingested == |documents| - |old(documents)|
      ensures Faulty(env) ==> records[id].status == Failed
      ensures Faulty(env) && Retains(env) ==>
                HasRetained(files, records[id], old(files)[path]) && (path in files <==> path.directory == Retained)
      ensures Faulty(env) && RetainsNothing(env) && path.directory == Processing ==>
                files == old(files) && records[id].retained == old(records[id].retained)
    {
      hide Inv, Conserved, Chain, AllInv, Committed, Grown, RetainedOk, HasRetained, OnlyMoved, Ended;
      BeginClaim(id, path, others);
      ghost var h, f := history, files;
      var stored := IngestPath(path);
      LoggedSplits(old(history), h, history);
      RetainedGrown(f, files, records, others);
      GrownTransitive(old(files), f, files);
      GrownHas(old(files), files, path);
      GrownIsOnlyMoved(old(files), files, path);
      f := files;
      var archived := ArchiveOrFail(id, path, stored, old(history), others);
      OnlyMovedFrom(old(files), f, files, path);
      if archived {
        r := if stored.value.1 then report.(duplicates := report.duplicates + 1)
             else report.(ingested := report.ingested + 1);
        return if again then r.(retried := r.retried + 1) else r;
      }
      return report.(failed := report.failed + 1);
    }

    /** After an ingestion, successful or not: the second half of `IngestClaim`. */
    method ArchiveOrFail(id: RecordId, path: Path, stored: Option<(nat, bool)>, ghost h: seq<World>, ghost others: set<RecordId>)
      returns (archived: bool)
      requires Ready() && id < |records| && path in files && Logged(h, history) && id in others && !records[id].retry
      requires RetainedOk(files, records, others) && OwnPath(records[id], path)
      requires stored.Some? ==> stored.value.0 < |documents| && documents[stored.value.0].content == files[path].content
      modifies this`records, this`files, this`tick, this`history
      ensures Ready() && Logged(h, history)
      ensures RetainedOk(files, records, if path.directory == Retained then others - {id} else others)
      ensures OneRecordChanged(old(records), records, id) && OnlyMoved(old(files), files, path)
      ensures Ended(Current(), id, old(files)[path]) && records[id].attempts == old(records[id].attempts)
      ensures if archived then stored.Some? && records[id].error == None
              else records[id].error in {Some(IngestionFailed), Some(FailureRetention)}
      ensures records[id].status == if !archived then Failed else if stored.value.1 then Duplicate else Ingested
      ensures records[id].error == Some(FailureRetention) ==>
                path in files && files[path] == old(files)[path] && records[id].retained == old(records[id].retained)
      ensures Quiet(env) ==> (archived <==> stored.Some?) && records[id].error != Some(FailureRetention)
      ensures Quiet(env) ==> (path in files <==> path.directory == Retained && !archived)
      ensures Faulty(env) ==> !archived
      ensures Faulty(env) && Retains(env) ==>
                HasRetained(files, records[id], old(files)[path]) && (path in files <==> path.directory == Retained)
      ensures Faulty(env) && RetainsNothing(env) && path.directory == Processing ==>
                files == old(files) && records[id].retained == old(records[id].retained)
    {
      hide Inv, Conserved, Chain, AllInv, Grown, RetainedOk, HasRetained, OnlyMoved, InDirectory, HasDocument;
      GrownSame(files);
      GrownIsOnlyMoved(files, files, path);
      archived := false;
      if stored.Some? && !env.breaks(tick) {
        archived := FinishClaim(id, path, stored.value, h, others);
        if archived {
          return;
        }
      }
      ghost var f := files;
      FailClaim(id, path, h, others);
      RetainedFewer(files, records, others, others - {id});
      OnlyMovedFrom(old(files), f, files, path);
    }

    method BeginClaim(id: RecordId, path: Path, ghost others: set<RecordId>)
      requires Ready() && id < |records| && path in files && id in others && RetainedOk(files, records, others)
      modifies this`records, this`files, this`tick, this`history
      ensures Ready() && Logged(old(history), history) && RetainedOk(files, records, others)
      ensures OneRecordChanged(old(records), records, id)
      ensures records[id] == old(records[id]).(status := InProgress, attempts := old(records[id].attempts) + 1,
                                               retry := false, error := None)
      ensures Grown(old(files), files) && (NoArrivals(env) ==> files == old(files))
      ensures path in files && files[path] == old(files)[path] && tick == old(tick) + 1
    {
      hide Inv, Conserved, Chain, AllInv, Grown, RetainedOk;
      var record := records[id].(status := InProgress, attempts := records[id].attempts + 1, retry := false, error := None);
      RetainedSame(files, records, others, id, record);
      CommitRecord(id, record);
      RetainedGrown(old(files), files, records, others);
      GrownHas(old(files), files, path);
    }

    method FinishClaim(id: RecordId, path: Path, stored: (nat, bool), ghost h: seq<World>, ghost others: set<RecordId>)
      returns (archived: bool)
      requires Ready() && id < |records| && path in files && Logged(h, history) && id in others
      requires RetainedOk(files, records, others) && OwnPath(records[id], path)
      requires stored.0 < |documents| && documents[stored.0].content == files[path].content
      modifies this`records, this`files, this`tick, this`history
      ensures Ready() && Logged(h, history)
      ensures RetainedOk(files, records, if archived && path.directory == Retained then others - {id} else others)
      ensures OneRecordChanged(old(records), records, id)
      ensures records[id] == old(records[id]).(document := Some(stored.0), error := None,
                                               status := if stored.1 then Duplicate else Ingested)
      ensures HasDocument(records[id], documents, old(files)[path].content)
      ensures archived ==> InDirectory(files, Processed, old(files)[path])
      ensures OnlyMoved(old(files), files, path)
      ensures archived <==> !env.moveFails(old(tick) + 1, Processed)
      ensures if archived then path.directory != Inbox ==> path !in files else path in files && files[path] == old(files)[path]
      ensures archived && Quiet(env) ==> path !in files
    {
      hide Inv, Conserved, Chain, AllInv, Grown, OnlyMoved, RetainedOk, Moved;
      ghost var h1, f1 := history, files;
      var record := records[id].(document := Some(stored.0), status := if stored.1 then Duplicate else Ingested, error := None);
      RetainedSame(files, records, others, id, record);
      CommitRecord(id, record);
      RetainedGrown(f1, files, records, others);
      LoggedSplits(h, h1, history);
      GrownHas(f1, files, path);
      GrownIsOnlyMoved(f1, files, path);
      var destination := ClaimedDestination(Processed, records[id].name);
      ghost var h2, f2 := history, files;
      ArchivedRetained(files, records, others, id, path, destination);
      archived := Move(path, destination);
      LoggedSplits(h, h2, history);
      if archived {
        RetainedGrown(Moved(f2, path, destination), files, records, if path.directory == Retained then others - {id} else others);
        MovedAway(f2, files, path, destination);
        OnlyMovedFrom(f1, f2, files, path);
      }
    }

    method FailClaim(id: RecordId, path: Path, ghost h: seq<World>, ghost others: set<RecordId>)
      requires Ready() && id < |records| && path in files && Logged(h, history) && id in others
      requires RetainedOk(files, records, others) && OwnPath(records[id], path)
      modifies this`records, this`files, this`tick, this`history
      ensures Ready() && Logged(h, history) && RetainedOk(files, records, others)
      ensures OneRecordChanged(old(records), records, id) && records[id].status == Failed && !records[id].retry
      ensures records[id].attempts == old(records[id].attempts) && records[id].document == old(records[id].document)
      ensures records[id].error == if path.directory == Retained || !env.moveFails(old(tick) + 1, Retained)
                                   then Some(IngestionFailed) else Some(FailureRetention)
      ensures OnlyMoved(old(files), files, path)
      ensures if path.directory == Retained || !env.moveFails(old(tick) + 1, Retained) then
                HasRetained(files, records[id], old(files)[path]) && (path.directory == Processing ==> path !in files)
              else path in files && files[path] == old(files)[path] && records[id].retained == old(records[id].retained)
      ensures path.directory != Retained && env.moveFails(old(tick) + 1, Retained) && NoArrivals(env) ==> files == old(files)
      ensures NoArrivals(env) && Retains(env) ==> (path in files <==> path.directory == Retained)
    {
      hide Inv, Conserved, Chain, AllInv, Grown, OnlyMoved, RetainedOk, HasRetained;
      ghost var h1, f := history, files;
      var record := records[id].(status := Failed, error := Some(IngestionFailed), retry := false);
      RetainedSame(files, records, others, id, record);
      CommitRecord(id, record);
      RetainedGrown(f, files, records, others);
      LoggedSplits(h, h1, history);
      GrownHas(f, files, path);
      GrownIsOnlyMoved(f, files, path);
      ghost var h2, f2 := history, files;
      var kept := RetainFailedFile(id, path, others);
      LoggedSplits(h, h2, history);
      OnlyMovedFrom(f, f2, files, path);
      if !kept {
        ghost var h3, f3 := history, files;
        record := records[id].(error := Some(FailureRetention));
        RetainedSame(files, records, others, id, record);
        CommitRecord(id, record);
        RetainedGrown(f3, files, records, others);
        GrownHas(f3, files, path);
        LoggedSplits(h, h3, history);
        GrownIsOnlyMoved(f3, files, path);
        OnlyMovedFrom(f, f3, files, path);
      }
    }

    // ---------- recovery ----------

    /** `stopped`: a move raised and ended the pass. */
    method RecoverClaim(id: RecordId, report: Report) returns (r: Report, stopped: bool)
      requires Ready() && id < |records|
      modifies this
      ensures Ready() && Logged(old(history), history)
      ensures OneRecordChanged(old(records), records, id)
      ensures old(records[id].status) == Observed ==>
                records == old(records) && files == old(files) && history == old(history)
      ensures OtherClaimsSame(old(files), files, ClaimPath(id))
      ensures RetainedKept(old(files), files, old(records[id].retained))
      ensures !(old(records[id].status) == Failed && old(records[id].retry)) ==> forall name :: RetainedKept(old(files), files, name)
      ensures ProcessedKept(old(files), files) && old(documents) <= documents
      ensures records[id].status == Observed ==> old(records[id].status) == Observed
      ensures old(records[id].status) == Failed && !old(records[id].retry) ==> records == old(records) && files == old(files)
      ensures old(records[id].status) == Failed && old(records[id].retry) && OwnFile(old(Current()), id) == None ==>
                var inbox := Path(Inbox, old(records)[id].name);
                if inbox in old(files) then Ended(Current(), id, old(files)[inbox])
                else records[id] == old(records[id]).(retry := false, error := Some(RetainedMissing))
      ensures r == if stopped then report
                   else if old(records[id].status) == InProgress then Counted(report, records[id].status, false)
                   else if old(records[id].status) == Failed && old(records[id].retry) then
                     Counted(report, records[id].status, true)
                   else report
      ensures Quiet(env) ==> PutAway(old(Current()), settings.accepts, Current(), id)
      ensures Quiet(env) ==> !stopped && records[id].status != InProgress
      ensures Quiet(env) ==>
                (LeftOver(files, records, id) <==>
                   Doubled(old(Current()), id)
                   && settings.accepts(old(files[Path(Retained, records[id].retained.value)].content)))
      ensures Quiet(env) ==> r.ingested - report.ingested == |documents| - |old(documents)|
    {
      hide Inv, Conserved, Chain, AllInv, Grown, OnlyMoved, OtherClaimsSame, RetainedKept, RetainedOk, ProcessedKept;
      hide InDirectory, HasDocument, HasRetained;
      ProcessedSame(files);
      r, stopped := report, false;
      var record, claimed, inbox := records[id], ClaimPath(id), Path(Inbox, records[id].name);
      LoggedSame(history);
      SameFilesClaims(files, id);
      if Terminal(record.status) {
        stopped := FinishTerminalArchive(id);
      } else if record.status == InProgress {
        r, stopped := RecoverInterrupted(id, report);
      } else if record.status == Failed && record.retry {
        var candidate :=
          if record.retained.Some? && Path(Retained, record.retained.value) in files then
            Some(Path(Retained, record.retained.value))
          else if claimed in files then Some(claimed)
          else if inbox in files then Some(inbox)
          else None;
        if candidate == None {
          ReadyRetained();
          RetainedSame(files, records, {}, id, record.(retry := false, error := Some(RetainedMissing)));
          CommitRecord(id, record.(retry := false, error := Some(RetainedMissing)));
          GrownIsOnlyMoved(old(files), files, claimed);
          OnlyMovedClaims(old(files), files, claimed, id, record.retained);
          OnlyMovedStores(old(files), files, claimed);
          return report.(failed := report.failed + 1), false;
        }
        ReadyRetained();
        RetainedUnfinished(files, records, id);
        r := IngestClaim(id, candidate.value, true, report, {id});
        OnlyMovedClaims(old(files), files, candidate.value, id, record.retained);
        OnlyMovedStores(old(files), files, candidate.value);
      }
    }

    method FinishTerminalArchive(id: RecordId) returns (stopped: bool)
      requires Ready() && id < |records| && records[id].status != Observed
      modifies this`files, this`tick, this`history
      ensures Ready() && Logged(old(history), history)
      ensures OtherClaimsSame(old(files), files, ClaimPath(id))
      ensures forall retained :: RetainedKept(old(files), files, retained)
      ensures ProcessedKept(old(files), files)
      ensures forall p :: p in files && p.directory == Retained ==> p in old(files)
      ensures stopped <==> ClaimPath(id) in old(files) && env.moveFails(old(tick), Processed)
      ensures stopped ==> files == old(files)
      ensures ClaimPath(id) in old(files) && !stopped ==> InDirectory(files, Processed, old(files)[ClaimPath(id)])
      ensures Quiet(env) ==> !stopped && ClaimPath(id) !in files
    {
      hide Inv, Conserved, Chain, AllInv, OnlyMoved, OtherClaimsSame, RetainedKept, RetainedOk, ProcessedKept;
      ProcessedSame(files);
      var claimed := ClaimPath(id);
      if claimed in files {
        var destination := ClaimedDestination(Processed, records[id].name);
        ReadyRetained();
        RetainedElsewhere(files, records, {}, claimed, destination);
        var moved := Move(claimed, destination);
        if moved {
          MovedAway(old(files), files, claimed, destination);
        } else {
          GrownSame(files);
          GrownIsOnlyMoved(files, files, claimed);
        }
        OnlyMovedStores(old(files), files, claimed);
        forall retained ensures RetainedKept(old(files), files, retained) {
          OnlyMovedClaims(old(files), files, claimed, id, retained);
        }
        OnlyMovedClaims(old(files), files, claimed, id, None);
        return !moved;
      }
      LoggedSame(history);
      forall retained ensures RetainedKept(old(files), files, retained) {
        SameClaims(files, id, retained);
      }
      SameClaims(files, id, None);
      return false;
    }

    /** An interrupted claim is looked for under its claim name, and then under the record's safe name:
        a file that was named otherwise is not found again. */
    method RecoverInterrupted(id: RecordId, report: Report) returns (r: Report, stopped: bool)
      requires Ready() && id < |records| && records[id].status == InProgress
      modifies this
      ensures Ready() && Logged(old(history), history)
      ensures OneRecordChanged(old(records), records, id)
      ensures OtherClaimsSame(old(files), files, ClaimPath(id))
      ensures forall retained :: RetainedKept(old(files), files, retained)
      ensures ProcessedKept(old(files), files) && old(documents) <= documents && records[id].status != Observed
      ensures var claimed, inbox := ClaimPath(id), Path(Inbox, old(records)[id].name);
              && (claimed in old(files) ==> !stopped && Ended(Current(), id, old(files)[claimed]))
              && (claimed !in old(files) && inbox in old(files) && !stopped ==> Ended(Current(), id, old(files)[inbox]))
              && (claimed in old(files) && Quiet(env) ==>
                    (Terminal(records[id].status) <==> settings.accepts(old(files)[claimed].content))
                    && records[id].error != Some(FailureRetention))
      ensures r == if stopped then report else Counted(report, records[id].status, false)
      ensures Quiet(env) ==> !stopped && records[id].status != InProgress && ClaimPath(id) !in files
      ensures Quiet(env) ==>
                (records[id].error == Some(SourceMissing) <==>
                   ClaimPath(id) !in old(files) && Path(Inbox, old(records)[id].name) !in old(files))
      ensures !stopped && records[id].error == Some(SourceMissing) ==> records[id].status == Failed
      ensures NoArrivals(env) && records[id].error == Some(SourceMissing) ==> files == old(files)
      ensures Faulty(env) && RetainsNothing(env)
              && ClaimPath(id) !in old(files) && Path(Inbox, old(records)[id].name) in old(files) ==>
                && files == Moved(old(files), Path(Inbox, old(records)[id].name), ClaimPath(id))
                && records[id].status == Failed && records[id].retained == old(records[id].retained)
      ensures Quiet(env) ==> r.ingested - report.ingested == |documents| - |old(documents)|
    {
      hide Inv, Conserved, Chain, AllInv, Grown, OnlyMoved, OtherClaimsSame, RetainedKept, RetainedOk, ProcessedKept, Ended;
      var claimed, inbox := ClaimPath(id), Path(Inbox, records[id].name);
      LoggedSame(history);
      ProcessedSame(files);
      SameFilesClaims(files, id);
      if claimed !in files && inbox in files {
        ReadyRetained();
        RetainedElsewhere(files, records, {}, inbox, claimed);
        var moved := Move(inbox, claimed);
        if !moved {
          return report, true;
        }
        MovedIn(old(files), files, inbox, id);
        TakenInStores(old(files), files, inbox, id);
      }
      ghost var h, f := history, files;
      ReadyRetained();
      if claimed in files {
        RetainedUnfinished(files, records, id);
        r := IngestClaim(id, claimed, false, report, {id});
        OnlyMovedOthers(f, files, claimed, id);
        OnlyMovedStores(f, files, claimed);
      } else {
        RetainedSame(files, records, {}, id, records[id].(status := Failed, error := Some(SourceMissing)));
        CommitRecord(id, records[id].(status := Failed, error := Some(SourceMissing)));
        GrownClaims(f, files);
        GrownIsOnlyMoved(f, files, claimed);
        OnlyMovedOthers(f, files, claimed, id);
        OnlyMovedStores(f, files, claimed);
        r := report.(failed := report.failed + 1);
      }
      LoggedSplits(old(history), h, history);
      StoresTransitive(old(files), f, files);
      OthersTransitive(old(files), f, files, id);
      return r, false;
    }

    method RecoverClaims(report: Report) returns (r: Report, stopped: bool)
      requires Ready()
      modifies this
      ensures Ready() && Logged(old(history), history)
      ensures |records| == |old(records)| && old(documents) <= documents && ProcessedKept(old(files), files)
      ensures forall id :: 0 <= id < |records| && records[id].status == Observed ==> old(records)[id].status == Observed
      ensures Quiet(env) ==> forall id: nat :: PutAway(old(Current()), settings.accepts, Current(), id)
      ensures (forall id :: 0 <= id < |old(records)| ==> old(records)[id].status == Observed) ==>
                records == old(records) && files == old(files)
      ensures Quiet(env) ==> !stopped && forall id: nat :: Achieved(old(Current()), settings.accepts, files, records, id)
      ensures Quiet(env) ==> r.ingested - report.ingested == |documents| - |old(documents)|
    {
      hide Inv, Conserved, Chain, AllInv, Grown, OnlyMoved, OtherClaimsSame, RetainedKept, Achieved, RetainedOk;
      hide ProcessedKept, PutAway, Recovering, LeftOver, Doubled, Ended, OwnFile, Counted, Quiet;
      ghost var w := Current();
      ghost var accepts := settings.accepts;
      r, stopped := report, false;
      LoggedSame(history);
      ProcessedSame(files);
      ReadyRetained();
      var pending := set id: nat | id < |records| && HasRecord(records, id);
      NoneRecovered(w, accepts, pending);
      while pending != {}
        invariant Ready() && Logged(old(history), history) && |records| == |w.records|
        invariant forall id: nat :: id in pending ==> id < |w.records|
        invariant (forall id :: 0 <= id < |w.records| ==> w.records[id].status == Observed) ==>
                    records == w.records && files == w.files
        invariant w.documents <= documents && ProcessedKept(w.files, files)
        invariant forall id :: 0 <= id < |records| && records[id].status == Observed ==> w.records[id].status == Observed
        invariant Quiet(env) ==> Recovering(w, accepts, Current(), pending)
        invariant Quiet(env) ==> r.ingested - report.ingested == |documents| - |w.documents|
      {
        var id :| id in pending;
        ghost var h, before := history, Current();
        ReadyRetained();
        r, stopped := RecoverClaim(id, r);
        LoggedSplits(old(history), h, history);
        StoresTransitive(w.files, before.files, files);
        if stopped {
          return;
        }
        if Quiet(env) {
          OneRecovered(w, accepts, before, Current(), id, pending);
        }
        pending := pending - {id};
      }
      if Quiet(env) {
        AllRecovered(w, accepts, Current());
      }
    }

    // ---------- the inbox ----------

    method ObservedByName() returns (watch: map<Name, RecordId>)
      ensures Watched(records, watch)
      ensures forall n :: n in watch ==> records[watch[n]].status == Observed
      ensures forall id :: 0 <= id < |records| && records[id].status == Observed ==> records[id].name in watch
    {
      watch := map[];
      for id := 0 to |records|
        invariant Watched(records, watch)
        invariant forall n :: n in watch ==> records[watch[n]].status == Observed
        invariant forall k :: 0 <= k < id && records[k].status == Observed ==> records[k].name in watch
      {
        if records[id].status == Observed {
          watch := watch[records[id].name := id];
        }
      }
    }

    /** The file changed since it was observed: the wait starts again. */
    method Restamp(id: RecordId, name: Name, stamp: Stamp, now: Time)
      requires Ready() && id < |records|
      modifies this`records, this`files, this`tick, this`history
      ensures Ready() && Logged(old(history), history)
      ensures records == old(records)[id := old(records[id]).(key := SourceKey(name, stamp, Some(id)),
                                                              stamp := stamp, stableSince := now)]
      ensures Grown(old(files), files) && (NoArrivals(env) ==> files == old(files))
    {
      hide Inv, Conserved, Chain;
      var record := records[id].(key := SourceKey(name, stamp, Some(id)), stamp := stamp, stableSince := now);
      RestampedRecord(Current(), id, record);
      records := records[id := record];
      SameFilesConserved(history[|history| - 1], Current());
      Settle();
    }

    /** A new file is observed; a second one under the same key gets a key of its own. */
    method Observe(name: Name, safeName: Name, stamp: Stamp, now: Time, taken: bool)
      requires Ready() && (taken <==> KeyTaken(records, SourceKey(name, stamp, None)))
      modifies this`records, this`files, this`tick, this`history
      ensures Ready() && Logged(old(history), history)
      ensures |records| == |old(records)| + 1 && records[..|old(records)|] == old(records)
      ensures JustObserved(records[|old(records)|], safeName, stamp, now)
      ensures records[|old(records)|].key == NewKey(old(records), name, stamp)
      ensures Grown(old(files), files) && (NoArrivals(env) ==> files == old(files))
    {
      hide Inv, Conserved, Chain, KeyTaken;
      var key := SourceKey(name, stamp, if taken then Some(|records|) else None);
      var record := Record(safeName, key, stamp, now, Observed, None, false, 0, None, None);
      AddedRecord(Current(), record);
      records := records + [record];
      SameFilesConserved(history[|history| - 1], Current());
      Settle();
    }

    /** Takes a stable file: the record first, then the file, then its content. The file is moved
        onto its claim name whether or not something is there; `clobbered` says that it was. */
    method Claim(id: RecordId, path: Path, report: Report, ghost others: set<RecordId>) returns (r: Report, clobbered: bool)
      requires Ready() && id < |records| && path in files && path.directory == Inbox
      requires RetainedOk(files, records, others) && id in others
      modifies this
      ensures Ready() && old(history) <= history && (Logged(old(history), history) <==> !clobbered)
      ensures RetainedOk(files, records, others)
      ensures clobbered <==> ClaimPath(id) in old(files) && !env.moveFails(old(tick) + 1, Processing)
      ensures OneRecordChanged(old(records), records, id)
      ensures ProcessedKept(old(files), files) && RetainedKept(old(files), files, None) && old(documents) <= documents
      ensures if env.moveFails(old(tick) + 1, Processing) then
                records[id] == old(records[id]).(status := Failed, error := Some(ClaimMove))
              else records[id].attempts == old(records[id].attempts) + 1 && Ended(Current(), id, old(files)[path])
      ensures r == Counted(report, records[id].status, false)
      ensures Quiet(env) ==> (Terminal(records[id].status) <==> settings.accepts(old(files)[path].content))
                             && records[id].error != Some(FailureRetention)
      ensures OtherClaimsSame(old(files), files, ClaimPath(id)) && InboxKept(old(files), files, path)
      ensures Quiet(env) ==> records[id].status != InProgress && ClaimPath(id) !in files
      ensures Faulty(env) && Retains(env) ==>
                records[id].status == Failed && HasRetained(files, records[id], old(files)[path]) && ClaimPath(id) !in files
      ensures Faulty(env) && RetainsNothing(env) ==> files == Moved(old(files), path, ClaimPath(id))
      ensures Quiet(env) ==> r.ingested - report.ingested == |documents| - |old(documents)|
    {
      hide Inv, Conserved, Chain, AllInv, Grown, OnlyMoved, OtherClaimsSame, InboxKept, RetainedOk, Moved, HasRetained, Committed;
      hide ProcessedKept, RetainedKept, Ended;
      var claimed := ClaimPath(id);
      var moved;
      moved, clobbered := TakeFile(id, path, others);
      if !moved {
        return report.(failed := report.failed + 1), false;
      }
      ghost var h, f := history, files;
      r := IngestClaim(id, claimed, false, report, others);
      LoggedSplits(old(history), h, history);
      OnlyMovedOthers(f, files, claimed, id);
      OnlyMovedInbox(f, files, claimed, path);
      FramesTransitive(old(files), f, files, id, path);
      OnlyMovedStores(f, files, claimed);
      StoresTransitive(old(files), f, files);
    }

    /** The first half of `Claim`: marks the record and moves the file, or fails the record. */
    method TakeFile(id: RecordId, path: Path, ghost others: set<RecordId>) returns (moved: bool, clobbered: bool)
      requires Ready() && id < |records| && path in files && path.directory == Inbox
      requires RetainedOk(files, records, others) && id in others
      modifies this`records, this`files, this`tick, this`history
      ensures Ready() && old(history) <= history && (Logged(old(history), history) <==> !clobbered)
      ensures RetainedOk(files, records, others) && OneRecordChanged(old(records), records, id)
      ensures moved <==> !env.moveFails(old(tick) + 1, Processing)
      ensures clobbered <==> ClaimPath(id) in old(files) && moved
      ensures OtherClaimsSame(old(files), files, ClaimPath(id)) && InboxKept(old(files), files, path)
      ensures ProcessedKept(old(files), files) && RetainedKept(old(files), files, None)
      ensures records[id] == if moved then old(records[id]).(status := InProgress)
                             else old(records[id]).(status := Failed, error := Some(ClaimMove))
      ensures moved ==> ClaimPath(id) in files && files[ClaimPath(id)] == old(files)[path]
      ensures moved && NoArrivals(env) ==> files == Moved(old(files), path, ClaimPath(id))
    {
      hide Inv, Conserved, Chain, AllInv, Grown, OnlyMoved, OtherClaimsSame, InboxKept, RetainedOk, Moved;
      hide ProcessedKept, RetainedKept;
      RetainedSame(files, records, others, id, records[id].(status := InProgress));
      CommitRecord(id, records[id].(status := InProgress));
      RetainedGrown(old(files), files, records, others);
      GrownHas(old(files), files, path);
      GrownOthers(old(files), files, id);
      GrownInbox(old(files), files, path);
      GrownKeepsStores(old(files), files);
      ghost var h, f := history, files;
      var claimed := ClaimPath(id);
      clobbered := claimed in files;
      RetainedElsewhere(files, records, others, path, claimed);
      moved := Move(path, claimed);
      clobbered := clobbered && moved;
      LoggedSplits(old(history), h, history);
      if moved {
        RetainedGrown(Moved(f, path, claimed), files, records, others);
        ClaimedFile(f, files, path, id);
        FramesTransitive(old(files), f, files, id, path);
        TakenInStores(f, files, path, id);
        StoresTransitive(old(files), f, files);
      } else {
        ghost var h1, f1 := history, files;
        RetainedSame(files, records, others, id, records[id].(status := Failed, error := Some(ClaimMove)));
        CommitRecord(id, records[id].(status := Failed, error := Some(ClaimMove)));
        RetainedGrown(f1, files, records, others);
        LoggedSplits(old(history), h1, history);
        GrownOthers(f1, files, id);
        GrownInbox(f1, files, path);
        FramesTransitive(old(files), f1, files, id, path);
        GrownKeepsStores(f1, files);
        StoresTransitive(old(files), f1, files);
      }
    }

    method FindKey(key: SourceKey) returns (found: Option<RecordId>)
      ensures found.Some? ==> found.value < |records| && records[found.value].key == key
      ensures found.None? ==> !KeyTaken(records, key)
    {
      for i := 0 to |records|
        invariant forall k :: 0 <= k < i ==> records[k].key != key
      {
        if records[i].key == key {
          return Some(i);
        }
      }
      return None;
    }

    /** What a pass does with one file of the inbox. */
    method ScanPath(path: Path, now: Time, watch: map<Name, RecordId>, report: Report, ghost others: set<RecordId>)
      returns (watch': map<Name, RecordId>, r: Report, clobbered: bool)
      requires Ready() && Watched(records, watch) && path in files && path.directory == Inbox
      requires RetainedOk(files, records, others) && forall n :: n in watch ==> watch[n] in others
      modifies this
      ensures Ready() && old(history) <= history && (Logged(old(history), history) <==> !clobbered)
      ensures var name := settings.safe(path.name);
              var id := if name in watch then watch[name] else |old(records)|;
              && Scanned(settings, now, old(Current()), watch, path, records, watch')
              && (clobbered <==> Claims(settings, now, old(Current()), watch, path)
                                 && ClaimPath(id) in old(files) && !env.moveFails(old(tick) + 1, Processing))
              && ProcessedKept(old(files), files) && RetainedKept(old(files), files, None) && old(documents) <= documents
              && (Quiet(env) && Claims(settings, now, old(Current()), watch, path) ==>
                    Filed(old(files)[path], settings.accepts, Current()))
              && RetainedOk(files, records, others + {id})
              && OtherClaimsSame(old(files), files, ClaimPath(id)) && InboxKept(old(files), files, path)
              && (Quiet(env) && ClaimPath(id) !in old(files) ==> ClaimPath(id) !in files)
              && (Quiet(env) && id < |old(records)| && old(records)[id].status != InProgress ==> records[id].status != InProgress)
              && (NoArrivals(env) && !Claims(settings, now, old(Current()), watch, path) ==> files == old(files))
              && (Faulty(env) && Claims(settings, now, old(Current()), watch, path) ==>
                    && (Retains(env) ==> records[id].status == Failed && HasRetained(files, records[id], old(files)[path])
                                         && ClaimPath(id) !in files)
                    && (RetainsNothing(env) ==> files == Moved(old(files), path, ClaimPath(id))))
      ensures var name, stamp := settings.safe(path.name), old(files)[path].stamp;
              if settings.ignored(path.name) || (name !in watch && FailedKey(old(records), SourceKey(path.name, stamp, None)))
              then r == report
              else if name !in watch || old(records)[watch[name]].stamp != stamp
                   || now - old(records)[watch[name]].stableSince < settings.stability
              then r == report.(observed := report.observed + 1)
              else r == Counted(report, records[watch[name]].status, false)
                   && (records[watch[name]].error == Some(ClaimMove)
                       || records[watch[name]].attempts == old(records)[watch[name]].attempts + 1)
      ensures Quiet(env) ==> r.ingested - report.ingested == |documents| - |old(documents)|
    {
      hide Inv, Conserved, Chain, AllInv, Grown, OnlyMoved, OtherClaimsSame, InboxKept, KeyTaken, RetainedOk;
      hide ProcessedKept, RetainedKept, Ended, Filed;
      watch', r, clobbered := watch, report, false;
      var name, stamp := settings.safe(path.name), files[path].stamp;
      ghost var id := if name in watch then watch[name] else |records|;
      LoggedSame(history);
      GrownSame(files);
      GrownOthers(files, files, id);
      GrownInbox(files, files, path);
      GrownKeepsStores(files, files);
      RetainedMore(files, records, others, id);
      if settings.ignored(path.name) {
        return;
      }
      if name in watch && records[watch[name]].stamp != stamp {
        Restamp(watch[name], path.name, stamp, now);
        GrownOthers(old(files), files, id);
        GrownInbox(old(files), files, path);
        GrownKeepsStores(old(files), files);
        RetainedSame(old(files), old(records), others + {id}, id, records[id]);
        RetainedGrown(old(files), files, records, others + {id});
        r := report.(observed := report.observed + 1);
      } else if name !in watch {
        var existing := FindKey(SourceKey(path.name, stamp, None));
        ReadyKeys();
        KeyFound(records, SourceKey(path.name, stamp, None), existing);
        if existing.Some? && records[existing.value].status == Failed {
          return;
        }
        watch' := watch[name := |records|];
        Observe(path.name, name, stamp, now, existing.Some?);
        GrownOthers(old(files), files, id);
        GrownInbox(old(files), files, path);
        GrownKeepsStores(old(files), files);
        RetainedAdded(old(files), old(records), records, others);
        RetainedGrown(old(files), files, records, others + {id});
        r := report.(observed := report.observed + 1);
      } else if now - records[watch[name]].stableSince < settings.stability {
        r := report.(observed := report.observed + 1);
      } else {
        r, clobbered := Claim(watch[name], path, report, others + {id});
        if Quiet(env) {
          EndedFiled(Current(), id, old(files)[path], settings.accepts);
        }
      }
    }

    lemma ReadyKeys()
      requires Ready()
      ensures KeysOk(records)
    {
    }

    lemma ReadyClaimsFree()
      requires Ready()
      ensures forall id :: 0 <= id < |records| && records[id].status == Observed ==> ClaimPath(id) !in files
      ensures forall id: nat :: id >= |records| ==> ClaimPath(id) !in files
    {
    }

    /** Between two files of a scan: what was watched is known, and what is left is as it was. */
    ghost predicate Scanning(start: map<Path, File>, visited: set<Path>, left: set<Path>,
                             watch: map<Name, RecordId>, others: set<RecordId>)
      reads this
    {
      && Ready() && Watched(records, watch)
      && RetainedOk(files, records, others) && (forall n :: n in watch ==> watch[n] in others)
      && (forall p :: p in left ==> p.directory == Inbox && p in start && p in files && files[p] == start[p])
      && (forall n :: n in watch && records[watch[n]].status != Observed ==>
            Visited(start, settings, visited, n, records[watch[n]].stamp))
      && (Quiet(env) ==> forall n :: n in watch ==> ClaimPath(watch[n]) !in files)
    }

    method StartScan() returns (watch: map<Name, RecordId>, ghost others: set<RecordId>)
      requires Ready()
      ensures Scanning(files, {}, InboxOf(files), watch, others)
      ensures forall n :: n in watch ==> watch[n] < |records| && records[watch[n]].status == Observed
    {
      hide Inv, AllInv, RetainedOk, Visited;
      watch := ObservedByName();
      others := Ids(watch);
      ReadyRetained();
      RetainedObserved(files, records, others);
      ReadyClaimsFree();
    }

    /** Goes through the inbox as it is when the scan starts, and overwrites exactly when one of its claims
        does: that needs two files that the scan takes for one, and an earlier move that failed. */
    method Scan(now: Time, report: Report, ghost w: World) returns (r: Report, clobbered: bool, ghost glances: seq<Glance>)
      requires Ready()
      requires Quiet(env) ==> forall id: nat :: Achieved(w, settings.accepts, files, records, id)
      modifies this
      ensures Ready() && old(history) <= history && (Logged(old(history), history) <==> !clobbered)
      ensures GlancesAt(old(files), history, InboxOf(old(files)), glances)
      ensures clobbered <==> AnyOverwrites(settings, env, now, glances)
      ensures clobbered ==> !Quiet(env) && Colliding(old(files), settings)
      ensures Quiet(env) ==> forall id: nat :: Achieved(w, settings.accepts, files, records, id)
      ensures OthersStay(old(Current()), Current(), {})
      ensures Quiet(env) ==> AllFiled(settings, now, glances, Current())
      ensures Quiet(env) ==> r.ingested - report.ingested == |documents| - |old(documents)|
    {
      hide Inv, Conserved, Chain, AllInv, Achieved, RetainedOk, Visited, Colliding, GlancesAt, AnyOverwrites, Overwrites;
      hide OthersStay, AllFiled, Filed, Claims, Touched;
      ghost var w0 := Current();
      var watch;
      ghost var others, start := {}, files;
      watch, others := StartScan();
      var left := InboxOf(files);
      ghost var visited: set<Path> := {};
      r, clobbered, glances := report, false, [];
      LoggedSame(history);
      NoGlances(settings, env, now, start, history);
      AllStay(w0, settings, now, watch);
      while left != {}
        invariant Scanning(start, visited, left, watch, others) && visited !! left && visited + left == InboxOf(start)
        invariant GlancesAt(start, history, visited, glances)
        invariant clobbered <==> AnyOverwrites(settings, env, now, glances)
        invariant old(history) <= history && (Logged(old(history), history) <==> !clobbered)
        invariant clobbered ==> !Quiet(env) && Colliding(start, settings)
        invariant Quiet(env) ==> forall id: nat :: Achieved(w, settings.accepts, files, records, id)
        invariant OthersStay(w0, Current(), Ids(watch))
        invariant Quiet(env) ==> AllFiled(settings, now, glances, Current())
        invariant Quiet(env) ==> r.ingested - report.ingested == |documents| - |old(documents)|
      {
        var path :| path in left;
        left := left - {path};
        ghost var h, glance := history, Glance(Current(), watch, path, tick);
        var overwritten;
        watch, r, overwritten, others := ScanNext(path, now, watch, r, others, start, visited, left, w);
        OneMoreGlance(settings, env, now, start, h, history, visited, glances, glance);
        MoreStay(w0, glance.world, Current(), settings, glance.watch, watch, path);
        if Quiet(env) {
          OneMoreFiled(settings, now, glances, glance, Current());
        }
        visited, glances := visited + {path}, glances + [glance];
        LoggedSplits(old(history), h, history);
        clobbered := clobbered || overwritten;
      }
      NoneWatched(w0, Current(), Ids(watch));
    }

    method ScanNext(path: Path, now: Time, watch: map<Name, RecordId>, report: Report, ghost others: set<RecordId>,
                    ghost start: map<Path, File>, ghost visited: set<Path>, ghost left: set<Path>, ghost w: World)
      returns (watch': map<Name, RecordId>, r: Report, clobbered: bool, ghost others': set<RecordId>)
      requires Scanning(start, visited, left + {path}, watch, others) && path !in visited && path !in left
      requires Quiet(env) ==> forall id: nat :: Achieved(w, settings.accepts, files, records, id)
      modifies this
      ensures Scanning(start, visited + {path}, left, watch', others')
      ensures clobbered <==> old(Overwrites(settings, env, now, Glance(Current(), watch, path, tick)))
      ensures ProcessedKept(old(files), files) && RetainedKept(old(files), files, None) && old(documents) <= documents
      ensures var name := settings.safe(path.name);
              var id := if name in watch then watch[name] else |old(records)|;
              Touched(old(records), records, id, name) && (watch' == watch || (name !in watch && watch' == watch[name := id]))
      ensures path in old(files)
      ensures Quiet(env) && Claims(settings, now, old(Current()), watch, path) ==>
                Filed(old(files)[path], settings.accepts, Current())
      ensures old(history) <= history && (Logged(old(history), history) <==> !clobbered)
      ensures clobbered ==> !Quiet(env) && Colliding(start, settings)
      ensures Quiet(env) ==> forall id: nat :: Achieved(w, settings.accepts, files, records, id)
      ensures Quiet(env) ==> r.ingested - report.ingested == |documents| - |old(documents)|
    {
      hide Inv, Conserved, Chain, AllInv, OtherClaimsSame, InboxKept, Achieved, Scanned, Claims, RetainedOk, Visited, Colliding;
      hide Moved, HasRetained, Grown, ProcessedKept, RetainedKept, Filed, Ended, Counted;
      assert path in left + {path};
      ghost var before := Current();
      ghost var name := settings.safe(path.name);
      ghost var id := if name in watch then watch[name] else |records|;
      ReadyClaimsFree();
      watch', r, clobbered := ScanPath(path, now, watch, report, others);
      others' := others + {id};
      ScannedTouches(settings, now, before, watch, path, records, watch');
      if Claims(settings, now, before, watch, path) {
        ClaimsSameStamp(settings, now, before, watch, path);
      }
      if clobbered {
        VisitedCollides(start, settings, visited, path, name);
      }
      ReadyClaimsFree();
      StillVisited(settings, now, before, watch, path, records, watch', start, visited);
      InboxStays(before.files, files, path, left);
      if Quiet(env) {
        WatchedClaimsFree(before, files, records, watch, watch', id, name);
        forall other: nat ensures Achieved(w, settings.accepts, files, records, other) {
          ScanAchieves(w, before, settings.accepts, files, records, id, name, other);
        }
      }
    }

    /** Whatever happens, files are conserved up to any point before which no files collided. */
    method ProcessConsumeOnce(enabled: bool, now: Time)
      returns (r: Report, stopped: bool, clobbered: bool, ghost glances: seq<Glance>)
      requires Ready()
      modifies this
      ensures Ready() && old(history) <= history && (Logged(old(history), history) <==> !clobbered)
      ensures !enabled ==> r == NOTHING && !stopped && history == old(history)
      ensures clobbered ==> !Quiet(env)
      ensures clobbered <==> AnyOverwrites(settings, env, now, glances)
      ensures forall g :: g in glances ==> g.world in history && g.path in g.world.files
      ensures forall cut :: |old(history)| <= cut <= |history| && NoneCollide(history[..cut], settings) ==>
                Logged(old(history), history[..cut])
      ensures enabled && Quiet(env) ==>
                !stopped && forall id: nat :: Achieved(old(Current()), settings.accepts, files, records, id)
      ensures enabled && Quiet(env) ==> forall id: nat :: PutAway(old(Current()), settings.accepts, Current(), id)
      ensures enabled && Quiet(env) ==> AllFiled(settings, now, glances, Current())
      ensures enabled && !stopped ==>
                exists w :: w in history && GlancesAt(w.files, history, InboxOf(w.files), glances)
      ensures Quiet(env) ==> r.ingested == |documents| - |old(documents)|
    {
      hide Inv, Conserved, Chain, AllInv, Achieved, Colliding, Overwrites, PutAway, AllFiled;
      r, stopped, clobbered, glances := NOTHING, false, false, [];
      LoggedSame(history);
      if !enabled {
        assert history[..|history|] == history;
        return;
      }
      r, stopped := RecoverClaims(r);
      ghost var h, recovered := history, Current();
      LoggedPrefixes(old(history), h, h, settings);
      if stopped {
        return;
      }
      r, clobbered, glances := Scan(now, r, old(Current()));
      assert recovered in history;
      if Quiet(env) {
        forall id: nat ensures PutAway(old(Current()), settings.accepts, Current(), id) {
          PutAwayStays(old(Current()), settings.accepts, recovered, Current(), id);
        }
      }
      LoggedSplits(old(history), h, history);
      LoggedPrefixes(old(history), h, history, settings);
    }
  }
}
