/** Polling a mailbox: apps/api/pdi/external/mail.py, commit by commit. */
module MailSources {
  import opened Common
  import opened Mail

  /** What happens around the `n`-th commit or fetch, and how the server orders its answers. */
  datatype Conditions = Conditions(
    breaks: nat -> bool,
    dies: nat -> bool,
    drops: nat -> bool,
    list: set<Uid> -> seq<Uid>)

  ghost predicate Lists(c: Conditions) {
    forall uids, u :: u in c.list(uids) <==> u in uids
  }

  ghost predicate ListsAscending(c: Conditions) { Lists(c) && forall uids :: Ascending(c.list(uids)) }

  ghost predicate Alive(c: Conditions) { forall n: nat :: !c.dies(n) }

  /** Nothing goes wrong with the commits. */
  ghost predicate Steady(c: Conditions) { forall n: nat :: !c.dies(n) && !c.breaks(n) }

  ghost predicate Connected(c: Conditions) { forall n: nat :: !c.drops(n) }

  datatype Report = Report(ingested: nat, duplicates: nat, unsupported: nat, failed: nat, retried: nat, messages: nat)

  const NOTHING := Report(0, 0, 0, 0, 0, 0)

  function Plus(a: Report, b: Report): Report {
    Report(a.ingested + b.ingested, a.duplicates + b.duplicates, a.unsupported + b.unsupported,
           a.failed + b.failed, a.retried + b.retried, a.messages + b.messages)
  }

  /** A record that a poll leaves alone. */
  predicate Final(r: Record) { Terminal(r.status) || (r.status == Failed && !r.retry) }

  /** Each supported attachment has its record, which a poll leaves alone from now on. */
  predicate Finished(records: map<Key, Record>, m: Message) {
    forall i: nat :: i < |m.attachments| && m.attachments[i].supported ==>
      KeyOf(m, i) in records && Final(records[KeyOf(m, i)])
  }

  /** Records are as they were, but for a request, or ingested exactly if their content is acceptable. */
  predicate AsAccepted(rs: map<Key, Record>, rs': map<Key, Record>, accepts: Content -> bool) {
    forall k :: k in rs' ==>
      || (k in rs && (rs'[k] == rs[k] || rs'[k] == rs[k].(retry := false)))
      || (Terminal(rs'[k].status) <==> accepts(k.content))
  }

  // ---------- what is counted ----------

  datatype Counter = AsIngested | AsDuplicate | AsUnsupported | AsFailed | AsRetried

  /** An attachment counts as ingested when its record became so, and as a duplicate when it was so before
      or its content was there. */
  predicate CountedAs(rs: map<Key, Record>, rs': map<Key, Record>, m: Message, i: nat, counter: Counter)
    requires i < |m.attachments|
  {
    var k := KeyOf(m, i);
    if !m.attachments[i].supported then counter == AsUnsupported
    else
      && k in rs'
      && match counter
         case AsUnsupported => false
         case AsIngested => rs'[k].status == Ingested && !(k in rs && rs[k].status == Ingested)
         case AsDuplicate => rs'[k].status == Duplicate || (rs'[k].status == Ingested && k in rs && rs[k].status == Ingested)
         case AsFailed => rs'[k].status == Failed
         case AsRetried => k in rs && rs[k].retry && !Terminal(rs[k].status) && Terminal(rs'[k].status)
  }

  function Tally(rs: map<Key, Record>, rs': map<Key, Record>, m: Message, n: nat, counter: Counter): nat
    requires n <= |m.attachments|
  {
    if n == 0 then 0
    else Tally(rs, rs', m, n - 1, counter) + if CountedAs(rs, rs', m, n - 1, counter) then 1 else 0
  }

  function Tallies(rs: map<Key, Record>, rs': map<Key, Record>, m: Message, n: nat): Report
    requires n <= |m.attachments|
  {
    Report(Tally(rs, rs', m, n, AsIngested), Tally(rs, rs', m, n, AsDuplicate), Tally(rs, rs', m, n, AsUnsupported),
           Tally(rs, rs', m, n, AsFailed), Tally(rs, rs', m, n, AsRetried), 1)
  }

  lemma {:induction false} EachCountedOnce(rs: map<Key, Record>, rs': map<Key, Record>, m: Message, n: nat)
    requires n <= |m.attachments| && Finished(rs', m)
    ensures var r := Tallies(rs, rs', m, n); r.ingested + r.duplicates + r.unsupported + r.failed == n
  {
    if n > 0 { EachCountedOnce(rs, rs', m, n - 1); }
  }

  /** One of the first four counters, and for a retry that succeeds also the fifth. */
  function AfterTry(report: Report, status: Status, again: bool): Report {
    match status
    case InProgress => report
    case Failed => report.(failed := report.failed + 1)
    case Duplicate => report.(duplicates := report.duplicates + 1, retried := report.retried + if again then 1 else 0)
    case Ingested => report.(ingested := report.ingested + 1, retried := report.retried + if again then 1 else 0)
  }

  lemma PassedIsCounted(report: Report, rs: map<Key, Record>, rs': map<Key, Record>, m: Message, i: nat)
    requires i < |m.attachments| && SameAt(rs, rs', KeyOf(m, i))
    ensures var k := KeyOf(m, i);
            OneCounted(report, rs, rs', m, i) ==
              if !m.attachments[i].supported then report.(unsupported := report.unsupported + 1)
              else if k in rs' && Terminal(rs'[k].status) then report.(duplicates := report.duplicates + 1)
              else if k in rs' && rs'[k].status == Failed then report.(failed := report.failed + 1)
              else report
  {
  }

  lemma TriedIsCounted(report: Report, rs: map<Key, Record>, rs': map<Key, Record>, m: Message, i: nat)
    requires i < |m.attachments| && m.attachments[i].supported && KeyOf(m, i) in rs'
    requires KeyOf(m, i) in rs ==> !Terminal(rs[KeyOf(m, i)].status)
    ensures var k := KeyOf(m, i);
            OneCounted(report, rs, rs', m, i) == AfterTry(report, rs'[k].status, k in rs && rs[k].retry)
  {
  }

  function OneCounted(report: Report, rs: map<Key, Record>, rs': map<Key, Record>, m: Message, i: nat): Report
    requires i < |m.attachments|
  {
    Report(report.ingested + if CountedAs(rs, rs', m, i, AsIngested) then 1 else 0,
           report.duplicates + if CountedAs(rs, rs', m, i, AsDuplicate) then 1 else 0,
           report.unsupported + if CountedAs(rs, rs', m, i, AsUnsupported) then 1 else 0,
           report.failed + if CountedAs(rs, rs', m, i, AsFailed) then 1 else 0,
           report.retried + if CountedAs(rs, rs', m, i, AsRetried) then 1 else 0, report.messages)
  }

  predicate SameAt(rs: map<Key, Record>, rs': map<Key, Record>, k: Key) {
    (k in rs <==> k in rs') && (k in rs ==> rs'[k] == rs[k])
  }

  lemma {:induction false} TallySame(rs: map<Key, Record>, rs': map<Key, Record>, rs'': map<Key, Record>, m: Message, n: nat,
                                     counter: Counter)
    requires n <= |m.attachments|
    requires forall k: Key :: k.index < n ==> SameAt(rs', rs'', k)
    ensures Tally(rs, rs'', m, n, counter) == Tally(rs, rs', m, n, counter)
  {
    if n > 0 { TallySame(rs, rs', rs'', m, n - 1, counter); }
  }

  lemma TalliesSame(rs: map<Key, Record>, rs': map<Key, Record>, rs'': map<Key, Record>, m: Message, n: nat)
    requires n <= |m.attachments|
    requires forall k: Key :: k.index != n ==> SameAt(rs', rs'', k)
    ensures Tallies(rs, rs'', m, n) == Tallies(rs, rs', m, n)
  {
    hide Tally;
    forall counter ensures Tally(rs, rs'', m, n, counter) == Tally(rs, rs', m, n, counter) {
      TallySame(rs, rs', rs'', m, n, counter);
    }
  }

  predicate Backed(records: map<Key, Record>, documents: set<Content>) {
    forall k :: k in records && Terminal(records[k].status) ==> k.content in documents
  }

  /** Records stay, final ones unchanged, no retry is asked for, and none is newly in progress but
      the one at which the process died. */
  predicate Progress(rs: map<Key, Record>, rs': map<Key, Record>, died: Option<Key>) {
    && (forall k :: k in rs ==> k in rs' && (Final(rs[k]) ==> rs'[k] == rs[k]))
    && (forall k :: k in rs' && rs'[k].retry ==> k in rs && rs'[k] == rs[k])
    && (forall k :: k in rs' && rs'[k].status == InProgress ==> died == Some(k) || (k in rs && rs[k].status == InProgress))
    && (died.Some? ==> died.value in rs' && rs'[died.value].status == InProgress && (died.value in rs ==> !Final(rs[died.value])))
  }

  /** A retry at which the process died: it was decided, and no longer is. */
  function LostRetry(rs: map<Key, Record>, died: Option<Key>): set<Key> {
    if died.Some? && died.value in rs && rs[died.value].retry then {died.value} else {}
  }

  /** The record names the message of the mailbox that it was processed for. */
  predicate Named(r: Record, k: Key, m: Mailbox) {
    r.validity == m.validity && r.uid in m.messages && HasKey(m.messages[r.uid], k)
  }

  predicate Wanted(r: Record, validity: nat) {
    r.status == Failed && r.retry && r.validity == validity && validity > 0 && r.uid > 0
  }

  function RequestedUids(records: map<Key, Record>, validity: nat): set<Uid> {
    set k | k in records && Wanted(records[k], validity) :: records[k].uid
  }

  /** Requests of another numbering are dropped. */
  function Unrequested(r: Record, validity: nat): Record {
    if r.status == Failed && r.retry && (r.validity != validity || validity == 0) then r.(retry := false) else r
  }

  class MailSource {
    const limit: nat
    const accepts: Content -> bool
    var cursor: Uid
    var validity: nat
    var records: map<Key, Record>
    var documents: set<Content>
    var tick: nat

    constructor (limit: nat, accepts: Content -> bool, m: Mailbox)
      requires m.Valid()
      ensures this.limit == limit && this.accepts == accepts
      ensures Numbered(cursor, validity, m)
      ensures Covered(records, cursor, validity, m) && AllDecidedBut(records, cursor, validity, m, {})
      ensures cursor == 0 && validity == 0 && records == map[] && documents == {}
      ensures Backed(records, documents)
    {
      this.limit, this.accepts := limit, accepts;
      cursor, validity, records, documents, tick := 0, 0, map[], {}, 0;
    }

    // ---------- one message ----------

    /** Marks the attachment, ingests it, and marks the outcome; `stopped` when the process died between. */
    method ProcessAttachment(k: Key, uid: Uid, uidValidity: nat, c: Conditions, report: Report)
      returns (r: Report, stopped: bool)
      requires k !in records || !Final(records[k])
      requires Backed(records, documents)
      modifies this`records, this`documents, this`tick
      ensures records.Keys == old(records).Keys + {k}
      ensures forall other :: other in records && other != k ==> records[other] == old(records)[other]
      ensures Backed(records, documents) && DocumentsGrow(old(documents), documents, accepts)
      ensures Alive(c) ==> !stopped
      ensures var first := old(tick) + 1;
              var tried := !c.dies(first) && accepts(k.content) && !c.breaks(first);
              && (stopped <==> c.dies(first) || (tried && c.dies(first + 1)))
              && documents == (if tried then old(documents) + {k.content} else old(documents))
              && records[k] == Record(if stopped then InProgress
                                      else if !tried || c.breaks(first + 1) then Failed
                                      else if k.content in old(documents) then Duplicate else Ingested,
                                      false, uid, uidValidity,
                                      if k in old(records) then old(records)[k].attempts + 1 else 1)
      ensures r == AfterTry(report, records[k].status, k in old(records) && old(records)[k].retry)
    {
      hide Backed, DocumentsGrow, Alive, Final;
      var again := k in records && records[k].retry;
      var attempts := if k in records then records[k].attempts + 1 else 1;
      var record := Record(InProgress, false, uid, uidValidity, attempts);
      records := records[k := record];
      BackedStays(old(records), records, documents, documents, k, accepts);
      tick := tick + 1;
      AliveAt(c, tick);
      if c.dies(tick) {
        return report, true;
      }
      var status := Failed;
      if accepts(k.content) && !c.breaks(tick) {
        var duplicate := k.content in documents;
        documents := documents + {k.content};
        BackedStays(old(records), records, old(documents), documents, k, accepts);
        tick := tick + 1;
        AliveAt(c, tick);
        if c.dies(tick) {
          return report, true;
        }
        if !c.breaks(tick) {
          status := if duplicate then Duplicate else Ingested;
        }
      }
      records := records[k := record.(status := status)];
      BackedStays(old(records), records, old(documents), documents, k, accepts);
      if status == Failed {
        return report.(failed := report.failed + 1), false;
      }
      r := if status == Duplicate then report.(duplicates := report.duplicates + 1)
           else report.(ingested := report.ingested + 1);
      return if again then r.(retried := r.retried + 1) else r, false;
    }

    method ProcessMessage(m: Message, uid: Uid, uidValidity: nat, c: Conditions)
      returns (r: Report, stopped: bool, ghost died: Option<Key>)
      requires Backed(records, documents)
      modifies this`records, this`documents, this`tick
      ensures Backed(records, documents) && DocumentsGrow(old(documents), documents, accepts)
      ensures Progress(old(records), records, died) && (stopped <==> died.Some?)
      ensures OnlyOf(old(records), records, m, uid, uidValidity)
      ensures Alive(c) ==> !stopped
      ensures !stopped ==> Decided(records, m) && Finished(records, m)
      ensures !stopped ==> r == Tallies(old(records), records, m, |m.attachments|)
      ensures !stopped ==> r.ingested + r.duplicates + r.unsupported + r.failed == |m.attachments|
      ensures Steady(c) ==> !stopped && AsAccepted(old(records), records, accepts)
                            && r.ingested == |documents| - |old(documents)|
    {
      hide Backed, Progress, OnlyOf, DocumentsGrow, Tally, AsAccepted, Steady, Alive, CountedAs;
      SteadyIsAlive(c);
      NothingTallied(records, m, accepts);
      r, stopped, died := NOTHING.(messages := 1), false, None;
      SameProgress(records, documents, accepts);
      for i := 0 to |m.attachments|
        invariant died == None && !stopped
        invariant Backed(records, documents) && DocumentsGrow(old(documents), documents, accepts)
        invariant Progress(old(records), records, None) && OnlyOf(old(records), records, m, uid, uidValidity)
        invariant forall j: nat :: j < i && m.attachments[j].supported ==>
                    KeyOf(m, j) in records && Final(records[KeyOf(m, j)])
        invariant forall j: nat :: i <= j < |m.attachments| ==> SameAt(old(records), records, KeyOf(m, j))
        invariant r == Tallies(old(records), records, m, i)
        invariant Steady(c) ==> AsAccepted(old(records), records, accepts) && r.ingested == |documents| - |old(documents)|
      {
        ghost var before, had, tallied := records, documents, r;
        r, stopped := ProcessPart(m, i, uid, uidValidity, c, r, old(records));
        died := if stopped then Some(KeyOf(m, i)) else None;
        DocumentsGrowOn(old(documents), had, documents, accepts);
        if stopped {
          return;
        }
        if Steady(c) {
          AsAcceptedOn(old(records), before, records, accepts);
        }
        OneMoreTallied(old(records), before, records, m, i, tallied, r);
        assert forall j: nat :: j < |m.attachments| && j != i ==> SameAt(before, records, KeyOf(m, j));
      }
      EachCountedOnce(old(records), records, m, |m.attachments|);
    }

    /** One attachment: passed over, counted by what its record says already, or ingested. */
    method ProcessPart(m: Message, i: nat, uid: Uid, uidValidity: nat, c: Conditions, report: Report, ghost start: map<Key, Record>)
      returns (r: Report, stopped: bool)
      requires Backed(records, documents) && i < |m.attachments| && SameAt(start, records, KeyOf(m, i))
      requires Progress(start, records, None) && OnlyOf(start, records, m, uid, uidValidity)
      modifies this`records, this`documents, this`tick
      ensures Backed(records, documents) && DocumentsGrow(old(documents), documents, accepts)
      ensures Progress(start, records, if stopped then Some(KeyOf(m, i)) else None)
      ensures OnlyOf(start, records, m, uid, uidValidity)
      ensures forall k :: k != KeyOf(m, i) ==> SameAt(old(records), records, k)
      ensures Alive(c) ==> !stopped
      ensures !stopped && m.attachments[i].supported ==> KeyOf(m, i) in records && Final(records[KeyOf(m, i)])
      ensures !stopped ==> r == OneCounted(report, start, records, m, i)
      ensures Steady(c) ==> !stopped && AsAccepted(old(records), records, accepts)
                            && r.ingested - report.ingested == |documents| - |old(documents)|
    {
      hide Backed, Progress, OnlyOf, DocumentsGrow, AsAccepted, Steady, Alive, OneCounted;
      SteadyIsAlive(c);
      AsBefore(records, accepts);
      SameProgress(records, documents, accepts);
      PassedIsCounted(report, start, records, m, i);
      var k := KeyOf(m, i);
      stopped := false;
      if !m.attachments[i].supported {
        r := report.(unsupported := report.unsupported + 1);
      } else if k in records && Terminal(records[k].status) {
        r := report.(duplicates := report.duplicates + 1);
      } else if k in records && records[k].status == Failed && !records[k].retry {
        r := report.(failed := report.failed + 1);
      } else {
        ghost var before, first := records, tick + 1;
        SteadyAt(c, first);
        SteadyAt(c, first + 1);
        OneMoreDocument(documents, k.content);
        r, stopped := ProcessAttachment(k, uid, uidValidity, c, report);
        AttachmentDone(start, before, records, m, i, uid, uidValidity, if stopped then Some(k) else None);
        TriedIsCounted(report, start, records, m, i);
        if Steady(c) {
          OneMoreAsAccepted(before, before, records, k, accepts);
        }
      }
    }

    // ---------- one poll ----------

    /** The messages to retry; requests made under another numbering are dropped. */
    method RetryUids() returns (uids: seq<Uid>)
      modifies this`records
      ensures forall u :: u in uids <==> u in RequestedUids(old(records), validity)
      ensures forall u :: u in uids <==>
                exists k :: && k in old(records) && old(records)[k].status == Failed && old(records)[k].retry
                            && old(records)[k].uid == u > 0 && old(records)[k].validity == validity > 0
      ensures forall i, j :: 0 <= i < j < |uids| ==> uids[i] != uids[j]
      ensures records == map k | k in old(records) :: Unrequested(old(records)[k], validity)
      ensures forall k :: k in old(records) ==>
                var before := old(records)[k];
                records[k] == if before.status == Failed && before.retry && !(before.validity == validity > 0)
                              then before.(retry := false) else before
    {
      uids := [];
      var pending := records.Keys;
      ghost var done := {};
      while pending != {}
        invariant done + pending == old(records).Keys && done !! pending && records.Keys == old(records).Keys
        invariant forall k :: k in records ==>
                    records[k] == if k in done then Unrequested(old(records)[k], validity) else old(records)[k]
        invariant forall k :: k in done && Wanted(old(records)[k], validity) ==> old(records)[k].uid in uids
        invariant forall u :: u in uids ==> u in RequestedUids(old(records), validity)
        invariant forall i, j :: 0 <= i < j < |uids| ==> uids[i] != uids[j]
      {
        var k :| k in pending;
        var r := records[k];
        pending := pending - {k};
        done := done + {k};
        records := records[k := Unrequested(r, validity)];
        if Wanted(r, validity) && r.uid !in uids {
          uids := uids + [r.uid];
        }
      }
    }

    /** Searches above the cursor, adds the retries, and fetches them all; one that cannot be
        fetched fails the poll. */
    method FetchMessages(m: Mailbox, requested: seq<Uid>, c: Conditions) returns (r: Option<Batch>)
      requires m.Valid() && Lists(c)
      modifies this`tick
      ensures var after := if validity == m.validity then cursor else 0;
              var asked := if validity == m.validity then requested else [];
              var batch := Chosen(asked, c.list(Matching(m, after + 1)), limit, after);
              && (r.Some? ==> r.value == batch && forall u :: u in batch.asked + batch.recent ==> u in m.messages)
              && (r.None? ==> (exists u :: u in batch.asked && u !in m.messages) || !Connected(c))
    {
      hide Connected, Chosen, Matching;
      var after := if validity == m.validity then cursor else 0;
      var asked := if validity == m.validity then requested else [];
      var listing := c.list(Matching(m, after + 1));
      var batch := Chosen(asked, listing, limit, after);
      NewInMailbox(m, asked, listing, limit, after);
      var identities := batch.asked + batch.recent;
      for i := 0 to |identities|
        invariant forall k :: 0 <= k < i ==> identities[k] in m.messages
      {
        tick := tick + 1;
        if c.drops(tick) {
          Disconnected(c, tick);
          return None;
        }
        if identities[i] !in m.messages {
          assert identities[i] in batch.asked;
          return None;
        }
      }
      return Some(batch);
    }

    method ProcessMessages(m: Mailbox, identities: seq<Uid>, c: Conditions)
      returns (r: Report, stopped: bool, ghost died: Option<Key>)
      requires Backed(records, documents) && forall u :: u in identities ==> u in m.messages
      modifies this`records, this`documents, this`tick
      ensures Backed(records, documents) && DocumentsGrow(old(documents), documents, accepts)
      ensures Progress(old(records), records, died) && (stopped <==> died.Some?)
      ensures Alive(c) ==> !stopped
      ensures !stopped ==> forall u :: u in identities ==> Decided(records, m.messages[u]) && Finished(records, m.messages[u])
      ensures FromFetched(old(records), records, m, identities)
      ensures !stopped ==> r.messages == |identities|
      ensures Steady(c) ==> !stopped && AsAccepted(old(records), records, accepts)
                            && r.ingested == |documents| - |old(documents)|
    {
      hide Backed, Alive, Progress, Decided, Finished, DocumentsGrow, OnlyOf, FromFetched, AsAccepted, Tally, Steady;
      SteadyIsAlive(c);
      AsBefore(records, accepts);
      r, stopped, died := NOTHING, false, None;
      SameProgress(records, documents, accepts);
      NothingFetched(records, m, identities);
      for i := 0 to |identities|
        invariant died == None && !stopped
        invariant Backed(records, documents) && DocumentsGrow(old(documents), documents, accepts)
        invariant Progress(old(records), records, None) && FromFetched(old(records), records, m, identities)
        invariant forall k :: 0 <= k < i ==>
                    Decided(records, m.messages[identities[k]]) && Finished(records, m.messages[identities[k]])
        invariant r.messages == i
        invariant Steady(c) ==> AsAccepted(old(records), records, accepts) && r.ingested == |documents| - |old(documents)|
      {
        assert identities[i] in identities;
        ghost var before, had := records, documents;
        var one;
        one, stopped, died := ProcessMessage(m.messages[identities[i]], identities[i], m.validity, c);
        ProgressOn(old(records), before, records, died);
        FromOneMore(old(records), before, records, m, identities, i);
        DocumentsGrowOn(old(documents), had, documents, accepts);
        if stopped {
          return;
        }
        forall k | 0 <= k < i ensures Decided(records, m.messages[identities[k]]) && Finished(records, m.messages[identities[k]]) {
          StaysDecided(before, records, m.messages[identities[k]]);
        }
        if Steady(c) {
          AsAcceptedOn(old(records), before, records, accepts);
        }
        r := Plus(r, one);
      }
    }

    /** `fetched` is the batch, once it has been fetched; `died` is the record at which the
        process died, if it died at one; it may also die before the cursor is committed. */
    method PollOnce(enabled: bool, m: Mailbox, c: Conditions)
      returns (ok: bool, r: Report, ghost fetched: seq<Uid>, ghost died: Option<Key>)
      requires m.Valid() && Lists(c) && Numbered(cursor, validity, m) && Backed(records, documents)
      modifies this
      ensures Numbered(cursor, validity, m) && Backed(records, documents)
      ensures DocumentsGrow(old(documents), documents, accepts)
      ensures ok ==> enabled && validity == m.validity && CursorMoved(cursor, old(After(m)), fetched, old(Requests(m)))
      ensures !ok ==> cursor == old(cursor) && validity == old(validity)
      // what is left behind the cursor
      ensures ok ==> (NoneLeftOut(m, old(After(m)), cursor, fetched) <==> old(InOrder(m, c)))
      ensures old(Covered(records, cursor, validity, m)) && (ok ==> old(InOrder(m, c))) ==> Covered(records, cursor, validity, m)
      ensures forall excused :: old(AllDecidedBut(records, cursor, validity, m, excused)) && (ok ==> old(InOrder(m, c))) ==>
                AllDecidedBut(records, cursor, validity, m, excused + LostRetry(old(records), died))
      // where it died
      ensures Progress(old(records), records, died) && (died.Some? ==> !ok && !Alive(c))
      // what it fetched
      ensures ok || fetched != [] ==> Fetches(fetched, old(Requests(m)), c.list(Matching(m, old(After(m)) + 1)), limit)
      ensures FromFetched(old(records), records, m, fetched)
      ensures ok ==> forall u :: u in fetched ==>
                u in m.messages && Decided(records, m.messages[u]) && Finished(records, m.messages[u])
      ensures Steady(c) ==> AsAccepted(old(records), records, accepts)
      ensures ok ==> r.messages == |fetched| && (Steady(c) ==> r.ingested == |documents| - |old(documents)|)
      ensures ok ==> forall k :: k in old(records) && old(records)[k].status == InProgress ==>
                (records[k].status != InProgress <==> FetchedKey(m, fetched, k))
      // when it succeeds
      ensures old(Blocked(records, validity, m, limit)) ==>
                !ok && documents == old(documents) && Blocked(records, validity, m, limit)
      ensures enabled && Alive(c) && Connected(c) && |old(Requests(m))| <= limit ==>
                (ok <==> old(Requests(m)) <= m.messages.Keys)
    {
      hide Covered, AllDecidedBut, Backed, Alive, Connected, Progress, Decided, Recorded, Matching, Lists, ListedInOrder;
      hide FromFetched, DocumentsGrow, Fetches, Chosen, FetchedKey, CursorMoved, LostRetry, RequestedUids;
      hide NoneLeftOut, LowestFirst, Candidates, Numbered, AsAccepted, Steady, Finished, Final, Wanted, Unrequested, Terminal;
      AsBefore(records, accepts);
      ok, r, fetched, died := false, NOTHING, [], None;
      SameProgress(records, documents, accepts);
      NothingFetched(records, m, []);
      CoveredStays(records, records, cursor, validity, m, None);
      if !enabled {
        return;
      }
      var requested := RetryUids();
      RequestsKeep(old(records), records, documents, validity, m, limit);
      RequestsAsAccepted(old(records), records, validity, accepts);
      ghost var start, after := records, After(m);
      ghost var asked := if validity == m.validity then requested else [];
      AllAsked(asked, old(Requests(m)), limit);
      ghost var listing := c.list(Matching(m, after + 1));
      Listed(c, m, after);
      AskedFirst(asked, listing, limit, after);
      CoveredStays(old(records), start, cursor, validity, m, None);
      var batch := FetchMessages(m, requested, c);
      if batch.None? {
        return;
      }
      fetched := batch.value.asked + batch.value.recent;
      BatchFetches(asked, old(Requests(m)), listing, limit, after);
      LastNumbered(cursor, validity, m, asked, listing, limit);
      ok, r, died := ProcessBatch(m, batch.value, c, old(records));
      CoveredStays(old(records), records, old(cursor), old(validity), m, died);
      if ok {
        InProgressIff(old(records), records, m, fetched);
        Polled(old(records), records, old(cursor), old(validity), m, asked, old(Requests(m)), listing, limit);
      }
    }

    /** Processes a batch that has been fetched, and then commits the new cursor. */
    method ProcessBatch(m: Mailbox, batch: Batch, c: Conditions, ghost rs: map<Key, Record>)
      returns (ok: bool, r: Report, ghost died: Option<Key>)
      requires Backed(records, documents) && forall u :: u in batch.asked + batch.recent ==> u in m.messages
      requires records == map k | k in rs :: Unrequested(rs[k], validity)
      requires Progress(rs, records, None) && AsAccepted(rs, records, accepts)
      requires Numbered(cursor, validity, m) && Numbered(batch.last, m.validity, m)
      modifies this
      ensures Numbered(cursor, validity, m) && Backed(records, documents)
      ensures DocumentsGrow(old(documents), documents, accepts)
      ensures if ok then cursor == batch.last && validity == m.validity
              else cursor == old(cursor) && validity == old(validity)
      ensures Progress(rs, records, died) && (died.Some? ==> !ok && !Alive(c)) && (Alive(c) ==> ok)
      ensures FromFetched(rs, records, m, batch.asked + batch.recent)
      ensures ok ==> forall u :: u in batch.asked + batch.recent ==>
                Decided(records, m.messages[u]) && Finished(records, m.messages[u])
      ensures Steady(c) ==> AsAccepted(rs, records, accepts)
      ensures ok ==> r.messages == |batch.asked + batch.recent|
                     && (Steady(c) ==> r.ingested == |documents| - |old(documents)|)
    {
      hide Backed, Alive, Progress, Decided, FromFetched, DocumentsGrow, Numbered, AsAccepted, Steady, Finished, Unrequested;
      ghost var start := records;
      var stopped;
      r, stopped, died := ProcessMessages(m, batch.asked + batch.recent, c);
      ProgressOn(rs, start, records, died);
      FromStart(rs, start, records, m, batch.asked + batch.recent, validity);
      if Steady(c) {
        AsAcceptedOn(rs, start, records, accepts);
      }
      if stopped {
        return false, r, died;
      }
      tick := tick + 1;
      if c.dies(tick) {
        DiesOnce(c, tick);
        return false, r, None;
      }
      cursor, validity := batch.last, m.validity;
      return true, r, None;
    }

    /** What a poll of the mailbox starts from: everything again, once it is renumbered. */
    function After(m: Mailbox): Uid
      reads this
    {
      if validity == m.validity then cursor else 0
    }

    function Requests(m: Mailbox): set<Uid>
      reads this
    {
      if validity == m.validity then RequestedUids(records, validity) else {}
    }

    /** The server lists first what a poll takes first, as far as the requests leave room. */
    ghost predicate InOrder(m: Mailbox, c: Conditions)
      reads this
    {
      ListedInOrder(Requests(m), c.list(Matching(m, After(m) + 1)), limit)
    }
  }

  predicate ListedInOrder(requests: set<Uid>, listing: seq<Uid>, limit: nat) {
    |requests| <= limit ==> LowestFirst(Unasked(listing, requests), limit - |requests|)
  }

  /** A requested message that is gone, with room for every request in the batch. */
  predicate Blocked(records: map<Key, Record>, validity: nat, m: Mailbox, limit: nat) {
    && validity == m.validity
    && |RequestedUids(records, validity)| <= limit
    && exists u :: u in RequestedUids(records, validity) && u !in m.messages && u < m.next
  }

  /** Only records of a message's own attachments changed, and they name it. */
  predicate OnlyOf(rs: map<Key, Record>, rs': map<Key, Record>, m: Message, uid: Uid, validity: nat) {
    forall k :: k in rs' ==>
      (k in rs && rs'[k] == rs[k]) || (HasKey(m, k) && rs'[k].uid == uid && rs'[k].validity == validity)
  }

  /** Only records of messages that were fetched changed, and they name them; requests may be dropped. */
  predicate FromFetched(rs: map<Key, Record>, rs': map<Key, Record>, m: Mailbox, fetched: seq<Uid>) {
    forall k :: k in rs' ==>
      || (k in rs && (rs'[k] == rs[k] || (rs[k].status == Failed && rs'[k] == rs[k].(retry := false))))
      || (Named(rs'[k], k, m) && rs'[k].uid in fetched)
  }

  predicate FetchedKey(m: Mailbox, uids: seq<Uid>, k: Key) {
    exists u :: u in uids && u in m.messages && HasKey(m.messages[u], k)
  }

  /** With room for every request, the batch is known before the poll; or else it is some of them. */
  predicate Fetches(fetched: seq<Uid>, requests: set<Uid>, listing: seq<Uid>, limit: nat) {
    if |requests| <= limit then Members(fetched) == BatchOf(requests, listing, limit)
    else |fetched| == limit && Members(fetched) <= requests
  }

  /** The cursor moves to the highest of the messages that were not requested, if there is one. */
  predicate CursorMoved(cursor: Uid, after: Uid, fetched: seq<Uid>, requests: set<Uid>) {
    if exists u :: u in fetched && u !in requests then
      cursor in fetched && cursor !in requests && forall u :: u in fetched && u !in requests ==> u <= cursor
    else cursor == after
  }

  predicate DocumentsGrow(before: set<Content>, after: set<Content>, accepts: Content -> bool) {
    before <= after && forall content :: content in after ==> content in before || accepts(content)
  }

  // ---------- small facts ----------

  lemma DocumentsGrowOn(a: set<Content>, b: set<Content>, c: set<Content>, accepts: Content -> bool)
    requires DocumentsGrow(a, b, accepts) && DocumentsGrow(b, c, accepts)
    ensures DocumentsGrow(a, c, accepts)
  {
  }

  lemma NewInMailbox(m: Mailbox, asked: seq<Uid>, listing: seq<Uid>, limit: nat, after: Uid)
    requires forall v :: v in listing <==> v in Matching(m, after + 1)
    ensures forall u :: u in Chosen(asked, listing, limit, after).recent ==> u in m.messages
  {
    var b := Chosen(asked, listing, limit, after);
    UnaskedMembers(listing, Members(b.asked));
    forall u | u in b.recent ensures u in m.messages {
      assert u in Unasked(listing, Members(b.asked));
      assert u in Matching(m, after + 1);
    }
  }

  lemma Disconnected(c: Conditions, n: nat)
    requires c.drops(n)
    ensures !Connected(c)
  {
  }

  lemma Listed(c: Conditions, m: Mailbox, after: Uid)
    requires Lists(c)
    ensures var listing := c.list(Matching(m, after + 1)); forall v :: v in listing <==> v in Matching(m, after + 1)
  {
  }

  lemma AscendingIsInOrder(c: Conditions, requests: set<Uid>, uids: set<Uid>, limit: nat)
    requires ListsAscending(c)
    ensures ListedInOrder(requests, c.list(uids), limit)
  {
    if |requests| <= limit { AscendingIsLowestFirst(c.list(uids), requests, limit - |requests|); }
  }

  lemma DiesOnce(c: Conditions, n: nat)
    requires c.dies(n)
    ensures !Alive(c)
  {
  }

  /** In whatever order the requests come, the candidates are the same. */
  lemma InOrderListing(asked: seq<Uid>, requests: set<Uid>, listing: seq<Uid>, limit: nat)
    requires forall u :: u in asked <==> u in requests
    requires forall i, j :: 0 <= i < j < |asked| ==> asked[i] != asked[j]
    ensures ListedInOrder(requests, listing, limit)
            <==> LowestFirst(Candidates(asked, listing, limit), limit - |Taken(asked, limit)|)
  {
    AllAsked(asked, requests, limit);
    DistinctCount(asked, requests);
    if |requests| <= limit { assert Members(Taken(asked, limit)) == requests; }
  }

  lemma AskedFirst(asked: seq<Uid>, listing: seq<Uid>, limit: nat, after: Uid)
    ensures Chosen(asked, listing, limit, after).asked == Taken(asked, limit)
  {
  }

  lemma SameProgress(rs: map<Key, Record>, documents: set<Content>, accepts: Content -> bool)
    ensures Progress(rs, rs, None) && (forall m, uid, validity :: OnlyOf(rs, rs, m, uid, validity))
    ensures DocumentsGrow(documents, documents, accepts)
  {
  }

  lemma NothingFetched(rs: map<Key, Record>, m: Mailbox, uids: seq<Uid>)
    ensures FromFetched(rs, rs, m, uids)
  {
  }

  /** One attachment's record moved on, or was left in progress. */
  lemma AttachmentDone(start: map<Key, Record>, rs: map<Key, Record>, rs': map<Key, Record>, m: Message, i: nat,
                       uid: Uid, validity: nat, died: Option<Key>)
    requires i < |m.attachments| && m.attachments[i].supported
    requires var k := KeyOf(m, i);
             && (k !in rs || !Final(rs[k])) && rs'.Keys == rs.Keys + {k}
             && (forall other :: other in rs' && other != k ==> rs'[other] == rs[other])
             && rs'[k].uid == uid && rs'[k].validity == validity && !rs'[k].retry
             && (if rs'[k].status == InProgress then died == Some(k) else died == None)
    requires Progress(start, rs, None) && OnlyOf(start, rs, m, uid, validity)
    ensures Progress(start, rs', died) && OnlyOf(start, rs', m, uid, validity)
  {
  }

  lemma ProgressOn(rs: map<Key, Record>, rs': map<Key, Record>, rs'': map<Key, Record>, died: Option<Key>)
    requires Progress(rs, rs', None) && Progress(rs', rs'', died)
    ensures Progress(rs, rs'', died)
  {
  }

  lemma FromOneMore(rs: map<Key, Record>, rs': map<Key, Record>, rs'': map<Key, Record>, m: Mailbox, fetched: seq<Uid>, i: nat)
    requires i < |fetched| && fetched[i] in m.messages
    requires FromFetched(rs, rs', m, fetched) && OnlyOf(rs', rs'', m.messages[fetched[i]], fetched[i], m.validity)
    ensures FromFetched(rs, rs'', m, fetched)
  {
    hide HasKey;
  }

  lemma FromStart(rs: map<Key, Record>, rs': map<Key, Record>, rs'': map<Key, Record>, m: Mailbox, fetched: seq<Uid>, validity: nat)
    requires rs' == map k | k in rs :: Unrequested(rs[k], validity)
    requires FromFetched(rs', rs'', m, fetched)
    ensures FromFetched(rs, rs'', m, fetched)
  {
    hide Named;
  }

  lemma StaysDecided(rs: map<Key, Record>, rs': map<Key, Record>, m: Message)
    requires Progress(rs, rs', None) && Decided(rs, m) && Finished(rs, m)
    ensures Decided(rs', m) && Finished(rs', m)
  {
  }

  lemma SteadyIsAlive(c: Conditions)
    ensures Steady(c) ==> Alive(c)
  {
  }

  lemma SteadyAt(c: Conditions, n: nat)
    ensures Steady(c) ==> !c.dies(n) && !c.breaks(n)
  {
  }

  lemma AliveAt(c: Conditions, n: nat)
    ensures Alive(c) ==> !c.dies(n)
  {
  }

  lemma BackedStays(rs: map<Key, Record>, rs': map<Key, Record>, before: set<Content>, after: set<Content>, k: Key,
                    accepts: Content -> bool)
    requires Backed(rs, before) && before <= after <= before + {k.content}
    requires k.content in after ==> k.content in before || accepts(k.content)
    requires k in rs' && (Terminal(rs'[k].status) ==> k.content in after)
    requires forall other :: other in rs' && other != k ==> other in rs && rs'[other] == rs[other]
    ensures Backed(rs', after) && DocumentsGrow(before, after, accepts)
  {
  }

  lemma OneMoreDocument(documents: set<Content>, content: Content)
    ensures |documents + {content}| == |documents| + if content in documents then 0 else 1
  {
    if content in documents { assert documents + {content} == documents; }
  }

  lemma AsBefore(rs: map<Key, Record>, accepts: Content -> bool)
    ensures AsAccepted(rs, rs, accepts)
  {
  }

  lemma RequestsAsAccepted(rs: map<Key, Record>, rs': map<Key, Record>, validity: nat, accepts: Content -> bool)
    requires rs' == map k | k in rs :: Unrequested(rs[k], validity)
    ensures AsAccepted(rs, rs', accepts)
  {
  }

  lemma AsAcceptedOn(rs: map<Key, Record>, rs': map<Key, Record>, rs'': map<Key, Record>, accepts: Content -> bool)
    requires AsAccepted(rs, rs', accepts) && AsAccepted(rs', rs'', accepts)
    ensures AsAccepted(rs, rs'', accepts)
  {
  }

  lemma OneMoreAsAccepted(start: map<Key, Record>, rs: map<Key, Record>, rs': map<Key, Record>, k: Key, accepts: Content -> bool)
    requires AsAccepted(start, rs, accepts) && k in rs' && (Terminal(rs'[k].status) <==> accepts(k.content))
    requires forall other :: other in rs' && other != k ==> other in rs && rs'[other] == rs[other]
    ensures AsAccepted(start, rs', accepts)
  {
  }

  lemma NothingTallied(rs: map<Key, Record>, m: Message, accepts: Content -> bool)
    ensures Tallies(rs, rs, m, 0) == NOTHING.(messages := 1) && AsAccepted(rs, rs, accepts)
  {
  }

  /** One attachment more is counted once. */
  lemma OneMoreTallied(rs: map<Key, Record>, rs': map<Key, Record>, rs'': map<Key, Record>, m: Message, i: nat,
                       tallied: Report, r: Report)
    requires i < |m.attachments| && tallied == Tallies(rs, rs', m, i)
    requires forall k :: k != KeyOf(m, i) ==> SameAt(rs', rs'', k)
    requires r == OneCounted(tallied, rs, rs'', m, i)
    ensures r == Tallies(rs, rs'', m, i + 1)
  {
    hide CountedAs;
    TalliesSame(rs, rs', rs'', m, i);
  }

  /** Dropping requests of another numbering leaves the others. */
  lemma RequestsKeep(rs: map<Key, Record>, rs': map<Key, Record>, documents: set<Content>, validity: nat, m: Mailbox, limit: nat)
    requires rs' == map k | k in rs :: Unrequested(rs[k], validity)
    ensures Progress(rs, rs', None) && FromFetched(rs, rs', m, []) && (Backed(rs, documents) ==> Backed(rs', documents))
    ensures RequestedUids(rs', validity) == RequestedUids(rs, validity)
    ensures Blocked(rs, validity, m, limit) ==> Blocked(rs', validity, m, limit)
  {
    assert forall k :: k in rs ==> (Wanted(rs'[k], validity) <==> Wanted(rs[k], validity)) && rs'[k].uid == rs[k].uid;
    forall u ensures u in RequestedUids(rs', validity) <==> u in RequestedUids(rs, validity) {
      if u in RequestedUids(rs, validity) {
        var k :| k in rs && Wanted(rs[k], validity) && rs[k].uid == u;
        assert k in rs' && Wanted(rs'[k], validity) && rs'[k].uid == u;
      }
    }
  }

  lemma InProgressIff(rs: map<Key, Record>, rs': map<Key, Record>, m: Mailbox, fetched: seq<Uid>)
    requires Progress(rs, rs', None) && FromFetched(rs, rs', m, fetched)
    requires forall u :: u in fetched ==> u in m.messages && Decided(rs', m.messages[u])
    ensures forall k :: k in rs && rs[k].status == InProgress ==>
              k in rs' && (rs'[k].status != InProgress <==> FetchedKey(m, fetched, k))
  {
    forall k | k in rs && rs[k].status == InProgress
      ensures k in rs' && (rs'[k].status != InProgress <==> FetchedKey(m, fetched, k))
    {
      if rs'[k].status != InProgress {
        assert Named(rs'[k], k, m) && rs'[k].uid in fetched;
      }
    }
  }

  lemma {:induction false} DistinctCount(uids: seq<Uid>, members: set<Uid>)
    requires forall u :: u in uids <==> u in members
    requires forall i, j :: 0 <= i < j < |uids| ==> uids[i] != uids[j]
    ensures |uids| == |members|
  {
    if uids != [] {
      var rest := uids[1..];
      forall u ensures u in rest <==> u in members - {uids[0]} {
        if u in rest {
          var i :| 0 <= i < |rest| && rest[i] == u;
          assert uids[i + 1] == u;
        }
      }
      DistinctCount(rest, members - {uids[0]});
    } else {
      assert members == {};
    }
  }

  lemma AllAsked(requested: seq<Uid>, wanted: set<Uid>, limit: nat)
    requires forall u :: u in requested <==> u in wanted
    requires forall i, j :: 0 <= i < j < |requested| ==> requested[i] != requested[j]
    ensures |wanted| <= limit ==> Taken(requested, limit) == requested
    ensures |wanted| > limit ==> |Taken(requested, limit)| == limit
  {
    DistinctCount(requested, wanted);
  }

  /** The batch and the cursor that follow from the requests, in whatever order they come. */
  lemma BatchFetches(asked: seq<Uid>, requests: set<Uid>, listing: seq<Uid>, limit: nat, after: Uid)
    requires forall u :: u in asked <==> u in requests
    requires forall i, j :: 0 <= i < j < |asked| ==> asked[i] != asked[j]
    ensures var b := Chosen(asked, listing, limit, after);
            Fetches(b.asked + b.recent, requests, listing, limit) && CursorMoved(b.last, after, b.asked + b.recent, requests)
  {
    var b := Chosen(asked, listing, limit, after);
    var fetched := b.asked + b.recent;
    AllAsked(asked, requests, limit);
    UnaskedMembers(listing, Members(b.asked));
    assert forall u :: u in b.asked ==> u in asked;
    assert forall u :: u in fetched <==> u in b.asked || u in b.recent;
    forall u | u in b.recent ensures u !in b.asked {
      assert u in Unasked(listing, Members(b.asked));
    }
    DistinctCount(asked, requests);
    if |requests| <= limit {
      assert Members(b.asked) == requests;
      assert Members(fetched) == BatchOf(requests, listing, limit);
    } else {
      assert b.recent == [];
    }
  }

  lemma CoveredStays(rs: map<Key, Record>, rs': map<Key, Record>, cursor: Uid, validity: nat, m: Mailbox, died: Option<Key>)
    requires Progress(rs, rs', died)
    ensures Covered(rs, cursor, validity, m) ==> Covered(rs', cursor, validity, m)
    ensures forall excused :: AllDecidedBut(rs, cursor, validity, m, excused) ==>
              AllDecidedBut(rs', cursor, validity, m, excused + LostRetry(rs, died))
  {
    hide Recorded, DecidedBut;
    forall u | u in m.messages && Recorded(rs, m.messages[u]) ensures Recorded(rs', m.messages[u]) {
      RecordedStays(rs, rs', m.messages[u], died);
    }
    forall u, excused | u in m.messages && DecidedBut(rs, m.messages[u], excused)
      ensures DecidedBut(rs', m.messages[u], excused + LostRetry(rs, died))
    {
      DecidedButStays(rs, rs', m.messages[u], excused, died);
    }
  }

  /** A decided record without a retry is final, and stays. */
  lemma DecidedButStays(rs: map<Key, Record>, rs': map<Key, Record>, m: Message, excused: set<Key>, died: Option<Key>)
    requires Progress(rs, rs', died) && DecidedBut(rs, m, excused)
    ensures DecidedBut(rs', m, excused + LostRetry(rs, died))
  {
  }

  lemma DecidedIsRecorded(rs: map<Key, Record>, m: Message)
    requires Decided(rs, m)
    ensures Recorded(rs, m)
  {
  }

  lemma RecordedStays(rs: map<Key, Record>, rs': map<Key, Record>, m: Message, died: Option<Key>)
    requires Progress(rs, rs', died) && Recorded(rs, m)
    ensures Recorded(rs', m)
  {
  }

  /** Once the whole batch is processed, the new cursor covers what is below it. */
  lemma BatchCovers(rs: map<Key, Record>, rs': map<Key, Record>, cursor: Uid, validity: nat, m: Mailbox,
                    asked: seq<Uid>, listing: seq<Uid>, limit: nat)
    requires m.Valid() && Covered(rs, cursor, validity, m) && Progress(rs, rs', None)
    requires var after := if validity == m.validity then cursor else 0;
             var b := Chosen(asked, listing, limit, after);
             && NoneLeftOut(m, after, b.last, b.asked + b.recent)
             && forall u :: u in b.asked + b.recent ==> u in m.messages && Decided(rs', m.messages[u])
    ensures var after := if validity == m.validity then cursor else 0;
            Covered(rs', Chosen(asked, listing, limit, after).last, m.validity, m)
  {
    hide Progress, Decided, Recorded, Chosen;
    var after := if validity == m.validity then cursor else 0;
    var b := Chosen(asked, listing, limit, after);
    forall u | u in m.messages && u <= b.last ensures Recorded(rs', m.messages[u]) {
      if u <= after {
        assert u > 0;
        RecordedStays(rs, rs', m.messages[u], None);
      } else {
        assert u in b.asked + b.recent;
        DecidedIsRecorded(rs', m.messages[u]);
      }
    }
  }

  lemma BatchDecides(rs: map<Key, Record>, rs': map<Key, Record>, cursor: Uid, validity: nat, m: Mailbox,
                     asked: seq<Uid>, listing: seq<Uid>, limit: nat, excused: set<Key>)
    requires m.Valid() && AllDecidedBut(rs, cursor, validity, m, excused) && Progress(rs, rs', None)
    requires var after := if validity == m.validity then cursor else 0;
             var b := Chosen(asked, listing, limit, after);
             && NoneLeftOut(m, after, b.last, b.asked + b.recent)
             && forall u :: u in b.asked + b.recent ==> u in m.messages && Decided(rs', m.messages[u])
    ensures var after := if validity == m.validity then cursor else 0;
            AllDecidedBut(rs', Chosen(asked, listing, limit, after).last, m.validity, m, excused + LostRetry(rs, None))
  {
    hide Progress, Decided, DecidedBut, Chosen;
    var after := if validity == m.validity then cursor else 0;
    var b := Chosen(asked, listing, limit, after);
    forall u | u in m.messages && u <= b.last ensures DecidedBut(rs', m.messages[u], excused + LostRetry(rs, None)) {
      if u <= after {
        assert u > 0;
        DecidedButStays(rs, rs', m.messages[u], excused, None);
      } else {
        assert u in b.asked + b.recent;
        DecidedIsDecidedBut(rs', m.messages[u], excused + LostRetry(rs, None));
      }
    }
  }

  lemma BatchDone(rs: map<Key, Record>, rs': map<Key, Record>, cursor: Uid, validity: nat, m: Mailbox,
                  asked: seq<Uid>, listing: seq<Uid>, limit: nat)
    requires m.Valid() && Progress(rs, rs', None)
    requires var b := Chosen(asked, listing, limit, if validity == m.validity then cursor else 0);
             forall u :: u in b.asked + b.recent ==> u in m.messages && Decided(rs', m.messages[u])
    ensures var after := if validity == m.validity then cursor else 0;
            var b := Chosen(asked, listing, limit, after);
            NoneLeftOut(m, after, b.last, b.asked + b.recent) ==>
              && (Covered(rs, cursor, validity, m) ==> Covered(rs', b.last, m.validity, m))
              && forall excused :: AllDecidedBut(rs, cursor, validity, m, excused) ==>
                   AllDecidedBut(rs', b.last, m.validity, m, excused + LostRetry(rs, None))
  {
    hide AllDecidedBut, Covered, Progress, Decided, Chosen, NoneLeftOut;
    var after := if validity == m.validity then cursor else 0;
    var b := Chosen(asked, listing, limit, after);
    var last := b.last;
    if Covered(rs, cursor, validity, m) && NoneLeftOut(m, after, b.last, b.asked + b.recent) {
      BatchCovers(rs, rs', cursor, validity, m, asked, listing, limit);
    }
    forall excused | AllDecidedBut(rs, cursor, validity, m, excused) && NoneLeftOut(m, after, b.last, b.asked + b.recent)
      ensures AllDecidedBut(rs', last, m.validity, m, excused + LostRetry(rs, None))
    {
      BatchDecides(rs, rs', cursor, validity, m, asked, listing, limit, excused);
    }
  }

  /** What a poll that succeeds has done, in whatever order the requests and the listing come. */
  lemma Polled(rs: map<Key, Record>, rs': map<Key, Record>, cursor: Uid, validity: nat, m: Mailbox,
               asked: seq<Uid>, requests: set<Uid>, listing: seq<Uid>, limit: nat)
    requires m.Valid() && Progress(rs, rs', None)
    requires (forall u :: u in asked <==> u in requests) && forall i, j :: 0 <= i < j < |asked| ==> asked[i] != asked[j]
    requires forall v :: v in listing <==> v in Matching(m, (if validity == m.validity then cursor else 0) + 1)
    requires var b := Chosen(asked, listing, limit, if validity == m.validity then cursor else 0);
             forall u :: u in b.asked + b.recent ==> u in m.messages && Decided(rs', m.messages[u])
    ensures var after := if validity == m.validity then cursor else 0;
            var b := Chosen(asked, listing, limit, after);
            && (NoneLeftOut(m, after, b.last, b.asked + b.recent) <==> ListedInOrder(requests, listing, limit))
            && (ListedInOrder(requests, listing, limit) ==>
                  && (Covered(rs, cursor, validity, m) ==> Covered(rs', b.last, m.validity, m))
                  && forall excused :: AllDecidedBut(rs, cursor, validity, m, excused) ==>
                       AllDecidedBut(rs', b.last, m.validity, m, excused + LostRetry(rs, None)))
  {
    hide Covered, AllDecidedBut, Progress, Decided, Matching, NoneLeftOut, LowestFirst, ListedInOrder;
    var after := if validity == m.validity then cursor else 0;
    InOrderListing(asked, requests, listing, limit);
    NoneSkippedIff(m, asked, listing, limit, after);
    BatchDone(rs, rs', cursor, validity, m, asked, listing, limit);
  }

  lemma DecidedIsDecidedBut(rs: map<Key, Record>, m: Message, excused: set<Key>)
    requires Decided(rs, m)
    ensures DecidedBut(rs, m, excused)
  {
  }

  lemma LastNumbered(cursor: Uid, validity: nat, m: Mailbox, asked: seq<Uid>, listing: seq<Uid>, limit: nat)
    requires m.Valid() && Numbered(cursor, validity, m)
    requires forall v :: v in listing <==> v in Matching(m, (if validity == m.validity then cursor else 0) + 1)
    ensures Numbered(Chosen(asked, listing, limit, if validity == m.validity then cursor else 0).last, m.validity, m)
  {
    var after := if validity == m.validity then cursor else 0;
    var b := Chosen(asked, listing, limit, after);
    UnaskedMembers(listing, Members(b.asked));
    if b.recent != [] {
      var j :| 0 <= j < |b.recent| && b.recent[j] == b.last;
      assert b.last in Unasked(listing, Members(b.asked));
      assert b.last in Matching(m, after + 1);
    }
  }
}
