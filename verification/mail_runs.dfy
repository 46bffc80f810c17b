/** Any run of polls, mailbox changes and retry requests. */
module MailRuns {
  import opened Common
  import opened Mail
  import opened MailSources

  datatype Event = Server(change: Change) | Poll(conditions: Conditions) | AskRetries

  /** The server keeps to the rules for identifiers. */
  predicate Plausible(m: Mailbox, events: seq<Event>)
    decreases |events|
  {
    events == [] ||
    (if events[0].Server? then MayChange(m, events[0].change) && Plausible(Changed(m, events[0].change), events[1..])
     else Plausible(m, events[1..]))
  }

  predicate RetryPending(records: map<Key, Record>) {
    exists k :: k in records && records[k].retry
  }

  function RetryAsked(records: map<Key, Record>): map<Key, Record> {
    map k | k in records :: if records[k].status == Failed then records[k].(retry := true) else records[k]
  }

  lemma RetriesCover(rs: map<Key, Record>, documents: set<Content>, cursor: Uid, validity: nat, m: Mailbox)
    requires Backed(rs, documents)
    ensures Covered(rs, cursor, validity, m) ==> Covered(RetryAsked(rs), cursor, validity, m)
    ensures Backed(RetryAsked(rs), documents)
    ensures forall excused :: AllDecidedBut(rs, cursor, validity, m, excused) ==>
              AllDecidedBut(RetryAsked(rs), cursor, validity, m, excused)
  {
    assert forall k :: k in rs ==> k in RetryAsked(rs) && RetryAsked(rs)[k].status == rs[k].status;
    forall u, excused | u in m.messages && DecidedBut(rs, m.messages[u], excused)
      ensures DecidedBut(RetryAsked(rs), m.messages[u], excused)
    {
    }
  }

  // ---------- what a death can lose ----------

  /** A poll among the first `n` events dies after a retry was asked for. */
  ghost predicate DiesOnRetry(events: seq<Event>, n: nat, pending: bool)
    requires n <= |events|
  {
    exists i :: 0 <= i < n && events[i].Poll? && !Alive(events[i].conditions)
                && (pending || exists j :: 0 <= j < i && events[j].AskRetries?)
  }

  ghost function Deaths(events: seq<Event>): nat {
    if events == [] then 0
    else Deaths(events[..|events| - 1]) +
         if events[|events| - 1].Poll? && !Alive(events[|events| - 1].conditions) then 1 else 0
  }

  // ---------- requests that cannot be met ----------

  predicate OnlySmallChanges(events: seq<Event>) {
    forall i :: 0 <= i < |events| ==> !events[i].AskRetries? && !(events[i].Server? && events[i].change.Renumber?)
  }

  lemma StaysBlocked(rs: map<Key, Record>, validity: nat, m: Mailbox, limit: nat, change: Change)
    requires Blocked(rs, validity, m, limit) && !change.Renumber?
    ensures Blocked(rs, validity, Changed(m, change), limit)
  {
  }

  // ---------- records that no poll reaches ----------

  /** A record in progress, all of whose messages are below the cursor, below another message `v`, and
      not requested. */
  predicate OutOfReach(records: map<Key, Record>, cursor: Uid, validity: nat, m: Mailbox, k: Key, v: Uid) {
    && k in records && records[k].status == InProgress
    && validity == m.validity && v in m.messages
    && forall u :: u in m.messages && HasKey(m.messages[u], k) ==>
         u <= cursor && u < v && u !in RequestedUids(records, validity)
  }

  /** Nobody asks for retries, renumbers, delivers the attachment again or takes message `v` away. */
  predicate KeepsOut(event: Event, k: Key, v: Uid) {
    && !event.AskRetries?
    && (event.Server? ==>
          && !event.change.Renumber?
          && (event.change.Append? ==> !HasKey(event.change.message, k))
          && (event.change.Expunge? ==> event.change.uid != v))
  }

  lemma OutOfReachExists(rs: map<Key, Record>, cursor: Uid, validity: nat, m: Mailbox, k: Key, v: Uid)
    requires OutOfReach(rs, cursor, validity, m, k, v)
    ensures k in rs
  {
  }

  lemma ChangeKeepsOut(rs: map<Key, Record>, cursor: Uid, validity: nat, m: Mailbox, k: Key, v: Uid, change: Change)
    requires m.Valid() && OutOfReach(rs, cursor, validity, m, k, v) && KeepsOut(Server(change), k, v)
    ensures OutOfReach(rs, cursor, validity, Changed(m, change), k, v)
  {
    hide HasKey, RequestedUids;
  }

  /** Fetched messages are requested, above the cursor or last. */
  lemma FetchedAreNear(m: Mailbox, after: Uid, fetched: seq<Uid>, requests: set<Uid>, listing: seq<Uid>, limit: nat, u: Uid)
    requires Fetches(fetched, requests, listing, limit) && u in fetched
    requires forall v :: v in listing <==> v in Matching(m, after + 1)
    ensures u in requests || (u in m.messages && (u > after || forall v :: v in m.messages ==> v <= u))
  {
    assert u in Members(fetched);
    if |requests| <= limit && u !in requests {
      UnaskedMembers(listing, requests);
      assert u in Unasked(listing, requests);
      assert u in Matching(m, after + 1);
    }
  }

  lemma NewRequestsAreOld(rs: map<Key, Record>, rs': map<Key, Record>, validity: nat, died: Option<Key>)
    requires Progress(rs, rs', died)
    ensures RequestedUids(rs', validity) <= RequestedUids(rs, validity)
  {
  }

  /** What a fetched batch cannot contain. */
  lemma OutOfReachNotFetched(rs: map<Key, Record>, cursor: Uid, validity: nat, m: Mailbox, k: Key, v: Uid,
                             fetched: seq<Uid>, listing: seq<Uid>, limit: nat)
    requires OutOfReach(rs, cursor, validity, m, k, v)
    requires fetched == [] || Fetches(fetched, RequestedUids(rs, validity), listing, limit)
    requires forall u :: u in listing <==> u in Matching(m, cursor + 1)
    ensures !FetchedKey(m, fetched, k)
  {
    hide RequestedUids, Fetches, HasKey, Matching;
    forall u | u in fetched && u in m.messages && HasKey(m.messages[u], k) ensures false {
      FetchedAreNear(m, cursor, fetched, RequestedUids(rs, validity), listing, limit, u);
    }
  }

  /** However a poll ends, the record is as it was, and still out of reach. */
  lemma PollKeepsOut(rs: map<Key, Record>, rs': map<Key, Record>, cursor: Uid, cursor': Uid, validity: nat, m: Mailbox,
                     k: Key, v: Uid, fetched: seq<Uid>, listing: seq<Uid>, limit: nat, died: Option<Key>)
    requires OutOfReach(rs, cursor, validity, m, k, v) && Progress(rs, rs', died) && FromFetched(rs, rs', m, fetched)
    requires fetched == [] || Fetches(fetched, RequestedUids(rs, validity), listing, limit)
    requires forall u :: u in listing <==> u in Matching(m, cursor + 1)
    requires cursor' == cursor || CursorMoved(cursor', cursor, fetched, RequestedUids(rs, validity))
    ensures k in rs' && rs'[k] == rs[k] && OutOfReach(rs', cursor', validity, m, k, v)
  {
    hide RequestedUids, Fetches, HasKey, Matching;
    OutOfReachNotFetched(rs, cursor, validity, m, k, v, fetched, listing, limit);
    NewRequestsAreOld(rs, rs', validity, died);
    if cursor' != cursor {
      FetchedAreNear(m, cursor, fetched, RequestedUids(rs, validity), listing, limit, cursor');
    }
  }

  predicate SameRecord(rs: map<Key, Record>, rs': map<Key, Record>, k: Key) {
    k in rs && k in rs' && rs'[k] == rs[k]
  }

  // ---------- batches fetched again ----------

  lemma {:induction false} RoomForRequests(listing: seq<Uid>, requests: set<Uid>, fewer: set<Uid>, room: nat, u: Uid)
    requires fewer <= requests && forall i, j :: 0 <= i < j < |listing| ==> listing[i] != listing[j]
    requires u in Taken(Unasked(listing, requests), room)
    ensures u in Taken(Unasked(listing, fewer), room + |requests - fewer|)
  {
    hide Taken;
    TakenNone(Unasked(listing, requests), room);
    var first, rest := listing[0], listing[1..];
    var left, others := Unasked(rest, requests), Unasked(rest, fewer);
    TakenAfter(first, left, room, u);
    TakenAfter(first, others, room + |requests - fewer|, u);
    if first in requests && first !in fewer {
      UnaskedElsewhere(rest, requests, first);
      assert Unasked(listing, fewer) == [first] + others && Unasked(listing, requests) == left;
      assert requests - {first} - fewer == requests - fewer - {first} && first in requests - fewer;
      RoomForRequests(rest, requests - {first}, fewer, room, u);
    } else if first in requests {
      assert Unasked(listing, requests) == left && Unasked(listing, fewer) == others;
      RoomForRequests(rest, requests, fewer, room, u);
    } else if u != first {
      RoomForRequests(rest, requests, fewer, room - 1, u);
    }
  }

  lemma TakenNone(uids: seq<Uid>, room: nat)
    ensures Taken(uids, room) != [] ==> uids != [] && room > 0
  {
  }

  lemma TakenAfter(first: Uid, rest: seq<Uid>, room: nat, u: Uid)
    requires room > 0
    ensures u in Taken([first] + rest, room) <==> u == first || u in Taken(rest, room - 1)
  {
    assert Taken([first] + rest, room) == [first] + Taken(rest, room - 1);
  }

  lemma {:induction false} UnaskedElsewhere(listing: seq<Uid>, asked: set<Uid>, u: Uid)
    requires u !in listing
    ensures Unasked(listing, asked) == Unasked(listing, asked - {u})
  {
    if listing != [] { UnaskedElsewhere(listing[1..], asked, u); }
  }

  /** What a poll fetched anew before it died is fetched again, when it met no more requests than fit. */
  lemma FetchedAgain(requests: set<Uid>, fewer: set<Uid>, listing: seq<Uid>, limit: nat, fetched: seq<Uid>, again: seq<Uid>)
    requires fewer <= requests && |requests| <= limit && |fewer| <= limit
    requires forall i, j :: 0 <= i < j < |listing| ==> listing[i] != listing[j]
    requires Fetches(fetched, requests, listing, limit) && Fetches(again, fewer, listing, limit)
    ensures forall u :: u in fetched && u !in requests ==> u in again
  {
    var room := limit - |requests|;
    assert requests == fewer + (requests - fewer);
    forall u | u in fetched && u !in requests ensures u in again {
      assert u in Members(fetched);
      RoomForRequests(listing, requests, fewer, room, u);
      assert u in Members(again);
    }
  }

  // ---------- runs ----------

  /** What a run has come to before an event. */
  datatype Moment = Moment(records: map<Key, Record>, cursor: Uid, validity: nat, mailbox: Mailbox) {
    function After(): Uid { if validity == mailbox.validity then cursor else 0 }

    function Requests(): set<Uid> { if validity == mailbox.validity then RequestedUids(records, validity) else {} }
  }

  function Now(source: MailSource, m: Mailbox): Moment
    reads source
  {
    Moment(source.records, source.cursor, source.validity, m)
  }

  /** In each of the first polls the server lists first what the poll takes first. */
  ghost predicate Orderly(moments: seq<Moment>, events: seq<Event>, n: nat, limit: nat)
    requires n <= |moments| && n <= |events|
  {
    forall i :: 0 <= i < n && events[i].Poll? ==> OrderlyPoll(moments[i], events[i].conditions, limit)
  }

  predicate OrderlyPoll(at: Moment, c: Conditions, limit: nat) {
    ListedInOrder(at.Requests(), c.list(Matching(at.mailbox, at.After() + 1)), limit)
  }

  predicate SameMailboxes(moments: seq<Moment>, events: seq<Event>)
    requires |moments| == |events| + 1
  {
    forall i :: 0 <= i < |events| ==>
      moments[i + 1].mailbox == if events[i].Server? then Changed(moments[i].mailbox, events[i].change) else moments[i].mailbox
  }

  lemma LostRetryBounds(rs: map<Key, Record>, died: Option<Key>)
    ensures |LostRetry(rs, died)| <= 1 && (LostRetry(rs, died) != {} ==> died.Some? && RetryPending(rs))
  {
  }

  lemma NoNewRetries(rs: map<Key, Record>, rs': map<Key, Record>, died: Option<Key>)
    requires Progress(rs, rs', died)
    ensures RetryPending(rs') ==> RetryPending(rs)
  {
  }

  lemma UnionBound(a: set<Key>, b: set<Key>)
    ensures |a + b| <= |a| + |b|
  {
    assert |a + b| == |a| + |b| - |a * b|;
  }

  /** Main results. As long as each poll is orderly, no message up to the cursor is ever skipped, and each
      of its attachments is decided, whatever polls fail or die, retries fill a batch or messages go: all but
      `lost`, of which each poll that dies while a retry is pending adds one at most. In whatever order the
      server lists, a retry of a message that is gone blocks every later poll, and a record in progress that
      is out of reach stays as it is. */
  method RunPolls(source: MailSource, start: Mailbox, events: seq<Event>, ghost k: Key, ghost v: Uid)
    returns (m: Mailbox, ghost lost: set<Key>, ghost moments: seq<Moment>)
    requires start.Valid() && Numbered(source.cursor, source.validity, start)
    requires Backed(source.records, source.documents)
    requires forall i :: 0 <= i < |events| && events[i].Poll? ==> Lists(events[i].conditions)
    requires Plausible(start, events)
    modifies source
    ensures m.Valid() && Numbered(source.cursor, source.validity, m)
    ensures Backed(source.records, source.documents) && old(source.documents) <= source.documents
    ensures |moments| == |events| + 1 && SameMailboxes(moments, events)
    ensures moments[0] == old(Now(source, start)) && moments[|events|] == Now(source, m)
    ensures (forall i :: 0 <= i < |events| && events[i].Poll? ==> ListsAscending(events[i].conditions)) ==>
              Orderly(moments, events, |events|, source.limit)
    ensures Orderly(moments, events, |events|, source.limit)
            && old(Covered(source.records, source.cursor, source.validity, start)) ==>
              Covered(source.records, source.cursor, source.validity, m)
    ensures Orderly(moments, events, |events|, source.limit)
            && old(AllDecidedBut(source.records, source.cursor, source.validity, start, {})) ==>
              AllDecidedBut(source.records, source.cursor, source.validity, m, lost)
    ensures |lost| <= Deaths(events)
    ensures lost != {} ==> DiesOnRetry(events, |events|, old(RetryPending(source.records)))
    ensures old(Blocked(source.records, source.validity, start, source.limit)) && OnlySmallChanges(events) ==>
              source.cursor == old(source.cursor) && source.documents == old(source.documents)
              && Blocked(source.records, source.validity, m, source.limit)
    ensures old(OutOfReach(source.records, source.cursor, source.validity, start, k, v))
            && (forall i :: 0 <= i < |events| ==> KeepsOut(events[i], k, v)) ==>
              SameRecord(old(source.records), source.records, k)
              && OutOfReach(source.records, source.cursor, source.validity, m, k, v)
  {
    hide Covered, AllDecidedBut, Backed, Alive, Blocked, ListsAscending, Lists, Changed, MayChange, RetryPending, Numbered;
    hide HasKey, RequestedUids, KeepsOut, OutOfReach, OrderlyPoll, Orderly, SameMailboxes, OnlySmallChanges;
    m, lost := start, {};
    moments := [Now(source, start)];
    FirstMoment(moments[0], events, source.limit);
    assert events[..0] == [];
    if OutOfReach(source.records, source.cursor, source.validity, start, k, v) {
      OutOfReachExists(source.records, source.cursor, source.validity, start, k, v);
    }
    for i := 0 to |events|
      invariant m.Valid() && Numbered(source.cursor, source.validity, m)
      invariant Backed(source.records, source.documents) && old(source.documents) <= source.documents
      invariant Plausible(m, events[i..])
      invariant |moments| == i + 1 && SameMailboxes(moments, events[..i])
      invariant moments[0] == old(Now(source, start)) && moments[i] == Now(source, m)
      invariant (forall j :: 0 <= j < |events| && events[j].Poll? ==> ListsAscending(events[j].conditions)) ==>
                  Orderly(moments, events, i, source.limit)
      invariant Orderly(moments, events, i, source.limit)
                && old(Covered(source.records, source.cursor, source.validity, start)) ==>
                  Covered(source.records, source.cursor, source.validity, m)
      invariant Orderly(moments, events, i, source.limit)
                && old(AllDecidedBut(source.records, source.cursor, source.validity, start, {})) ==>
                  AllDecidedBut(source.records, source.cursor, source.validity, m, lost)
      invariant |lost| <= Deaths(events[..i])
      invariant lost != {} ==> DiesOnRetry(events, i, old(RetryPending(source.records)))
      invariant RetryPending(source.records) ==>
                  old(RetryPending(source.records)) || exists j :: 0 <= j < i && events[j].AskRetries?
      invariant old(Blocked(source.records, source.validity, start, source.limit)) && OnlySmallChanges(events) ==>
                  source.cursor == old(source.cursor) && source.documents == old(source.documents)
                  && Blocked(source.records, source.validity, m, source.limit)
      invariant old(OutOfReach(source.records, source.cursor, source.validity, start, k, v))
                && (forall j :: 0 <= j < |events| ==> KeepsOut(events[j], k, v)) ==>
                  SameRecord(old(source.records), source.records, k)
                  && OutOfReach(source.records, source.cursor, source.validity, m, k, v)
    {
      assert events[i..][0] == events[i] && events[i..][1..] == events[i + 1..];
      assert events[..i + 1][..i] == events[..i] && events[..i + 1][i] == events[i];
      ghost var more, before := {}, moments;
      SmallChangesAre(events, i);
      m, more := Happen(source, m, events[i], k, v);
      UnionBound(lost, more);
      lost := lost + more;
      moments := moments + [Now(source, m)];
      OneMoreMoment(before, moments, events, i, source.limit);
    }
    assert events[..|events|] == events;
  }

  lemma FirstMoment(at: Moment, events: seq<Event>, limit: nat)
    ensures Orderly([at], events, 0, limit) && SameMailboxes([at], [])
  {
  }

  lemma SmallChangesAre(events: seq<Event>, i: nat)
    requires i < |events|
    ensures OnlySmallChanges(events) ==> OnlySmallChanges([events[i]])
  {
  }

  lemma OneMoreMoment(before: seq<Moment>, after: seq<Moment>, events: seq<Event>, i: nat, limit: nat)
    requires i < |events| && |before| == i + 1 && before < after && |after| == i + 2
    ensures Orderly(after, events, i + 1, limit)
            <==> Orderly(before, events, i, limit) && (events[i].Poll? ==> OrderlyPoll(before[i], events[i].conditions, limit))
    ensures SameMailboxes(before, events[..i])
            && after[i + 1].mailbox
               == (if events[i].Server? then Changed(after[i].mailbox, events[i].change) else after[i].mailbox) ==>
              SameMailboxes(after, events[..i + 1])
  {
    hide OrderlyPoll, Changed;
    if Orderly(after, events, i + 1, limit) {
      forall k | 0 <= k < i && events[k].Poll? ensures OrderlyPoll(before[k], events[k].conditions, limit) {
        assert after[k] == before[k];
      }
    }
  }

  /** One poll of a run. */
  method PollOnceMore(source: MailSource, m: Mailbox, c: Conditions, ghost k: Key, ghost v: Uid) returns (ghost lost: set<Key>)
    requires m.Valid() && Numbered(source.cursor, source.validity, m)
    requires Backed(source.records, source.documents) && Lists(c)
    modifies source
    ensures Numbered(source.cursor, source.validity, m)
    ensures Backed(source.records, source.documents) && old(source.documents) <= source.documents
    ensures old(OrderlyPoll(Now(source, m), c, source.limit))
            && old(Covered(source.records, source.cursor, source.validity, m)) ==>
              Covered(source.records, source.cursor, source.validity, m)
    ensures old(OrderlyPoll(Now(source, m), c, source.limit)) ==>
              forall excused :: old(AllDecidedBut(source.records, source.cursor, source.validity, m, excused)) ==>
                AllDecidedBut(source.records, source.cursor, source.validity, m, excused + lost)
    ensures |lost| <= 1 && (lost != {} ==> !Alive(c) && old(RetryPending(source.records)))
    ensures RetryPending(source.records) ==> old(RetryPending(source.records))
    ensures old(Blocked(source.records, source.validity, m, source.limit)) ==>
              source.cursor == old(source.cursor) && source.documents == old(source.documents)
              && Blocked(source.records, source.validity, m, source.limit)
    ensures old(OutOfReach(source.records, source.cursor, source.validity, m, k, v)) ==>
              SameRecord(old(source.records), source.records, k)
              && OutOfReach(source.records, source.cursor, source.validity, m, k, v)
  {
    hide Covered, AllDecidedBut, Backed, Alive, Blocked, RetryPending, ListedInOrder, Numbered, NoneLeftOut;
    hide Progress, FromFetched, Fetches, CursorMoved, LostRetry, HasKey, RequestedUids, Matching;
    ghost var out := OutOfReach(source.records, source.cursor, source.validity, m, k, v);
    ghost var cursor, records, validity := source.cursor, source.records, source.validity;
    var ok, r, fetched, died := source.PollOnce(true, m, c);
    lost := LostRetry(old(source.records), died);
    LostRetryBounds(records, died);
    NoNewRetries(records, source.records, died);
    if out {
      PollKeepsOut(records, source.records, cursor, source.cursor, validity, m, k, v, fetched,
                   c.list(Matching(m, cursor + 1)), source.limit, died);
    }
  }

  /** One event of a run. */
  method Happen(source: MailSource, m: Mailbox, event: Event, ghost k: Key, ghost v: Uid)
    returns (m': Mailbox, ghost lost: set<Key>)
    requires m.Valid() && Numbered(source.cursor, source.validity, m)
    requires Backed(source.records, source.documents)
    requires event.Poll? ==> Lists(event.conditions)
    requires event.Server? ==> MayChange(m, event.change)
    modifies source
    ensures m' == (if event.Server? then Changed(m, event.change) else m) && m'.Valid()
    ensures Numbered(source.cursor, source.validity, m')
    ensures Backed(source.records, source.documents) && old(source.documents) <= source.documents
    ensures event.Poll? && ListsAscending(event.conditions) ==> old(OrderlyPoll(Now(source, m), event.conditions, source.limit))
    ensures (event.Poll? ==> old(OrderlyPoll(Now(source, m), event.conditions, source.limit)))
            && old(Covered(source.records, source.cursor, source.validity, m)) ==>
              Covered(source.records, source.cursor, source.validity, m')
    ensures (event.Poll? ==> old(OrderlyPoll(Now(source, m), event.conditions, source.limit))) ==>
              forall excused :: old(AllDecidedBut(source.records, source.cursor, source.validity, m, excused)) ==>
                AllDecidedBut(source.records, source.cursor, source.validity, m', excused + lost)
    ensures |lost| <= 1
    ensures lost != {} ==> event.Poll? && !Alive(event.conditions) && old(RetryPending(source.records))
    ensures RetryPending(source.records) ==> old(RetryPending(source.records)) || event.AskRetries?
    ensures old(Blocked(source.records, source.validity, m, source.limit)) && OnlySmallChanges([event]) ==>
              source.cursor == old(source.cursor) && source.documents == old(source.documents)
              && Blocked(source.records, source.validity, m', source.limit)
    ensures old(OutOfReach(source.records, source.cursor, source.validity, m, k, v)) && KeepsOut(event, k, v) ==>
              SameRecord(old(source.records), source.records, k)
              && OutOfReach(source.records, source.cursor, source.validity, m', k, v)
  {
    hide Covered, AllDecidedBut, Backed, Alive, Blocked, ListsAscending, Changed, MayChange, RetryPending, Numbered;
    hide HasKey, RequestedUids, ListedInOrder, Matching;
    m', lost := m, {};
    NothingExcused();
    match event
    case Server(change) =>
      assert OnlySmallChanges([event]) ==> !change.Renumber? by { assert [event][0] == event; }
      ChangeCovers(source.records, source.cursor, source.validity, m, change);
      if !change.Renumber? && Blocked(source.records, source.validity, m, source.limit) {
        StaysBlocked(source.records, source.validity, m, source.limit, change);
      }
      if OutOfReach(source.records, source.cursor, source.validity, m, k, v) && KeepsOut(event, k, v) {
        ChangeKeepsOut(source.records, source.cursor, source.validity, m, k, v, change);
      }
      m' := Changed(m, change);
    case Poll(conditions) =>
      ghost var now := Now(source, m);
      if ListsAscending(conditions) {
        AscendingIsInOrder(conditions, now.Requests(), Matching(m, now.After() + 1), source.limit);
      }
      lost := PollOnceMore(source, m, conditions, k, v);
    case AskRetries =>
      assert [event][0] == event;
      RetriesCover(source.records, source.documents, source.cursor, source.validity, m);
      source.records := RetryAsked(source.records);
  }

  lemma NothingExcused()
    ensures forall excused: set<Key> :: excused + {} == excused
  {
  }
}
