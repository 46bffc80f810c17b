/** Two mailboxes in which a retry goes wrong. */
module MailExamples {
  import opened Mail
  import opened MailSources
  import opened MailRuns

  predicate IsSmallest(u: Uid, uids: set<Uid>) { u in uids && forall v :: v in uids ==> u <= v }

  lemma {:induction false} SmallestExists(uids: set<Uid>)
    requires uids != {}
    ensures exists u :: IsSmallest(u, uids)
  {
    var x :| x in uids;
    if uids == {x} {
      assert IsSmallest(x, uids);
    } else {
      SmallestExists(uids - {x});
      var m :| IsSmallest(m, uids - {x});
      assert uids == uids - {x} + {x};
      assert IsSmallest(if x < m then x else m, uids);
    }
  }

  function Smallest(uids: set<Uid>): (u: Uid)
    requires uids != {}
    ensures u in uids && IsSmallest(u, uids)
  {
    SmallestExists(uids);
    var u :| IsSmallest(u, uids);
    u
  }

  /** A server that answers in ascending order. */
  function Sorted(uids: set<Uid>): seq<Uid> {
    if uids == {} then [] else [Smallest(uids)] + Sorted(uids - {Smallest(uids)})
  }

  lemma SmallestFirst(u: Uid, uids: set<Uid>, rest: seq<Uid>)
    requires IsSmallest(u, uids) && Ascending(rest) && forall v :: v in rest <==> v in uids - {u}
    ensures Ascending([u] + rest) && forall v :: v in [u] + rest <==> v in uids
  {
    forall i | 0 <= i < |rest| ensures u < rest[i] {
      assert rest[i] in rest;
    }
  }

  lemma {:induction false} SortedAscends(uids: set<Uid>)
    ensures Ascending(Sorted(uids)) && forall u :: u in Sorted(uids) <==> u in uids
  {
    hide IsSmallest;
    if uids != {} {
      var u := Smallest(uids);
      var rest := Sorted(uids - {u});
      SortedAscends(uids - {u});
      SmallestFirst(u, uids, rest);
    }
  }

  function Calm(): Conditions { Conditions(_ => false, _ => false, _ => false, Sorted) }

  lemma CalmIsCalm()
    ensures ListsAscending(Calm()) && Alive(Calm()) && Connected(Calm())
  {
    forall uids ensures Ascending(Sorted(uids)) && forall u :: u in Sorted(uids) <==> u in uids {
      SortedAscends(uids);
    }
  }

  const LETTER := Message("<1@example>", [Attachment(true, "broken")])
  const REPLY := Message("<2@example>", [Attachment(true, "broken too")])

  function LetterKey(): Key { KeyOf(LETTER, 0) }

  /** With room for one message and none requested, a poll takes the first above the cursor. */
  lemma TakesTheFirst(m: Mailbox, after: Uid, first: Uid, fetched: seq<Uid>)
    requires first in m.messages && first > after
    requires forall u :: u in m.messages && u > after ==> u >= first
    requires Fetches(fetched, {}, Sorted(Matching(m, after + 1)), 1)
    ensures first in fetched && forall u :: u in fetched ==> u == first
  {
    var listing := Sorted(Matching(m, after + 1));
    SortedAscends(Matching(m, after + 1));
    NoneAsked(listing);
    assert first in listing && listing[0] in Matching(m, after + 1);
    assert listing[0] == first;
    assert Taken(listing, 1) == [first] && Members(fetched) == {} + Members([first]);
    assert first in Members([first]) && forall u :: u in fetched ==> u in Members(fetched);
  }

  lemma {:induction false} NoneAsked(listing: seq<Uid>)
    ensures Unasked(listing, {}) == listing
  {
    if listing != [] {
      NoneAsked(listing[1..]);
    }
  }

  /** Nothing is accepted: the first poll takes the letter, and its attachment fails. */
  method FirstPoll(m: Mailbox) returns (source: MailSource)
    requires m.Valid() && m.validity == 1 && 1 in m.messages && m.messages[1] == LETTER
    ensures fresh(source) && source.limit == 1
    ensures Covered(source.records, source.cursor, source.validity, m) && Backed(source.records, source.documents)
    ensures source.cursor == 1 && source.validity == 1
    ensures source.records.Keys == {LetterKey()}
    ensures var r := source.records[LetterKey()]; r.status == Failed && !r.retry && r.uid == 1 && r.validity == 1
  {
    hide Covered, AllDecidedBut, Fetches, Sorted;
    source := new MailSource(1, _ => false, m);
    CalmIsCalm();
    var ok, r, fetched, died := source.PollOnce(true, m, Calm());
    TakesTheFirst(m, 0, 1, fetched);
  }

  lemma OneRequest(rs: map<Key, Record>, k: Key)
    requires rs.Keys == {k} && rs[k].retry && rs[k].status == Failed && rs[k].uid == 1 && rs[k].validity == 1
    ensures RequestedUids(rs, 1) == {1}
  {
    assert k in rs && Wanted(rs[k], 1);
  }

  /** A retry is asked for the failed attachment, and then the user deletes the letter. */
  method DeletedRetryBlocks() returns (source: MailSource, m: Mailbox)
    ensures m.Valid() && Covered(source.records, source.cursor, source.validity, m)
    ensures Blocked(source.records, source.validity, m, source.limit)
  {
    hide Covered, AllDecidedBut, Backed;
    m := Mailbox(1, map[1 := LETTER], 2);
    source := FirstPoll(m);
    RetriesCover(source.records, source.documents, source.cursor, source.validity, m);
    source.records := RetryAsked(source.records);
    OneRequest(source.records, LetterKey());
    ChangeCovers(source.records, source.cursor, source.validity, m, Expunge(1));
    m := Changed(m, Expunge(1));
    assert 1 in RequestedUids(source.records, 1) && 1 !in m.messages;
  }

  /** A retry is asked for the failed attachment, and the process dies when it has marked it. */
  method DyingRetry(m: Mailbox) returns (source: MailSource)
    requires m.Valid() && m.validity == 1 && 1 in m.messages && m.messages[1] == LETTER
    ensures fresh(source) && source.limit == 1 && source.cursor == 1 && source.validity == 1
    ensures Covered(source.records, source.cursor, source.validity, m) && Backed(source.records, source.documents)
    ensures source.records.Keys == {LetterKey()}
    ensures source.records[LetterKey()].status == InProgress && !source.records[LetterKey()].retry
  {
    hide Covered, AllDecidedBut;
    source := FirstPoll(m);
    RetriesCover(source.records, source.documents, source.cursor, source.validity, m);
    source.records := RetryAsked(source.records);
    ghost var before := source.records;
    var r, stopped := source.ProcessAttachment(LetterKey(), 1, 1, Calm().(dies := _ => true), NOTHING);
    MarkedCovers(before, source.records, source.cursor, source.validity, m);
  }

  /** Meanwhile a reply has come, and fills the next poll: the marked attachment is out of reach for good. */
  method FullBatchLeavesOut() returns (source: MailSource, m: Mailbox)
    ensures m.Valid() && Covered(source.records, source.cursor, source.validity, m)
    ensures OutOfReach(source.records, source.cursor, source.validity, m, LetterKey(), 2)
  {
    hide Covered, AllDecidedBut, Backed, Fetches, Sorted, Decided, FromFetched, DocumentsGrow, Matching;
    m := Mailbox(1, map[1 := LETTER, 2 := REPLY], 3);
    source := DyingRetry(m);
    CalmIsCalm();
    var ok, report, fetched, died := source.PollOnce(true, m, Calm());
    TakesTheFirst(m, 1, 2, fetched);
  }

  lemma MarkedCovers(rs: map<Key, Record>, rs': map<Key, Record>, cursor: Uid, validity: nat, m: Mailbox)
    requires Covered(rs, cursor, validity, m) && rs'.Keys == rs.Keys + {LetterKey()}
    ensures Covered(rs', cursor, validity, m)
  {
  }
}
