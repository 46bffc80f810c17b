/** The mailbox and the choice of messages of apps/api/pdi/external/mail.py. Unique identifiers
    follow sections 2.3.1.1 and 6.4.8 of RFC 3501. */
module Mail {
  type Uid = nat
  type Content = string
  type MessageId = string

  datatype Attachment = Attachment(supported: bool, content: Content)

  datatype Message = Message(id: MessageId, attachments: seq<Attachment>)

  /** `next` is above every identifier ever given out under this validity. */
  datatype Mailbox = Mailbox(validity: nat, messages: map<Uid, Message>, next: Uid) {
    predicate Valid() {
      validity > 0 && next > 0 && forall u :: u in messages ==> 0 < u < next
    }
  }

  datatype Key = Key(message: MessageId, index: nat, content: Content)

  datatype Status = InProgress | Ingested | Duplicate | Failed

  datatype Record = Record(status: Status, retry: bool, uid: Uid, validity: nat, attempts: nat)

  predicate Terminal(s: Status) { s in {Ingested, Duplicate} }

  function KeyOf(m: Message, index: nat): Key
    requires index < |m.attachments|
  {
    Key(m.id, index, m.attachments[index].content)
  }

  predicate HasKey(m: Message, k: Key) {
    k.index < |m.attachments| && m.attachments[k.index].supported && k == KeyOf(m, k.index)
  }

  /** Each supported attachment has its record. */
  predicate Recorded(records: map<Key, Record>, m: Message) {
    forall i: nat :: i < |m.attachments| && m.attachments[i].supported ==> KeyOf(m, i) in records
  }

  predicate Decided(records: map<Key, Record>, m: Message) {
    forall i: nat :: i < |m.attachments| && m.attachments[i].supported ==>
      KeyOf(m, i) in records && records[KeyOf(m, i)].status != InProgress
  }

  // ---------- choosing messages ----------

  /** The answer to a search for `from:*`, which names the last message even if it is before `from`. */
  function Matching(m: Mailbox, from: Uid): set<Uid> {
    set u | u in m.messages && (u >= from || forall v :: v in m.messages ==> v <= u)
  }

  predicate Ascending(uids: seq<Uid>) {
    forall i, j :: 0 <= i < j < |uids| ==> uids[i] < uids[j]
  }

  function Unasked(listing: seq<Uid>, asked: set<Uid>): seq<Uid> {
    if listing == [] then []
    else (if listing[0] in asked then [] else [listing[0]]) + Unasked(listing[1..], asked)
  }

  function Members(uids: seq<Uid>): set<Uid> { set u | u in uids }

  function Taken(uids: seq<Uid>, n: nat): seq<Uid> { if |uids| <= n then uids else uids[..n] }

  function Highest(uids: seq<Uid>, otherwise: Uid): (h: Uid)
    ensures forall u :: u in uids ==> u <= h
    ensures if uids == [] then h == otherwise else h in uids
  {
    if uids == [] then otherwise
    else if |uids| == 1 then uids[0]
    else
      var rest := Highest(uids[1..], otherwise);
      assert forall u :: u in uids ==> u == uids[0] || u in uids[1..];
      if uids[0] < rest then rest else uids[0]
  }

  /** Retries first, then as many new messages as the batch still holds. */
  datatype Batch = Batch(asked: seq<Uid>, recent: seq<Uid>, last: Uid)

  function Chosen(requested: seq<Uid>, listing: seq<Uid>, limit: nat, after: Uid): Batch {
    var asked := Taken(requested, limit);
    var recent := Taken(Unasked(listing, Members(asked)), limit - |asked|);
    Batch(asked, recent, Highest(recent, after))
  }

  /** With room for every request, the batch does not depend on their order. */
  function BatchOf(requested: set<Uid>, listing: seq<Uid>, limit: nat): set<Uid>
    requires |requested| <= limit
  {
    requested + Members(Taken(Unasked(listing, requested), limit - |requested|))
  }

  lemma {:induction false} UnaskedMembers(listing: seq<Uid>, asked: set<Uid>)
    ensures forall u :: u in Unasked(listing, asked) <==> u in listing && u !in asked
  {
    if listing != [] {
      UnaskedMembers(listing[1..], asked);
      assert forall u :: u in listing <==> u == listing[0] || u in listing[1..];
    }
  }

  lemma {:induction false} UnaskedAscends(listing: seq<Uid>, asked: set<Uid>)
    requires Ascending(listing)
    ensures Ascending(Unasked(listing, asked))
  {
    if listing != [] {
      var rest := Unasked(listing[1..], asked);
      UnaskedAscends(listing[1..], asked);
      UnaskedMembers(listing[1..], asked);
      forall i | 0 <= i < |rest| ensures listing[0] < rest[i] {
        assert rest[i] in listing[1..];
      }
    }
  }

  /** What is taken first is lower than what is left. */
  predicate LowestFirst(uids: seq<Uid>, room: nat) {
    forall i, j :: 0 <= i < room <= j < |uids| && uids[j] !in uids[..room] ==> uids[i] < uids[j]
  }

  /** Each message above the old cursor and up to the new one is in the batch. */
  predicate NoneLeftOut(m: Mailbox, after: Uid, last: Uid, batch: seq<Uid>) {
    forall u :: u in m.messages && after < u <= last ==> u in batch
  }

  /** The part of a listing that a batch chooses from, which is known before the poll. */
  function Candidates(requested: seq<Uid>, listing: seq<Uid>, limit: nat): seq<Uid> {
    Unasked(listing, Members(Taken(requested, limit)))
  }

  /** Main result: in whatever order the server lists them, no message is left behind the cursor exactly
      when those of the listing that fill the batch are lower than all others. */
  lemma NoneSkippedIff(m: Mailbox, requested: seq<Uid>, listing: seq<Uid>, limit: nat, after: Uid)
    requires forall v :: v in listing <==> v in Matching(m, after + 1)
    ensures var b := Chosen(requested, listing, limit, after);
            NoneLeftOut(m, after, b.last, b.asked + b.recent)
            <==> LowestFirst(Candidates(requested, listing, limit), limit - |b.asked|)
  {
    var b := Chosen(requested, listing, limit, after);
    var c, room := Candidates(requested, listing, limit), limit - |b.asked|;
    UnaskedMembers(listing, Members(b.asked));
    if NoneLeftOut(m, after, b.last, b.asked + b.recent) {
      forall i, j | 0 <= i < room <= j < |c| && c[j] !in c[..room] ensures c[i] < c[j] {
        TakenIsLower(m, b, c, room, after, i, j);
      }
    }
    if LowestFirst(c, room) {
      forall u | u in m.messages && after < u <= b.last ensures u in b.asked + b.recent {
        LowerIsTaken(m, b, c, room, after, u);
      }
    }
  }

  /** A message left in the listing is above those taken, or else it would be left out below the cursor. */
  lemma TakenIsLower(m: Mailbox, b: Batch, c: seq<Uid>, room: nat, after: Uid, i: nat, j: nat)
    requires b.recent == Taken(c, room) && b.last == Highest(b.recent, after)
    requires forall u :: u in c <==> u in Matching(m, after + 1) && u !in b.asked
    requires NoneLeftOut(m, after, b.last, b.asked + b.recent)
    requires i < room <= j < |c| && c[j] !in c[..room]
    ensures c[i] < c[j]
  {
    assert c[i] in c && c[j] in c && c[..room][i] == c[i];
    assert c[i] in b.recent && c[i] <= b.last;
    assert c[j] !in b.asked + b.recent;
  }

  lemma LowerIsTaken(m: Mailbox, b: Batch, c: seq<Uid>, room: nat, after: Uid, u: Uid)
    requires b.recent == Taken(c, room) && b.last == Highest(b.recent, after)
    requires forall v :: v in c <==> v in Matching(m, after + 1) && v !in b.asked
    requires LowestFirst(c, room) && u in m.messages && after < u <= b.last
    ensures u in b.asked + b.recent
  {
    if u !in b.asked {
      assert u in c;
      var j :| 0 <= j < |c| && c[j] == u;
      var i :| 0 <= i < |b.recent| && b.recent[i] == b.last;
      assert c[i] == b.last;
      assert j < room ==> b.recent[j] == u;
    }
  }

  /** An ascending listing will do, for every batch. */
  lemma AscendingIsLowestFirst(listing: seq<Uid>, asked: set<Uid>, room: nat)
    requires Ascending(listing)
    ensures LowestFirst(Unasked(listing, asked), room)
  {
    UnaskedAscends(listing, asked);
  }

  lemma NoneSkipped(m: Mailbox, requested: seq<Uid>, listing: seq<Uid>, limit: nat, after: Uid)
    requires Ascending(listing) && forall v :: v in listing <==> v in Matching(m, after + 1)
    ensures var b := Chosen(requested, listing, limit, after); NoneLeftOut(m, after, b.last, b.asked + b.recent)
  {
    AscendingIsLowestFirst(listing, Members(Taken(requested, limit)), limit - |Taken(requested, limit)|);
    NoneSkippedIff(m, requested, listing, limit, after);
  }

  /** A listing out of order that moves the cursor past a message left out. */
  lemma UnorderedListingSkips(a: Message)
    ensures var m := Mailbox(1, map[3 := a, 5 := a], 6);
            var b := Chosen([], [5, 3], 1, 0);
            && m.Valid() && (forall v :: v in [5, 3] <==> v in Matching(m, 1))
            && !LowestFirst(Candidates([], [5, 3], 1), 1) && !NoneLeftOut(m, 0, b.last, b.asked + b.recent)
  {
    var m, b := Mailbox(1, map[3 := a, 5 := a], 6), Chosen([], [5, 3], 1, 0);
    assert 3 in m.messages && 3 <= b.last && 3 !in b.asked + b.recent;
    NoneSkippedIff(m, [], [5, 3], 1, 0);
  }

  // ---------- what the server may do ----------

  datatype Change = Append(message: Message) | Expunge(uid: Uid) | Renumber(mailbox: Mailbox)

  predicate MayChange(m: Mailbox, change: Change) {
    change.Renumber? ==> change.mailbox.Valid() && change.mailbox.validity > m.validity
  }

  function Changed(m: Mailbox, change: Change): Mailbox {
    match change
    case Append(message) => m.(messages := m.messages[m.next := message], next := m.next + 1)
    case Expunge(uid) => m.(messages := m.messages - {uid})
    case Renumber(mailbox) => mailbox
  }

  // ---------- the cursor ----------

  /** The cursor is an identifier that the server has given out, if the numbering is still the same. */
  predicate Numbered(cursor: Uid, validity: nat, m: Mailbox) {
    validity <= m.validity && (validity == m.validity ==> cursor < m.next)
  }

  /** Every message up to the cursor has been processed. */
  predicate Covered(records: map<Key, Record>, cursor: Uid, validity: nat, m: Mailbox) {
    validity == m.validity ==> forall u :: u in m.messages && u <= cursor ==> Recorded(records, m.messages[u])
  }

  /** Each supported attachment is decided, but for some. */
  predicate DecidedBut(records: map<Key, Record>, m: Message, excused: set<Key>) {
    forall i: nat :: i < |m.attachments| && m.attachments[i].supported ==>
      KeyOf(m, i) in records && (records[KeyOf(m, i)].status == InProgress ==> KeyOf(m, i) in excused)
  }

  /** Every message up to the cursor has been processed to its end, but for some attachments. */
  predicate AllDecidedBut(records: map<Key, Record>, cursor: Uid, validity: nat, m: Mailbox, excused: set<Key>) {
    validity == m.validity ==> forall u :: u in m.messages && u <= cursor ==> DecidedBut(records, m.messages[u], excused)
  }

  lemma ChangeCovers(records: map<Key, Record>, cursor: Uid, validity: nat, m: Mailbox, change: Change)
    requires m.Valid() && MayChange(m, change) && Numbered(cursor, validity, m)
    ensures Changed(m, change).Valid() && Numbered(cursor, validity, Changed(m, change))
    ensures Covered(records, cursor, validity, m) ==> Covered(records, cursor, validity, Changed(m, change))
    ensures forall excused :: AllDecidedBut(records, cursor, validity, m, excused) ==>
              AllDecidedBut(records, cursor, validity, Changed(m, change), excused)
  {
    hide Recorded, DecidedBut;
  }
}
