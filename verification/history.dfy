/** Reviewed metadata and its history, apps/api/pdi/ingestion/review.py, and the promotion log of
    extractions, apps/api/pdi/ingestion/versions.py, for one document. */
module History {
  import opened Common

  type Value = string
  type ExtractionId = nat

  /** The four columns of a document, and the keys of its canonical metadata. */
  datatype Field = Title | DocumentDate | LifeArea | DocumentType | Other(key: string)

  const COLUMNS: seq<Field> := [Title, DocumentDate, LifeArea, DocumentType]

  datatype Status = Pending | Accepted | Rejected | Superseded

  datatype Proposal = Proposal(field: Field, proposed: Option<Value>, normalized: Option<Value>, structured: Option<Value>,
                               fromRun: bool, verified: bool, status: Status)

  datatype Entry = Entry(field: Field, previous: Option<Value>, next: Option<Value>)

  datatype Refusal = NotFound | NotPending | Unverified | ValueRequired | Unparsable | AlreadyCanonical

  type Values = map<Field, Option<Value>>

  function Get(values: Values, f: Field): Option<Value> { if f in values then values[f] else None }

  /** The values that the history leads to. */
  function Replay(initial: Values, history: seq<Entry>): Values {
    if history == [] then initial
    else
      var last := history[|history| - 1];
      Replay(initial, history[..|history| - 1])[last.field := last.next]
  }

  predicate Agrees(initial: Values, history: seq<Entry>, values: Values, f: Field) {
    Get(Replay(initial, history), f) == Get(values, f)
  }

  /** Each entry of a field starts from the value that the entries before it lead to, and changes it. */
  predicate Linked(initial: Values, history: seq<Entry>, f: Field) {
    forall i :: 0 <= i < |history| && history[i].field == f ==>
      history[i].previous == Get(Replay(initial, history[..i]), f) && history[i].previous != history[i].next
  }

  function Recorded(history: seq<Entry>, field: Field, previous: Option<Value>, next: Option<Value>): seq<Entry> {
    if previous == next then history else history + [Entry(field, previous, next)]
  }

  lemma ReplayAppend(initial: Values, history: seq<Entry>, e: Entry)
    ensures Replay(initial, history + [e]) == Replay(initial, history)[e.field := e.next]
  {
  }

  /** Setting a field and recording it keeps every field's history right. */
  lemma RecordedAgrees(initial: Values, history: seq<Entry>, values: Values, field: Field, next: Option<Value>, f: Field)
    requires Agrees(initial, history, values, f) && Linked(initial, history, f)
    ensures var history' := Recorded(history, field, Get(values, field), next);
            Agrees(initial, history', values[field := next], f) && Linked(initial, history', f)
  {
    if Get(values, field) != next {
      hide Replay;
      ReplayAppend(initial, history, Entry(field, Get(values, field), next));
      LinkedAppend(initial, history, values, Entry(field, Get(values, field), next), f);
    }
  }

  lemma LinkedAppend(initial: Values, history: seq<Entry>, values: Values, e: Entry, f: Field)
    requires Agrees(initial, history, values, f) && Linked(initial, history, f)
    requires e.previous == Get(values, e.field) != e.next
    ensures Linked(initial, history + [e], f)
  {
    hide Replay;
    var history' := history + [e];
    forall i | 0 <= i < |history'| && history'[i].field == f
      ensures history'[i].previous == Get(Replay(initial, history'[..i]), f) && history'[i].previous != history'[i].next
    {
      if i < |history| {
        assert history'[..i] == history[..i] && history'[i] == history[i];
      } else {
        assert history'[..i] == history;
      }
    }
  }

  predicate AllRight(initial: Values, history: seq<Entry>, values: Values, fields: set<Field>) {
    forall f :: f in fields ==> Agrees(initial, history, values, f) && Linked(initial, history, f)
  }

  // ---------- promotions ----------

  datatype Promotion = Promotion(previous: Option<ExtractionId>, promoted: ExtractionId)

  function CanonicalAfter(promotions: seq<Promotion>, n: nat): Option<ExtractionId>
    requires n <= |promotions|
  {
    if n == 0 then None else Some(promotions[n - 1].promoted)
  }

  /** Each promotion starts from the one before it, and the last is canonical. */
  predicate Chained(promotions: seq<Promotion>, canonical: Option<ExtractionId>) {
    && (forall i :: 0 <= i < |promotions| ==>
          promotions[i].previous == CanonicalAfter(promotions, i) && promotions[i].previous != Some(promotions[i].promoted))
    && canonical == CanonicalAfter(promotions, |promotions|)
  }

  lemma OneMorePromotion(promotions: seq<Promotion>, canonical: Option<ExtractionId>, extraction: ExtractionId)
    requires Chained(promotions, canonical) && canonical != Some(extraction)
    ensures Chained(promotions + [Promotion(canonical, extraction)], Some(extraction))
  {
    var n, more := |promotions|, promotions + [Promotion(canonical, extraction)];
    forall i | 0 <= i <= n
      ensures more[i].previous == CanonicalAfter(more, i) && more[i].previous != Some(more[i].promoted)
    {
      assert CanonicalAfter(more, i) == CanonicalAfter(promotions, i);
      if i < n { assert more[i] == promotions[i]; }
    }
  }

  /** What the settings and the text parsers decide. */
  datatype Rules = Rules(strip: Value -> Value, parse: (Field, Value) -> Option<Value>, wrap: Value -> Value)

  datatype Action =
    | Confirm(title: Value, date: Option<Value>, lifeArea: Value, documentType: Option<Value>)
    | Accept(proposal: nat, edited: Option<Value>)
    | Reject(proposal: nat)
    | RejectMany(fields: Option<set<Field>>)
    | Overwrite(key: string, value: Value)
    | Persist(extraction: ExtractionId)
    | Promote(extraction: ExtractionId)

  class Review {
    const rules: Rules
    ghost const initial: Values
    var values: Values
    var history: seq<Entry>
    var proposals: seq<Proposal>
    var extractions: nat
    var canonical: Option<ExtractionId>
    var promotions: seq<Promotion>
    var currentRun: bool

    constructor (rules: Rules, values: Values, proposals: seq<Proposal>)
      ensures this.rules == rules && this.values == values && initial == values && history == []
      ensures this.proposals == proposals && canonical == None && promotions == [] && !currentRun
      ensures forall fields :: AllRight(initial, history, this.values, fields)
    {
      this.rules, this.values, this.proposals := rules, values, proposals;
      this.initial := values;
      history, extractions, canonical, promotions, currentRun := [], 0, None, [], false;
    }

    ghost predicate Right(fields: set<Field>)
      reads this
    {
      AllRight(initial, history, values, fields)
    }

    /** Sets a value and records it, unless it is the same. */
    method Record(field: Field, next: Option<Value>)
      modifies this`values, this`history
      ensures values == old(values)[field := next]
      ensures history == Recorded(old(history), field, Get(old(values), field), next)
      ensures forall fields :: old(Right(fields)) ==> Right(fields)
    {
      forall fields | Right(fields)
        ensures AllRight(initial, Recorded(history, field, Get(values, field), next), values[field := next], fields)
      {
        forall f | f in fields
          ensures Agrees(initial, Recorded(history, field, Get(values, field), next), values[field := next], f)
                  && Linked(initial, Recorded(history, field, Get(values, field), next), f)
        {
          RecordedAgrees(initial, history, values, field, next, f);
        }
      }
      var previous := Get(values, field);
      values := values[field := next];
      if previous != next {
        history := history + [Entry(field, previous, next)];
      }
    }

    /** Confirms the four columns; every pending proposal is then decided by what they say. */
    method ConfirmDocument(title: Value, date: Option<Value>, lifeArea: Value, documentType: Option<Value>)
      modifies this`values, this`history, this`proposals
      ensures forall fields :: old(Right(fields)) ==> Right(fields)
      ensures Get(values, Title) == Some(rules.strip(title)) && Get(values, DocumentDate) == date
      ensures Get(values, LifeArea) == Some(lifeArea)
      ensures Get(values, DocumentType) ==
                if documentType.Some? && documentType.value != "" then Some(rules.strip(documentType.value)) else None
      ensures forall f :: f !in COLUMNS ==> Get(values, f) == Get(old(values), f)
      ensures |proposals| == |old(proposals)|
      ensures forall p :: 0 <= p < |proposals| ==>
                var before := old(proposals)[p];
                proposals[p] == if before.status != Pending then before
                                else if (before.field in COLUMNS && before.proposed == Get(values, before.field))
                                        || (before.field !in COLUMNS && before.proposed == None)
                                then before.(status := Accepted) else before.(status := Superseded)
    {
      var confirmed := [Some(rules.strip(title)), date, Some(lifeArea),
                        if documentType.Some? && documentType.value != "" then Some(rules.strip(documentType.value)) else None];
      for i := 0 to |COLUMNS|
        invariant proposals == old(proposals)
        invariant forall fields :: old(Right(fields)) ==> Right(fields)
        invariant forall k :: 0 <= k < i ==> Get(values, COLUMNS[k]) == confirmed[k]
        invariant forall f :: f !in COLUMNS ==> Get(values, f) == Get(old(values), f)
      {
        Record(COLUMNS[i], confirmed[i]);
      }
      assert Get(values, COLUMNS[0]) == confirmed[0] && Get(values, COLUMNS[1]) == confirmed[1];
      assert Get(values, COLUMNS[2]) == confirmed[2];
      assert Get(values, COLUMNS[3]) == confirmed[3];
      ghost var confirmedValues, confirmedHistory := values, history;
      for p := 0 to |proposals|
        invariant values == confirmedValues && history == confirmedHistory
        invariant |proposals| == |old(proposals)|
        invariant forall k :: p <= k < |proposals| ==> proposals[k] == old(proposals)[k]
        invariant forall k :: 0 <= k < p ==>
                    proposals[k] == if old(proposals)[k].status != Pending then old(proposals)[k]
                                    else old(proposals)[k].(status :=
                                           if ColumnValue(values, old(proposals)[k].field) == old(proposals)[k].proposed
                                           then Accepted else Superseded)
      {
        if proposals[p].status == Pending {
          var agreed := ColumnValue(values, proposals[p].field) == proposals[p].proposed;
          proposals := proposals[p := proposals[p].(status := if agreed then Accepted else Superseded)];
        }
      }
    }

    /** Accepts one proposal as it is or edited; its competitors for the field are superseded. */
    method AcceptProposal(p: nat, edited: Option<Value>) returns (e: Option<Refusal>)
      modifies this`values, this`history, this`proposals
      ensures forall fields :: old(Right(fields)) ==> Right(fields)
      ensures e.Some? ==> values == old(values) && history == old(history) && proposals == old(proposals)
      ensures p >= |old(proposals)| ==> e == Some(NotFound)
      ensures p < |old(proposals)| ==>
                var before := old(proposals)[p];
                if before.status != Pending then e == Some(NotPending)
                else if before.fromRun && !before.verified then e == Some(Unverified)
                else forall said :: SaidFirst([edited, before.normalized, before.proposed], said) ==>
                  var value := rules.strip(said);
                  if value == "" then e == Some(ValueRequired)
                  else if before.field in COLUMNS && rules.parse(before.field, value) == None then e == Some(Unparsable)
                  else
                    && e == None
                    && Get(values, before.field) == (if before.field in COLUMNS then rules.parse(before.field, value)
                                                     else if edited == None then before.structured
                                                     else Some(rules.wrap(value)))
                    && p < |proposals|
                    && proposals[p] == before.(status := Accepted,
                                               normalized := if edited == None then before.normalized else Some(value))
      ensures e.None? ==> |proposals| == |old(proposals)| && p < |proposals|
                          && forall q :: 0 <= q < |proposals| && q != p ==>
                               proposals[q] == if old(proposals)[q].field == old(proposals)[p].field
                                                  && old(proposals)[q].status == Pending
                                               then old(proposals)[q].(status := Superseded) else old(proposals)[q]
      ensures e.None? ==>
                var field := old(proposals)[p].field;
                && (forall f :: f != field ==> Get(values, f) == Get(old(values), f))
                && history == if Get(values, field) == Get(old(values), field) then old(history)
                              else old(history) + [Entry(field, Get(old(values), field), Get(values, field))]
    {
      hide SaidFirst, Chosen, AllRight;
      if p >= |proposals| { return Some(NotFound); }
      if proposals[p].status != Pending { return Some(NotPending); }
      if proposals[p].fromRun && !proposals[p].verified { return Some(Unverified); }
      var proposal := proposals[p];
      ChosenIsSaidFirst(edited, proposal);
      var value := rules.strip(Chosen(edited, proposal));
      if value == "" { return Some(ValueRequired); }
      var next: Option<Value>;
      if proposal.field in COLUMNS {
        next := rules.parse(proposal.field, value);
        if next == None { return Some(Unparsable); }
      } else {
        next := if edited == None then proposal.structured else Some(rules.wrap(value));
      }
      Record(proposal.field, next);
      var normalized := if edited.Some? then Some(value) else proposal.normalized;
      proposals := proposals[p := proposal.(status := Accepted, normalized := normalized)];
      SupersedeOthers(p);
      return None;
    }

    method SupersedeOthers(p: nat)
      requires p < |proposals|
      modifies this`proposals
      ensures |proposals| == |old(proposals)| && proposals[p] == old(proposals)[p]
      ensures forall q :: 0 <= q < |proposals| && q != p ==>
                proposals[q] == if old(proposals)[q].field == old(proposals)[p].field && old(proposals)[q].status == Pending
                                then old(proposals)[q].(status := Superseded) else old(proposals)[q]
    {
      var field := proposals[p].field;
      for q := 0 to |proposals|
        invariant |proposals| == |old(proposals)| && proposals[p] == old(proposals)[p]
        invariant forall k :: q <= k < |proposals| ==> proposals[k] == old(proposals)[k]
        invariant forall k :: 0 <= k < q && k != p ==>
                    proposals[k] == if old(proposals)[k].field == field && old(proposals)[k].status == Pending
                                    then old(proposals)[k].(status := Superseded) else old(proposals)[k]
      {
        if q != p && proposals[q].field == field && proposals[q].status == Pending {
          proposals := proposals[q := proposals[q].(status := Superseded)];
        }
      }
    }

    method RejectProposal(p: nat) returns (e: Option<Refusal>)
      modifies this`proposals
      ensures e == if p >= |old(proposals)| then Some(NotFound)
                   else if old(proposals)[p].status != Pending then Some(NotPending) else None
      ensures proposals == if e.Some? then old(proposals) else old(proposals)[p := old(proposals)[p].(status := Rejected)]
    {
      if p >= |proposals| { return Some(NotFound); }
      if proposals[p].status != Pending { return Some(NotPending); }
      proposals := proposals[p := proposals[p].(status := Rejected)];
      return None;
    }

    method RejectProposals(fields: Option<set<Field>>)
      modifies this`proposals
      ensures |proposals| == |old(proposals)|
      ensures forall p :: 0 <= p < |proposals| ==>
                proposals[p] == if old(proposals)[p].status == Pending
                                   && (fields == None || fields == Some({}) || old(proposals)[p].field in fields.value)
                                then old(proposals)[p].(status := Rejected) else old(proposals)[p]
    {
      for p := 0 to |proposals|
        invariant |proposals| == |old(proposals)|
        invariant forall k :: p <= k < |proposals| ==> proposals[k] == old(proposals)[k]
        invariant forall k :: 0 <= k < p ==>
                    proposals[k] == if old(proposals)[k].status == Pending
                                       && (fields == None || fields == Some({}) || old(proposals)[k].field in fields.value)
                                    then old(proposals)[k].(status := Rejected) else old(proposals)[k]
      {
        if proposals[p].status == Pending && (fields == None || fields == Some({}) || proposals[p].field in fields.value) {
          proposals := proposals[p := proposals[p].(status := Rejected)];
        }
      }
    }

    /** What accepted knowledge does to the metadata: it sets a key and records nothing. A history
        that was right stays right exactly when the key had that value already. */
    method OverwriteMetadata(key: string, value: Value)
      modifies this`values
      ensures values == old(values)[Other(key) := Some(value)]
      ensures forall fields :: Other(key) !in fields && old(Right(fields)) ==> Right(fields)
      ensures old(Agrees(initial, history, values, Other(key))) ==>
                (Agrees(initial, history, values, Other(key)) <==> Get(old(values), Other(key)) == Some(value))
      ensures Agrees(initial, history, values, Other(key)) <==> Get(Replay(initial, history), Other(key)) == Some(value)
    {
      values := values[Other(key) := Some(value)];
      assert forall f :: f != Other(key) ==> Get(values, f) == Get(old(values), f);
    }

    // ---------- extractions ----------

    /** The first extraction becomes canonical by itself. */
    method PersistExtraction(extraction: ExtractionId)
      requires Chained(promotions, canonical)
      modifies this`canonical, this`promotions, this`extractions
      ensures Chained(promotions, canonical) && old(promotions) <= promotions
      ensures canonical == if old(canonical) == None then Some(extraction) else old(canonical)
      ensures promotions == old(promotions) + if old(canonical) == None then [Promotion(None, extraction)] else []
      ensures extractions == if extraction < old(extractions) then old(extractions) else extraction + 1
    {
      if extraction >= extractions {
        extractions := extraction + 1;
      }
      if canonical == None {
        canonical := Some(extraction);
        promotions := promotions + [Promotion(None, extraction)];
      }
    }

    method PromoteExtraction(extraction: ExtractionId) returns (e: Option<Refusal>)
      requires Chained(promotions, canonical)
      modifies this`canonical, this`promotions, this`currentRun
      ensures Chained(promotions, canonical)
      ensures e == if extraction >= extractions then Some(NotFound)
                   else if old(canonical) == Some(extraction) then Some(AlreadyCanonical) else None
      ensures if e.None? then canonical == Some(extraction) && !currentRun
                              && promotions == old(promotions) + [Promotion(old(canonical), extraction)]
              else canonical == old(canonical) && promotions == old(promotions) && currentRun == old(currentRun)
    {
      if extraction >= extractions { return Some(NotFound); }
      var previous := canonical;
      if previous == Some(extraction) { return Some(AlreadyCanonical); }
      OneMorePromotion(promotions, canonical, extraction);
      canonical := Some(extraction);
      promotions := promotions + [Promotion(previous, extraction)];
      currentRun := false;
      return None;
    }

    // ---------- runs ----------

    method Perform(action: Action, ghost fields: set<Field>)
      requires Chained(promotions, canonical)
      modifies this
      ensures Chained(promotions, canonical) && old(promotions) <= promotions
      ensures old(Right(fields)) && LeavesAlone(action, fields) ==> Right(fields)
    {
      hide Chained, AllRight;
      match action {
        case Confirm(title, date, lifeArea, documentType) => ConfirmDocument(title, date, lifeArea, documentType);
        case Accept(p, edited) => var _ := AcceptProposal(p, edited);
        case Reject(p) => var _ := RejectProposal(p);
        case RejectMany(names) => RejectProposals(names);
        case Overwrite(key, value) => OverwriteMetadata(key, value);
        case Persist(extraction) => PersistExtraction(extraction);
        case Promote(extraction) => var _ := PromoteExtraction(extraction);
      }
    }

    /** Main result: after any run, the history of a field that accepted knowledge never overwrote
        leads to its current value, entry by entry, and the promotion log to the canonical extraction. */
    method RunReview(actions: seq<Action>, ghost fields: set<Field>)
      requires Chained(promotions, canonical)
      modifies this
      ensures Chained(promotions, canonical) && old(promotions) <= promotions
      ensures old(Right(fields)) && (forall i :: 0 <= i < |actions| ==> LeavesAlone(actions[i], fields)) ==> Right(fields)
    {
      hide Chained, AllRight;
      for i := 0 to |actions|
        invariant Chained(promotions, canonical) && old(promotions) <= promotions
        invariant old(Right(fields)) && (forall k :: 0 <= k < i ==> LeavesAlone(actions[k], fields)) ==> Right(fields)
      {
        Perform(actions[i], fields);
      }
    }
  }

  /** One accepted organization is enough for a replay that is wrong. */
  method AcceptedKnowledgeIsNotReplayed(rules: Rules, key: string, value: Value) returns (review: Review)
    ensures Get(review.values, Other(key)) == Some(value)
    ensures Get(Replay(review.initial, review.history), Other(key)) == None
  {
    review := new Review(rules, map[], []);
    review.OverwriteMetadata(key, value);
  }

  /** A proposal for a field that is no column is compared with nothing. */
  function ColumnValue(values: Values, f: Field): Option<Value> { if f in COLUMNS then Get(values, f) else None }

  function Chosen(edited: Option<Value>, p: Proposal): Value {
    if edited.Some? && edited.value != "" then edited.value
    else if p.normalized.Some? && p.normalized.value != "" then p.normalized.value
    else if p.proposed.Some? then p.proposed.value
    else ""
  }

  /** The first of these texts that says anything. */
  predicate SaidFirst(texts: seq<Option<Value>>, said: Value) {
    if said == "" then forall i :: 0 <= i < |texts| ==> texts[i] in {None, Some("")}
    else exists i :: 0 <= i < |texts| && texts[i] == Some(said) && forall k :: 0 <= k < i ==> texts[k] in {None, Some("")}
  }

  lemma ChosenIsSaidFirst(edited: Option<Value>, p: Proposal)
    ensures forall said :: SaidFirst([edited, p.normalized, p.proposed], said) <==> said == Chosen(edited, p)
  {
    var texts, chosen := [edited, p.normalized, p.proposed], Chosen(edited, p);
    if edited.Some? && edited.value != "" {
      assert texts[0] == Some(chosen);
    } else if p.normalized.Some? && p.normalized.value != "" {
      assert texts[1] == Some(chosen);
    } else {
      assert texts[2] == Some(chosen) || chosen == "";
    }
    forall said | SaidFirst(texts, said) ensures said == chosen {
      assert texts[0] == edited && texts[1] == p.normalized && texts[2] == p.proposed;
    }
  }

  predicate LeavesAlone(action: Action, fields: set<Field>) {
    action.Overwrite? ==> Other(action.key) !in fields
  }
}
