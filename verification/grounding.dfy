/** Evidence from analysis to proposals: apps/api/pdi/intelligence/service.py and
    apps/api/pdi/knowledge/extraction.py, for one document. Rows are kept in creation order, and
    a row's index is its identifier. */
module Grounding {
  import opened Common
  import opened Pages

  type ExtractionId = nat
  type RunId = nat
  type ProposalId = nat

  datatype Span = Span(page: nat, start: nat, end: nat, text: string, verified: bool)

  datatype Candidate = Candidate(field: string, value: string, evidence: seq<Span>)

  datatype Extraction = Extraction(text: string, pages: seq<string>)

  datatype RunStatus = Running | Completed | FailedRun

  /** The worker asks once for each attempt of a job. */
  datatype RequestKey = RequestKey(job: nat, attempt: nat)

  /** `provider` is its name with its version, schema and prompt. */
  datatype Run = Run(key: RequestKey, extraction: ExtractionId, provider: string, status: RunStatus, current: bool)

  datatype ProposalStatus = Pending | Accepted | Rejected | Superseded

  /** A proposal without a run is guessed from the file name. */
  datatype Metadata = Metadata(run: Option<RunId>, field: string, value: string, evidence: seq<Span>,
                               verified: bool, status: ProposalStatus)

  datatype Knowledge = Knowledge(identity: string, extraction: ExtractionId, run: RunId, evidence: seq<Span>,
                                 verified: bool, status: ProposalStatus)

  /** What the schema of a provider's answer demands. */
  predicate ValidCandidate(c: Candidate) {
    c.evidence != [] && forall s :: s in c.evidence ==> 1 <= s.page && s.start < s.end && s.text != ""
  }

  predicate Supported(s: Span, text: string) {
    s.start <= s.end <= |text| && text[s.start..s.end] == s.text
  }

  /** Non-empty spans, each equal to the text at its offsets. */
  predicate Grounded(evidence: seq<Span>, text: string) {
    evidence != [] && forall s :: s in evidence ==> s.text != "" && Supported(s, text)
  }

  predicate AllSupported(candidates: seq<Candidate>, text: string) {
    forall c, s :: c in candidates && s in c.evidence ==> Supported(s, text)
  }

  predicate Marked(evidence: seq<Span>) { forall s :: s in evidence ==> s.verified }

  /** The same candidate, but for the marks on its evidence. */
  predicate SameButMarks(c: Candidate, checked: Candidate) {
    && checked.field == c.field && checked.value == c.value && |checked.evidence| == |c.evidence|
    && forall i :: 0 <= i < |c.evidence| ==> checked.evidence[i].(verified := c.evidence[i].verified) == c.evidence[i]
  }

  /** Sets `verified` on each span in turn, and stops at the first that is not in the text. */
  method VerifiedEvidence(c: Candidate, text: string) returns (ok: bool, checked: Candidate)
    requires ValidCandidate(c)
    ensures ok <==> forall s :: s in c.evidence ==> Supported(s, text)
    ensures SameButMarks(c, checked)
    ensures ok ==> Marked(checked.evidence) && Grounded(checked.evidence, text)
  {
    checked := c;
    for i := 0 to |c.evidence|
      invariant checked.field == c.field && checked.value == c.value && |checked.evidence| == |c.evidence|
      invariant forall k :: 0 <= k < i ==> Supported(c.evidence[k], text) && checked.evidence[k] == c.evidence[k].(verified := true)
      invariant forall k :: i <= k < |c.evidence| ==> checked.evidence[k] == c.evidence[k]
    {
      var span := c.evidence[i];
      assert span in c.evidence;
      if span.end > |text| || text[span.start..span.end] != span.text {
        return false, checked;
      }
      checked := checked.(evidence := checked.evidence[i := span.(verified := true)]);
    }
    return true, checked;
  }

  /** Evidence for a match in the text. */
  method EvidenceFor(e: Extraction, start: nat, end: nat) returns (s: Span)
    requires start < end <= |e.text|
    ensures Grounded([s], e.text) && s.verified && s.start == start && s.end == end
    ensures e.pages != [] && start <= PageEnd(e.pages, |e.pages| - 1) ==> OnPage(e.pages, start, s.page)
  {
    var page := PageByCounting(e.pages, start);
    s := Span(page, start, end, e.text[start..end], true);
  }

  /** Where a knowledge candidate takes its evidence from: a verified metadata proposal of the run,
      a match in the extraction's text, or nowhere. */
  datatype Draft = FromMetadata(proposal: ProposalId) | FromMatch(start: nat, end: nat) | Bare

  predicate Reusable(r: Run, extraction: ExtractionId, provider: string) {
    r.status == Completed && r.extraction == extraction && r.provider == provider
  }

  function MadeCurrent(runs: seq<Run>, run: RunId): seq<Run> {
    seq(|runs|, i requires 0 <= i < |runs| =>
      if i == run then runs[i].(status := Completed, current := true) else runs[i].(current := false))
  }

  function MetadataSuperseded(rows: seq<Metadata>): seq<Metadata> {
    seq(|rows|, m requires 0 <= m < |rows| =>
      if rows[m].run.Some? && rows[m].status == Pending then rows[m].(status := Superseded) else rows[m])
  }

  function KnowledgeSuperseded(rows: seq<Knowledge>, run: RunId): seq<Knowledge> {
    seq(|rows|, k requires 0 <= k < |rows| =>
      if rows[k].run != run && rows[k].status == Pending then rows[k].(status := Superseded) else rows[k])
  }

  /** The pending, verified proposal of a run for a candidate of its answer: its field, its value, and each
      of its spans, marked. */
  predicate Proposes(row: Metadata, run: RunId, c: Candidate) {
    && row.run == Some(run) && row.status == Pending && row.verified
    && row.field == c.field && row.value == c.value && |row.evidence| == |c.evidence|
    && forall k :: 0 <= k < |c.evidence| ==> row.evidence[k] == c.evidence[k].(verified := true)
  }

  /** A pending proposal of a run is superseded, and any other stays. */
  predicate Supersedes(before: Metadata, after: Metadata) {
    after == if before.run.Some? && before.status == Pending then before.(status := Superseded) else before
  }

  /** What a draft gives as evidence, and whether that is verified. */
  predicate RowFrom(draft: Draft, metadata: seq<Metadata>, e: Extraction, row: Knowledge) {
    && (row.verified <==> row.evidence != [] && forall s :: s in row.evidence ==> s.verified)
    && match draft
       case FromMetadata(p) => p < |metadata| && row.evidence == metadata[p].evidence
       case FromMatch(start, end) =>
         && start < end <= |e.text| && |row.evidence| == 1
         && row.evidence[0] == Span(row.evidence[0].page, start, end, e.text[start..end], true)
         && (e.pages != [] && start <= PageEnd(e.pages, |e.pages| - 1) ==> OnPage(e.pages, start, row.evidence[0].page))
       case Bare => row.evidence == []
  }

  /** The row is that of the first draft with its identity. */
  predicate FromFirst(identity: (string, Draft) -> string, e: Extraction, metadata: seq<Metadata>, drafts: seq<Draft>,
                      row: Knowledge, i: nat)
  {
    && i < |drafts| && row.identity == identity(e.text, drafts[i]) && RowFrom(drafts[i], metadata, e, row)
    && forall j :: 0 <= j < i ==> identity(e.text, drafts[j]) != row.identity
  }

  ghost predicate AllFromFirst(identity: (string, Draft) -> string, e: Extraction, metadata: seq<Metadata>, drafts: seq<Draft>,
                               from: nat, rows: seq<Knowledge>)
  {
    forall k :: from <= k < |rows| ==> FromDraft(identity, e, metadata, drafts, rows[k])
  }

  ghost predicate FromDraft(identity: (string, Draft) -> string, e: Extraction, metadata: seq<Metadata>, drafts: seq<Draft>,
                            row: Knowledge)
  {
    exists i: nat :: FromFirst(identity, e, metadata, drafts, row, i)
  }

  predicate HasIdentity(rows: seq<Knowledge>, identity: string) {
    exists k :: 0 <= k < |rows| && rows[k].identity == identity
  }

  predicate NewKnowledge(row: Knowledge, extraction: ExtractionId, run: RunId) {
    row.extraction == extraction && row.run == run && row.status == Pending
  }

  function Identities(identity: (string, Draft) -> string, text: string, drafts: seq<Draft>): seq<string> {
    seq(|drafts|, i requires 0 <= i < |drafts| => identity(text, drafts[i]))
  }

  /** The rows kept, and one new row for each identity that they did not have. */
  predicate Generated(kept: seq<Knowledge>, rows: seq<Knowledge>, extraction: ExtractionId, run: RunId, identities: seq<string>) {
    && kept <= rows
    && (forall k :: |kept| <= k < |rows| ==> NewKnowledge(rows[k], extraction, run) && rows[k].identity in identities)
    && (forall j, k :: 0 <= j < k < |rows| && |kept| <= k ==> rows[j].identity != rows[k].identity)
    && (forall i :: 0 <= i < |identities| ==> HasIdentity(rows, identities[i]))
  }

  lemma NothingGenerated(kept: seq<Knowledge>, extraction: ExtractionId, run: RunId)
    ensures Generated(kept, kept, extraction, run, [])
  {
  }

  lemma OneMoreGenerated(kept: seq<Knowledge>, rows: seq<Knowledge>, rows': seq<Knowledge>, extraction: ExtractionId, run: RunId,
                         identities: seq<string>, identity: string)
    requires Generated(kept, rows, extraction, run, identities)
    requires if HasIdentity(rows, identity) then rows' == rows
             else |rows'| == |rows| + 1 && rows <= rows'
                  && rows'[|rows|].identity == identity && NewKnowledge(rows'[|rows|], extraction, run)
    ensures Generated(kept, rows', extraction, run, identities + [identity])
  {
    hide NewKnowledge;
    var all := identities + [identity];
    assert forall s :: s in identities ==> s in all;
    assert all[|identities|] == identity;
    forall i | 0 <= i < |all| ensures HasIdentity(rows', all[i]) {
      if i < |identities| {
        var k :| 0 <= k < |rows| && rows[k].identity == identities[i];
        assert rows'[k].identity == all[i];
      }
    }
  }

  lemma NewIdentity(kept: seq<Knowledge>, rows: seq<Knowledge>, extraction: ExtractionId, run: RunId, identities: seq<string>, i: nat)
    requires i < |identities| && Generated(kept, rows, extraction, run, identities[..i]) && !HasIdentity(rows, identities[i])
    ensures forall j :: 0 <= j < i ==> identities[j] != identities[i]
  {
    forall j | 0 <= j < i ensures identities[j] != identities[i] {
      assert identities[..i][j] == identities[j];
    }
  }

  lemma OneMoreFromFirst(identity: (string, Draft) -> string, e: Extraction, metadata: seq<Metadata>, drafts: seq<Draft>,
                         from: nat, rows: seq<Knowledge>, rows': seq<Knowledge>)
    requires AllFromFirst(identity, e, metadata, drafts, from, rows) && rows <= rows' && |rows'| <= |rows| + 1
    requires |rows| < |rows'| ==> FromDraft(identity, e, metadata, drafts, rows'[|rows|])
    ensures AllFromFirst(identity, e, metadata, drafts, from, rows')
  {
    forall k | from <= k < |rows'| ensures FromDraft(identity, e, metadata, drafts, rows'[k]) {
      if k < |rows| {
        assert rows'[k] == rows[k];
      }
    }
  }

  lemma CheckedProposes(row: Metadata, run: RunId, c: Candidate, checked: Candidate)
    requires SameButMarks(c, checked) && Marked(checked.evidence)
    requires row == Metadata(Some(run), checked.field, checked.value, checked.evidence, true, Pending)
    ensures Proposes(row, run, c)
  {
    forall k | 0 <= k < |c.evidence| ensures checked.evidence[k] == c.evidence[k].(verified := true) {
      assert checked.evidence[k] in checked.evidence;
    }
  }

  class Analysis {
    const extractions: seq<Extraction>
    const identity: (string, Draft) -> string
    var runs: seq<Run>
    var metadata: seq<Metadata>
    var knowledge: seq<Knowledge>

    predicate RowsExist()
      reads this
    {
      && (forall r :: 0 <= r < |runs| ==> runs[r].extraction < |extractions|)
      && (forall m :: 0 <= m < |metadata| && metadata[m].run.Some? ==> metadata[m].run.value < |runs|)
      && (forall k :: 0 <= k < |knowledge| ==> knowledge[k].run < |runs| && knowledge[k].extraction < |extractions|)
    }

    predicate MetadataGrounded()
      reads this
      requires RowsExist()
    {
      forall m :: 0 <= m < |metadata| && metadata[m].run.Some? && metadata[m].verified ==>
        Marked(metadata[m].evidence)
        && Grounded(metadata[m].evidence, extractions[runs[metadata[m].run.value].extraction].text)
    }

    predicate KnowledgeGrounded()
      reads this
      requires RowsExist()
    {
      forall k :: 0 <= k < |knowledge| && knowledge[k].verified ==>
        Grounded(knowledge[k].evidence, extractions[knowledge[k].extraction].text)
    }

    /** Keys are never given twice; only the last completed run is current. */
    predicate RunsOk()
      reads this
    {
      && (forall r, s :: 0 <= r < s < |runs| ==> runs[r].key != runs[s].key)
      && (forall r, s :: 0 <= r < s < |runs| ==> !(runs[r].current && runs[s].current))
      && (forall r :: 0 <= r < |runs| && runs[r].current ==> runs[r].status == Completed)
    }

    predicate Valid()
      reads this
    {
      RowsExist() && MetadataGrounded() && RunsOk()
    }

    constructor (extractions: seq<Extraction>, identity: (string, Draft) -> string)
      ensures Valid() && KnowledgeGrounded() && this.extractions == extractions && this.identity == identity
      ensures runs == [] && metadata == [] && knowledge == []
    {
      this.extractions, this.identity := extractions, identity;
      runs, metadata, knowledge := [], [], [];
    }

    method FindRun(key: RequestKey) returns (found: Option<RunId>)
      ensures found.Some? ==> found.value < |runs| && runs[found.value].key == key
      ensures found.None? ==> forall r :: 0 <= r < |runs| ==> runs[r].key != key
    {
      for r := 0 to |runs|
        invariant forall k :: 0 <= k < r ==> runs[k].key != key
      {
        if runs[r].key == key {
          return Some(r);
        }
      }
      return None;
    }

    /** The current completed run of a provider on an extraction, or else the last one. */
    method FindCompleted(extraction: ExtractionId, provider: string) returns (found: Option<RunId>)
      ensures found.Some? ==> found.value < |runs| && Reusable(runs[found.value], extraction, provider)
                              && forall r :: 0 <= r < |runs| && Reusable(runs[r], extraction, provider) ==>
                                   runs[found.value].current || (!runs[r].current && r <= found.value)
      ensures found.None? ==> forall r :: 0 <= r < |runs| ==> !Reusable(runs[r], extraction, provider)
    {
      found := None;
      for r := 0 to |runs|
        invariant found.Some? ==> found.value < r && Reusable(runs[found.value], extraction, provider)
                                  && forall k :: 0 <= k < r && Reusable(runs[k], extraction, provider) ==>
                                       runs[found.value].current || (!runs[k].current && k <= found.value)
        invariant found.None? ==> forall k :: 0 <= k < r ==> !Reusable(runs[k], extraction, provider)
      {
        if Reusable(runs[r], extraction, provider) && (found.None? || !runs[found.value].current) {
          found := Some(r);
        }
      }
    }

    /** Checks every candidate, whether or not an earlier one failed. */
    method VerifyAll(candidates: seq<Candidate>, text: string) returns (ok: bool, checked: seq<Candidate>)
      requires forall c :: c in candidates ==> ValidCandidate(c)
      ensures ok <==> AllSupported(candidates, text)
      ensures |checked| == |candidates|
      ensures forall i :: 0 <= i < |candidates| ==> SameButMarks(candidates[i], checked[i])
      ensures ok ==> forall c :: c in checked ==> Marked(c.evidence) && Grounded(c.evidence, text)
    {
      ok, checked := true, [];
      for i := 0 to |candidates|
        invariant ok <==> AllSupported(candidates[..i], text)
        invariant |checked| == i && forall k :: 0 <= k < i ==> SameButMarks(candidates[k], checked[k])
        invariant ok ==> forall c :: c in checked ==> Marked(c.evidence) && Grounded(c.evidence, text)
      {
        assert candidates[i] in candidates && candidates[..i + 1] == candidates[..i] + [candidates[i]];
        var one, c := VerifiedEvidence(candidates[i], text);
        ok := ok && one;
        checked := checked + [c];
      }
      assert candidates[..|candidates|] == candidates;
    }

    /** Returns the run of a key if there is one, or a completed run to reuse; or else analyses. The
        run completes exactly when the provider answers and all its evidence is in the text. */
    method RunIntelligence(extraction: ExtractionId, key: RequestKey, provider: string, reuse: bool,
                           answer: Option<seq<Candidate>>)
      returns (run: RunId)
      requires Valid() && extraction < |extractions|
      requires answer.Some? ==> forall c :: c in answer.value ==> ValidCandidate(c)
      modifies this`runs, this`metadata
      ensures Valid() && run < |runs| && |old(runs)| <= |runs|
      ensures forall r :: 0 <= r < |old(runs)| ==> runs[r].extraction == old(runs)[r].extraction && runs[r].key == old(runs)[r].key
      ensures run < |old(runs)| ==> runs == old(runs) && metadata == old(metadata)
      ensures run >= |old(runs)| ==> run == |old(runs)| && |runs| == |old(runs)| + 1
      ensures forall r :: 0 <= r < |old(runs)| && old(runs)[r].key == key ==> run == r
      ensures run < |old(runs)| && runs[run].key != key ==>
                && reuse && runs[run].status == Completed
                && runs[run].extraction == extraction && runs[run].provider == provider
                && forall r :: 0 <= r < |runs| && Reusable(runs[r], extraction, provider) ==>
                     runs[run].current || (!runs[r].current && r <= run)
      ensures run >= |old(runs)| <==>
                forall r :: 0 <= r < |old(runs)| ==>
                  && old(runs)[r].key != key
                  && !(reuse && old(runs)[r].status == Completed
                       && old(runs)[r].extraction == extraction && old(runs)[r].provider == provider)
      ensures run >= |old(runs)| ==>
                if answer.Some? && AllSupported(answer.value, extractions[extraction].text) then
                  && runs[run] == Run(key, extraction, provider, Completed, true)
                  && (forall r :: 0 <= r < |old(runs)| ==> runs[r] == old(runs)[r].(current := false))
                  && |metadata| == |old(metadata)| + |answer.value|
                  && (forall m :: 0 <= m < |old(metadata)| ==> Supersedes(old(metadata)[m], metadata[m]))
                  && (forall i :: 0 <= i < |answer.value| ==> Proposes(metadata[|old(metadata)| + i], run, answer.value[i]))
                else
                  && runs == old(runs) + [Run(key, extraction, provider, FailedRun, false)]
                  && metadata == old(metadata)
    {
      hide Valid, AllSupported, ValidCandidate, Supersedes, Proposes;
      ReadyKeys();
      var existing := FindRun(key);
      if existing.Some? {
        return existing.value;
      }
      if reuse {
        var completed := FindCompleted(extraction, provider);
        if completed.Some? {
          return completed.value;
        }
      }
      run := Analyse(extraction, key, provider, answer);
    }

    lemma ReadyKeys()
      requires Valid()
      ensures forall r, s :: 0 <= r < s < |runs| ==> runs[r].key != runs[s].key
    {
    }

    method Analyse(extraction: ExtractionId, key: RequestKey, provider: string, answer: Option<seq<Candidate>>)
      returns (run: RunId)
      requires Valid() && extraction < |extractions|
      requires forall r :: 0 <= r < |runs| ==> runs[r].key != key
      requires answer.Some? ==> forall c :: c in answer.value ==> ValidCandidate(c)
      modifies this`runs, this`metadata
      ensures Valid() && run == |old(runs)| && |runs| == |old(runs)| + 1
      ensures forall r :: 0 <= r < |old(runs)| ==> runs[r].extraction == old(runs)[r].extraction && runs[r].key == old(runs)[r].key
      ensures if answer.Some? && AllSupported(answer.value, extractions[extraction].text) then
                && runs[run] == Run(key, extraction, provider, Completed, true)
                && (forall r :: 0 <= r < |old(runs)| ==> runs[r] == old(runs)[r].(current := false))
                && |metadata| == |old(metadata)| + |answer.value|
                && (forall m :: 0 <= m < |old(metadata)| ==> Supersedes(old(metadata)[m], metadata[m]))
                && (forall i :: 0 <= i < |answer.value| ==> Proposes(metadata[|old(metadata)| + i], run, answer.value[i]))
              else
                && runs == old(runs) + [Run(key, extraction, provider, FailedRun, false)]
                && metadata == old(metadata)
    {
      hide Grounded, AllSupported, ValidCandidate, Supersedes;
      run := StartRun(key, extraction, provider);
      if answer.None? {
        runs := runs[run := runs[run].(status := FailedRun)];
        return;
      }
      var ok, checked := VerifyAll(answer.value, extractions[extraction].text);
      if !ok {
        runs := runs[run := runs[run].(status := FailedRun)];
        return;
      }
      CompleteRun(run);
      AddProposals(run, checked);
      forall i | 0 <= i < |answer.value| ensures Proposes(metadata[|old(metadata)| + i], run, answer.value[i]) {
        assert checked[i] in checked;
        CheckedProposes(metadata[|old(metadata)| + i], run, answer.value[i], checked[i]);
      }
    }

    method StartRun(key: RequestKey, extraction: ExtractionId, provider: string) returns (run: RunId)
      requires Valid() && extraction < |extractions|
      requires forall r :: 0 <= r < |runs| ==> runs[r].key != key
      modifies this`runs
      ensures Valid() && run == |old(runs)| && runs == old(runs) + [Run(key, extraction, provider, Running, false)]
    {
      hide Grounded, Marked;
      run := |runs|;
      runs := runs + [Run(key, extraction, provider, Running, false)];
    }

    method CompleteRun(run: RunId)
      requires Valid() && run < |runs|
      modifies this`runs
      ensures Valid() && runs == MadeCurrent(old(runs), run)
    {
      hide Grounded, Marked;
      runs := MadeCurrent(runs, run);
    }

    /** Pending proposals of earlier runs are superseded, and the new run's are added. */
    method AddProposals(run: RunId, candidates: seq<Candidate>)
      requires Valid() && run < |runs|
      requires forall c :: c in candidates ==> Marked(c.evidence) && Grounded(c.evidence, extractions[runs[run].extraction].text)
      modifies this`metadata
      ensures Valid() && |metadata| == |old(metadata)| + |candidates|
      ensures forall m :: 0 <= m < |old(metadata)| ==> Supersedes(old(metadata)[m], metadata[m])
      ensures forall i :: 0 <= i < |candidates| ==>
                var c := candidates[i];
                metadata[|old(metadata)| + i] == Metadata(Some(run), c.field, c.value, c.evidence, true, Pending)
    {
      metadata := MetadataSuperseded(metadata);
      for i := 0 to |candidates|
        invariant |metadata| == |old(metadata)| + i
        invariant forall m :: 0 <= m < |old(metadata)| ==> Supersedes(old(metadata)[m], metadata[m])
        invariant forall m :: |old(metadata)| <= m < |metadata| ==>
                    var c := candidates[m - |old(metadata)|];
                    metadata[m] == Metadata(Some(run), c.field, c.value, c.evidence, true, Pending)
      {
        var c := candidates[i];
        var verified := forall s :: s in c.evidence ==> s.verified;
        assert c in candidates;
        metadata := metadata + [Metadata(Some(run), c.field, c.value, c.evidence, verified, Pending)];
      }
      forall m | |old(metadata)| <= m < |metadata|
        ensures Marked(metadata[m].evidence) && Grounded(metadata[m].evidence, extractions[runs[run].extraction].text)
      {
        assert candidates[m - |old(metadata)|] in candidates;
      }
    }

    predicate DraftOk(extraction: ExtractionId, run: RunId, draft: Draft)
      reads this
      requires extraction < |extractions|
    {
      match draft
      case FromMetadata(p) => p < |metadata| && metadata[p].run == Some(run) && metadata[p].verified
      case FromMatch(start, end) => start < end <= |extractions[extraction].text|
      case Bare => true
    }

    predicate AllDraftsOk(extraction: ExtractionId, run: RunId, drafts: seq<Draft>)
      reads this
      requires extraction < |extractions|
    {
      forall i :: 0 <= i < |drafts| ==> DraftOk(extraction, run, drafts[i])
    }

    /** One draft, unless a proposal has its identity already. */
    method Propose(extraction: ExtractionId, run: RunId, draft: Draft)
      requires Valid() && extraction < |extractions| && run < |runs| && DraftOk(extraction, run, draft)
      modifies this`knowledge
      ensures Valid()
      ensures extractions[runs[run].extraction].text == extractions[extraction].text && old(KnowledgeGrounded()) ==>
                KnowledgeGrounded()
      ensures var key := identity(extractions[extraction].text, draft);
              if HasIdentity(old(knowledge), key) then knowledge == old(knowledge)
              else |knowledge| == |old(knowledge)| + 1 && old(knowledge) <= knowledge
                   && knowledge[|old(knowledge)|].identity == key && NewKnowledge(knowledge[|old(knowledge)|], extraction, run)
                   && RowFrom(draft, metadata, extractions[extraction], knowledge[|old(knowledge)|])
    {
      hide Valid;
      var text := extractions[extraction].text;
      var evidence: seq<Span> := [];
      match draft {
        case FromMetadata(p) => evidence := metadata[p].evidence;
        case FromMatch(start, end) =>
          var s := EvidenceFor(extractions[extraction], start, end);
          evidence := [s];
        case Bare =>
      }
      var key := identity(text, draft);
      if !HasIdentity(knowledge, key) {
        var verified := evidence != [] && forall s :: s in evidence ==> s.verified;
        EvidenceGrounded(extraction, run, draft, evidence);
        AddKnowledge(Knowledge(key, extraction, run, evidence, verified, Pending));
      }
    }

    lemma EvidenceGrounded(extraction: ExtractionId, run: RunId, draft: Draft, evidence: seq<Span>)
      requires Valid() && extraction < |extractions| && run < |runs| && DraftOk(extraction, run, draft)
      requires draft.FromMetadata? ==> evidence == metadata[draft.proposal].evidence
      requires draft.FromMatch? ==> Grounded(evidence, extractions[extraction].text)
      requires draft.Bare? ==> evidence == []
      ensures evidence != [] && extractions[runs[run].extraction].text == extractions[extraction].text ==>
                Grounded(evidence, extractions[extraction].text)
    {
      hide Grounded, RunsOk;
    }

    method AddKnowledge(row: Knowledge)
      requires Valid() && row.run < |runs| && row.extraction < |extractions|
      modifies this`knowledge
      ensures Valid() && knowledge == old(knowledge) + [row]
      ensures old(KnowledgeGrounded()) && (row.verified ==> Grounded(row.evidence, extractions[row.extraction].text)) ==>
                KnowledgeGrounded()
    {
      hide Grounded, Marked;
      knowledge := knowledge + [row];
    }

    /** Pending knowledge of other runs is superseded, and each draft whose identity is new gets one
        pending row. Knowledge is grounded when the run analysed the text it is generated for. */
    method GenerateKnowledge(extraction: ExtractionId, run: RunId, drafts: seq<Draft>)
      requires Valid() && KnowledgeGrounded() && extraction < |extractions| && run < |runs|
      requires AllDraftsOk(extraction, run, drafts)
      modifies this`knowledge
      ensures Valid()
      ensures extractions[runs[run].extraction].text == extractions[extraction].text ==> KnowledgeGrounded()
      ensures runs[run].status != Completed ==> knowledge == old(knowledge)
      ensures runs[run].status == Completed ==>
                Generated(KnowledgeSuperseded(old(knowledge), run), knowledge, extraction, run,
                          Identities(identity, extractions[extraction].text, drafts))
      ensures runs[run].status == Completed ==>
                && |old(knowledge)| <= |knowledge|
                && (forall k :: 0 <= k < |old(knowledge)| ==>
                      var row := old(knowledge)[k];
                      knowledge[k] == if row.run != run && row.status == Pending then row.(status := Superseded) else row)
                && AllFromFirst(identity, extractions[extraction], metadata, drafts, |old(knowledge)|, knowledge)
    {
      hide Generated, HasIdentity, MetadataGrounded, RunsOk, KnowledgeGrounded;
      if runs[run].status != Completed {
        return;
      }
      Supersede(run);
      ghost var kept, identities := knowledge, Identities(identity, extractions[extraction].text, drafts);
      NothingGenerated(kept, extraction, run);
      assert identities[..0] == [];
      for i := 0 to |drafts|
        invariant Valid()
        invariant extractions[runs[run].extraction].text == extractions[extraction].text ==> KnowledgeGrounded()
        invariant Generated(kept, knowledge, extraction, run, identities[..i]) && kept <= knowledge
        invariant AllFromFirst(identity, extractions[extraction], metadata, drafts, |kept|, knowledge)
      {
        ghost var before := knowledge;
        Propose(extraction, run, drafts[i]);
        OneMoreGenerated(kept, before, knowledge, extraction, run, identities[..i], identities[i]);
        assert identities[..i + 1] == identities[..i] + [identities[i]];
        if |before| < |knowledge| {
          NewIdentity(kept, before, extraction, run, identities, i);
          assert forall j :: 0 <= j < i ==> identities[j] == identity(extractions[extraction].text, drafts[j]);
          assert FromFirst(identity, extractions[extraction], metadata, drafts, knowledge[|before|], i);
        }
        OneMoreFromFirst(identity, extractions[extraction], metadata, drafts, |kept|, before, knowledge);
      }
      assert identities[..|drafts|] == identities;
    }

    method Supersede(run: RunId)
      requires Valid()
      modifies this`knowledge
      ensures Valid() && knowledge == KnowledgeSuperseded(old(knowledge), run)
      ensures old(KnowledgeGrounded()) ==> KnowledgeGrounded()
    {
      hide Grounded, Marked;
      knowledge := KnowledgeSuperseded(knowledge, run);
    }

    /** Analysis and knowledge generation keep every verified proposal grounded, unless the key was used
        before on an extraction with another text. */
    method AnalyseAndPropose(extraction: ExtractionId, key: RequestKey, provider: string, answer: Option<seq<Candidate>>,
                             drafts: RunId -> seq<Draft>)
      returns (run: RunId)
      requires Valid() && KnowledgeGrounded() && extraction < |extractions|
      requires answer.Some? ==> forall c :: c in answer.value ==> ValidCandidate(c)
      modifies this
      ensures Valid() && run < |runs| && |old(runs)| <= |runs|
      ensures forall r :: 0 <= r < |runs| ==> runs[r].key == if r < |old(runs)| then old(runs)[r].key else key
      ensures run >= |old(runs)| <==>
                forall r :: 0 <= r < |old(runs)| ==>
                  && old(runs)[r].key != key
                  && !(old(runs)[r].status == Completed
                       && old(runs)[r].extraction == extraction && old(runs)[r].provider == provider)
      ensures if runs[run].status == Completed && AllDraftsOk(extraction, run, drafts(run)) then
                && AllFromFirst(identity, extractions[extraction], metadata, drafts(run), |old(knowledge)|, knowledge)
                && forall key :: key in Identities(identity, extractions[extraction].text, drafts(run)) ==> HasIdentity(knowledge, key)
              else knowledge == old(knowledge)
      ensures (forall r :: 0 <= r < |old(runs)| && old(runs)[r].key == key ==>
                 extractions[old(runs)[r].extraction].text == extractions[extraction].text) ==> KnowledgeGrounded()
    {
      run := RunIntelligence(extraction, key, provider, true, answer);
      if runs[run].status == Completed && AllDraftsOk(extraction, run, drafts(run)) {
        GenerateKnowledge(extraction, run, drafts(run));
        ghost var identities := Identities(identity, extractions[extraction].text, drafts(run));
        assert forall i :: 0 <= i < |identities| ==> HasIdentity(knowledge, identities[i]);
      }
    }

    /** Main result: over any requests with keys of their own every verified proposal stays grounded,
        whatever the providers answer and whichever completed runs are reused. */
    method AnalyseAll(requests: seq<Request>)
      requires Valid() && KnowledgeGrounded()
      requires forall i :: 0 <= i < |requests| ==> requests[i].Fits(|extractions|)
      requires KeysDistinct(requests) && forall r, i :: 0 <= r < |runs| && 0 <= i < |requests| ==> runs[r].key != requests[i].key
      modifies this
      ensures Valid() && KnowledgeGrounded() && |old(runs)| <= |runs|
      ensures forall r :: 0 <= r < |old(runs)| ==> runs[r].key == old(runs)[r].key
      ensures forall r :: |old(runs)| <= r < |runs| ==> KeyIn(runs[r].key, requests)
    {
      hide MetadataGrounded, RunsOk, KnowledgeGrounded, ValidCandidate;
      for i := 0 to |requests|
        invariant Valid() && KnowledgeGrounded() && |old(runs)| <= |runs|
        invariant forall r :: 0 <= r < |old(runs)| ==> runs[r].key == old(runs)[r].key
        invariant forall r :: |old(runs)| <= r < |runs| ==> KeyIn(runs[r].key, requests[..i])
      {
        var request := requests[i];
        assert requests[..i + 1][i] == request;
        KeyIsNew(requests, i);
        KeysStayIn(requests, i);
        var _ := AnalyseAndPropose(request.extraction, request.key, request.provider, request.answer, request.drafts);
      }
      assert requests[..|requests|] == requests;
    }
  }

  // ---------- requests ----------

  datatype Request = Request(key: RequestKey, extraction: ExtractionId, provider: string, answer: Option<seq<Candidate>>,
                             drafts: RunId -> seq<Draft>)
  {
    predicate Fits(extractions: nat) {
      extraction < extractions && (answer.Some? ==> forall c :: c in answer.value ==> ValidCandidate(c))
    }
  }

  predicate KeysDistinct(requests: seq<Request>) {
    forall i, j :: 0 <= i < j < |requests| ==> requests[i].key != requests[j].key
  }

  predicate KeyIn(key: RequestKey, requests: seq<Request>) {
    exists i :: 0 <= i < |requests| && requests[i].key == key
  }

  lemma KeyIsNew(requests: seq<Request>, i: nat)
    requires i < |requests| && KeysDistinct(requests)
    ensures !KeyIn(requests[i].key, requests[..i])
  {
  }

  lemma KeysStayIn(requests: seq<Request>, i: nat)
    requires i < |requests|
    ensures forall key :: KeyIn(key, requests[..i]) ==> KeyIn(key, requests[..i + 1])
    ensures KeyIn(requests[i].key, requests[..i + 1])
  {
    forall key | KeyIn(key, requests[..i]) ensures KeyIn(key, requests[..i + 1]) {
      var k :| 0 <= k < i && requests[..i][k].key == key;
      assert requests[..i + 1][k].key == key;
    }
    assert requests[..i + 1][i] == requests[i];
  }
}
