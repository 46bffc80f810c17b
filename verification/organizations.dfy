/** Organization identity and merging: apps/api/pdi/knowledge/service.py.
    Every table is a sequence of rows in creation order, and a row's index is its identifier.
    `norm` is the name normalization, of which only determinacy is used. */
module Organizations {
  import opened Common

  type OrganizationId = nat
  type DocumentId = nat
  type ProposalId = nat
  type Norm = string -> string
  type Identifier = string

  datatype Status = Active | Inactive | Merged

  datatype Organization = Organization(name: string, normalized: string, status: Status, mergedInto: Option<OrganizationId>)

  datatype Alias = Alias(organization: OrganizationId, name: string, normalized: string)

  datatype Link = Link(organization: OrganizationId, document: DocumentId)

  datatype ItemKind = Contract | TimelineEvent | Deadline | ActionItem

  datatype Item = Item(kind: ItemKind, document: DocumentId, organization: Option<OrganizationId>)

  /** A contract is the item with that place. */
  datatype ContractLink = ContractLink(contract: nat, document: DocumentId)

  datatype ProposalStatus = Pending | Accepted | Rejected

  /** `identifiers` are the strong identifiers of the proposal's own payload. */
  datatype Proposal = Proposal(document: DocumentId, verified: bool, status: ProposalStatus,
                               identifiers: set<Identifier>, possible: Option<OrganizationId>,
                               resolved: Option<OrganizationId>)

  datatype Merge = Merge(source: OrganizationId, target: OrganizationId)

  datatype Archive = Archive(
    organizations: seq<Organization>,
    aliases: seq<Alias>,
    links: seq<Link>,
    items: seq<Item>,
    proposals: seq<Proposal>,
    metadata: map<DocumentId, OrganizationId>,
    merges: seq<Merge>,
    contractLinks: seq<ContractLink>)

  datatype Refusal =
    | NotFound | NotPending | Unverified | NameRequired | ActiveTargetRequired | UnknownOrganization | ContractRequired
    | MustBeDistinct | BothMustBeActive

  datatype Decision = Create | LinkExisting(target: Option<OrganizationId>)

  predicate IsActive(a: Archive, o: OrganizationId) {
    o < |a.organizations| && a.organizations[o].status == Active
  }

  // ---------- names ----------

  predicate AliasRow(aliases: seq<Alias>, o: OrganizationId, n: string) {
    exists k :: 0 <= k < |aliases| && aliases[k].organization == o && aliases[k].normalized == n
  }

  predicate HasName(a: Archive, o: OrganizationId, n: string) {
    o < |a.organizations| && (a.organizations[o].normalized == n || AliasRow(a.aliases, o, n))
  }

  function WithAlias(norm: Norm, aliases: seq<Alias>, o: OrganizationId, canonical: string, name: string): seq<Alias> {
    if AliasRow(aliases, o, norm(name)) || norm(name) == canonical then aliases
    else aliases + [Alias(o, name, norm(name))]
  }

  /** The first row that satisfies a condition. */
  function First(n: nat, holds: nat -> bool): (i: Option<nat>)
    ensures i.Some? ==> i.value < n && holds(i.value) && forall k :: 0 <= k < i.value ==> !holds(k)
    ensures i.None? ==> forall k :: 0 <= k < n ==> !holds(k)
  {
    if n == 0 then None
    else
      var earlier := First(n - 1, holds);
      if earlier.Some? then earlier else if holds(n - 1) then Some(n - 1) else None
  }

  /** Canonical names come first, then aliases, then strong identifiers of accepted proposals. */
  function Resolve(a: Archive, n: string, identifiers: set<Identifier>): (found: Option<OrganizationId>)
    ensures found.Some? ==> IsActive(a, found.value)
    ensures forall o: nat :: n != "" && IsActive(a, o) && HasName(a, o, n) ==> found.Some? && HasName(a, found.value, n)
    ensures (forall o: nat :: n != "" && IsActive(a, o) ==> !HasName(a, o, n)) ==>
              (found.Some? <==> exists p :: 0 <= p < |a.proposals| && IdentifiedBy(a, a.proposals[p], identifiers))
  {
    var count := |a.organizations|;
    var isCanonical := (o: nat) => n != "" && IsActive(a, o) && a.organizations[o].normalized == n;
    var isAlias := (o: nat) => n != "" && IsActive(a, o) && AliasRow(a.aliases, o, n);
    var canonical := First(count, isCanonical);
    if canonical.Some? then canonical
    else
      var byAlias := First(count, isAlias);
      if byAlias.Some? then byAlias
      else
        assert forall o: nat :: IsActive(a, o) ==> !isCanonical(o) && !isAlias(o);
        var isIdentified := (p: nat) => p < |a.proposals| && IdentifiedBy(a, a.proposals[p], identifiers);
        var p := First(|a.proposals|, isIdentified);
        assert forall k: nat | k < |a.proposals| :: isIdentified(k) == IdentifiedBy(a, a.proposals[k], identifiers);
        if p.None? then None else a.proposals[p.value].resolved
  }

  predicate IdentifiedBy(a: Archive, p: Proposal, identifiers: set<Identifier>) {
    p.status == Accepted && p.resolved.Some? && IsActive(a, p.resolved.value) && p.identifiers * identifiers != {}
  }

  // ---------- accepting ----------

  function Reviewed(a: Archive, p: ProposalId): Result<Proposal, Refusal> {
    if p >= |a.proposals| then Err(NotFound)
    else if a.proposals[p].status != Pending then Err(NotPending)
    else if !a.proposals[p].verified then Err(Unverified)
    else Ok(a.proposals[p])
  }

  function WithLink(links: seq<Link>, l: Link): seq<Link> {
    if l in links then links else links + [l]
  }

  /** The organization gets the name, the document link and the document's metadata. */
  function Attached(norm: Norm, a: Archive, p: ProposalId, o: OrganizationId, name: string, matched: bool): Archive
    requires p < |a.proposals| && o < |a.organizations|
  {
    var proposal := a.proposals[p];
    a.(aliases := WithAlias(norm, a.aliases, o, a.organizations[o].normalized, name),
       links := WithLink(a.links, Link(o, proposal.document)),
       metadata := a.metadata[proposal.document := o],
       proposals := a.proposals[p := proposal.(status := Accepted, resolved := Some(o),
                                               possible := if matched then Some(o) else proposal.possible)])
  }

  function AcceptOrganization(norm: Norm, a: Archive, p: ProposalId, name: string, identifiers: set<Identifier>, d: Decision)
    : Result<Archive, Refusal>
  {
    var reviewed := Reviewed(a, p);
    if reviewed.Err? then Err(reviewed.error)
    else if name == "" then Err(NameRequired)
    else if d.LinkExisting? then
      var target := if d.target.Some? then d.target else reviewed.value.possible;
      if target.None? || !IsActive(a, target.value) then Err(ActiveTargetRequired)
      else Ok(Attached(norm, a, p, target.value, name, false))
    else
      var found := Resolve(a, norm(name), identifiers);
      if found.Some? then Ok(Attached(norm, a, p, found.value, name, true))
      else
        var made := a.(organizations := a.organizations + [Organization(name, norm(name), Active, None)]);
        Ok(Attached(norm, made, p, |a.organizations|, name, false))
  }

  predicate LinksActive(a: Archive, l: Link, document: DocumentId) {
    l.document == document && IsActive(a, l.organization)
  }

  /** The first active organization linked to a document. */
  function OrganizationForDocument(a: Archive, document: DocumentId): (found: Option<OrganizationId>)
    ensures found.Some? ==> IsActive(a, found.value) && Link(found.value, document) in a.links
    ensures found.None? ==> forall l :: l in a.links ==> !LinksActive(a, l, document)
  {
    var isLink := (l: nat) => l < |a.links| && LinksActive(a, a.links[l], document);
    var l := First(|a.links|, isLink);
    assert forall k: nat | k < |a.links| :: isLink(k) == LinksActive(a, a.links[k], document);
    if l.None? then None else Some(a.links[l.value].organization)
  }

  /** A contract or an event may name its organization; that one need only exist. */
  function AcceptItem(a: Archive, p: ProposalId, kind: ItemKind, named: Option<OrganizationId>): Result<Archive, Refusal> {
    var reviewed := Reviewed(a, p);
    if reviewed.Err? then Err(reviewed.error)
    else
      var explicit := if kind in {Contract, TimelineEvent} then named else None;
      if explicit.Some? && explicit.value >= |a.organizations| then Err(UnknownOrganization)
      else
        var document := reviewed.value.document;
        var o := if explicit.Some? then explicit else OrganizationForDocument(a, document);
        Ok(a.(items := a.items + [Item(kind, document, o)],
              contractLinks := if kind == Contract then WithContractLink(a.contractLinks, ContractLink(|a.items|, document))
                               else a.contractLinks,
              proposals := a.proposals[p := reviewed.value.(status := Accepted)]))
  }

  function WithContractLink(links: seq<ContractLink>, l: ContractLink): seq<ContractLink> {
    if l in links then links else links + [l]
  }

  /** A contract proposal may be linked to a contract that exists, which then has one document more. */
  function LinkContract(a: Archive, p: ProposalId, contract: Option<nat>): Result<Archive, Refusal> {
    var reviewed := Reviewed(a, p);
    if reviewed.Err? then Err(reviewed.error)
    else if contract.None? || contract.value >= |a.items| || a.items[contract.value].kind != Contract then Err(ContractRequired)
    else
      Ok(a.(contractLinks := WithContractLink(a.contractLinks, ContractLink(contract.value, reviewed.value.document)),
            proposals := a.proposals[p := reviewed.value.(status := Accepted)]))
  }

  function Reject(a: Archive, p: ProposalId): Result<Archive, Refusal> {
    if p >= |a.proposals| then Err(NotFound)
    else if a.proposals[p].status != Pending then Err(NotPending)
    else Ok(a.(proposals := a.proposals[p := a.proposals[p].(status := Rejected)]))
  }

  // ---------- merging ----------

  function NamesOf(aliases: seq<Alias>, o: OrganizationId): seq<string> {
    if aliases == [] then []
    else (if aliases[0].organization == o then [aliases[0].name] else []) + NamesOf(aliases[1..], o)
  }

  function WithAliases(norm: Norm, aliases: seq<Alias>, o: OrganizationId, canonical: string, names: seq<string>): seq<Alias>
    decreases |names|
  {
    if names == [] then aliases
    else WithAlias(norm, WithAliases(norm, aliases, o, canonical, names[..|names| - 1]), o, canonical, names[|names| - 1])
  }

  function Moved(links: seq<Link>, from: seq<Link>, s: OrganizationId, t: OrganizationId): seq<Link>
    decreases |from|
  {
    if from == [] then links
    else
      var earlier := Moved(links, from[..|from| - 1], s, t);
      var l := from[|from| - 1];
      if l.organization == s then WithLink(earlier, Link(t, l.document)) else earlier
  }

  function Without(links: seq<Link>, s: OrganizationId): seq<Link> {
    if links == [] then []
    else (if links[0].organization == s then [] else [links[0]]) + Without(links[1..], s)
  }

  function Reassigned(item: Item, s: OrganizationId, t: OrganizationId): Item {
    if item.organization == Some(s) then item.(organization := Some(t)) else item
  }

  function MergedArchive(norm: Norm, a: Archive, s: OrganizationId, t: OrganizationId): Archive
    requires s < |a.organizations| && t < |a.organizations|
  {
    var source, target := a.organizations[s], a.organizations[t];
    a.(organizations := a.organizations[s := source.(status := Merged, mergedInto := Some(t))],
       aliases := WithAliases(norm, a.aliases, t, target.normalized, [source.name] + NamesOf(a.aliases, s)),
       links := Without(Moved(a.links, a.links, s, t), s),
       items := seq(|a.items|, i requires 0 <= i < |a.items| => Reassigned(a.items[i], s, t)),
       metadata := map d | d in a.metadata.Keys + (set l | l in a.links && l.organization == s :: l.document) ::
                     if Link(s, d) in a.links then t else a.metadata[d],
       merges := a.merges + [Merge(s, t)])
  }

  function MergeOrganizations(norm: Norm, a: Archive, s: OrganizationId, t: OrganizationId): Result<Archive, Refusal> {
    if s == t then Err(MustBeDistinct)
    else if !IsActive(a, s) || !IsActive(a, t) then Err(BothMustBeActive)
    else Ok(MergedArchive(norm, a, s, t))
  }

  // ---------- runs ----------

  datatype Action =
    | Propose(document: DocumentId, verified: bool, identifiers: set<Identifier>, possible: Option<OrganizationId>)
    | AcceptOrg(p: ProposalId, name: string, identifiers: set<Identifier>, decision: Decision)
    | Accept(p: ProposalId, kind: ItemKind, named: Option<OrganizationId>)
    | AcceptLinked(p: ProposalId, contract: Option<nat>)
    | Decline(p: ProposalId)
    | MergeInto(source: OrganizationId, target: OrganizationId)

  function Tried(norm: Norm, a: Archive, action: Action): Result<Archive, Refusal> {
    match action
    case Propose(document, verified, identifiers, possible) =>
      Ok(a.(proposals := a.proposals + [Proposal(document, verified, Pending, identifiers, possible, None)]))
    case AcceptOrg(p, name, identifiers, d) => AcceptOrganization(norm, a, p, name, identifiers, d)
    case Accept(p, kind, named) => AcceptItem(a, p, kind, named)
    case AcceptLinked(p, contract) => LinkContract(a, p, contract)
    case Decline(p) => Reject(a, p)
    case MergeInto(s, t) => MergeOrganizations(norm, a, s, t)
  }

  /** A refused request changes nothing. */
  function Next(norm: Norm, a: Archive, action: Action): Archive {
    var tried := Tried(norm, a, action);
    if tried.Ok? then tried.value else a
  }

  function After(norm: Norm, a: Archive, actions: seq<Action>): Archive
    decreases |actions|
  {
    if actions == [] then a else After(norm, Next(norm, a, actions[0]), actions[1..])
  }

  function Empty(): Archive { Archive([], [], [], [], [], map[], [], []) }
}
