/** The accept and merge functions as they run, row by row, each equal to its step. */
module KnowledgeService {
  import opened Common
  import opened Organizations
  import opened OrganizationRuns
  import opened OrganizationEffects

  class Knowledge {
    const norm: Norm
    var organizations: seq<Organization>
    var aliases: seq<Alias>
    var links: seq<Link>
    var items: seq<Item>
    var proposals: seq<Proposal>
    var metadata: map<DocumentId, OrganizationId>
    var merges: seq<Merge>
    var contractLinks: seq<ContractLink>

    function Rows(): Archive
      reads this
    {
      Archive(organizations, aliases, links, items, proposals, metadata, merges, contractLinks)
    }

    constructor (norm: Norm)
      ensures this.norm == norm && Rows() == Empty() && Inv(norm, Rows())
    {
      this.norm := norm;
      organizations, aliases, links, items, proposals, metadata, merges := [], [], [], [], [], map[], [];
      contractLinks := [];
    }

    /** Fills one dictionary of canonical names and one of aliases, the first row winning. */
    method ResolveExactOrganization(n: string, identifiers: set<Identifier>) returns (found: Option<OrganizationId>)
      ensures found == Resolve(Rows(), n, identifiers)
      ensures if found.Some? then Matches(Rows(), n, identifiers, found.value)
              else forall o: OrganizationId :: !Matches(Rows(), n, identifiers, o)
    {
      hide Matches;
      var a := Rows();
      ResolveMatches(a, n, identifiers);
      var isCanonical := (o: nat) => n != "" && IsActive(a, o) && a.organizations[o].normalized == n;
      var isAlias := (o: nat) => n != "" && IsActive(a, o) && AliasRow(a.aliases, o, n);
      var canonical: map<string, OrganizationId> := map[];
      var byAlias: map<string, OrganizationId> := map[];
      if n != "" {
        for o := 0 to |organizations|
          invariant n in canonical <==> exists k: nat :: k < o && isCanonical(k)
          invariant n in canonical ==> isCanonical(canonical[n]) && canonical[n] < o
                                       && forall k: nat :: k < canonical[n] ==> !isCanonical(k)
          invariant n in byAlias <==> exists k: nat :: k < o && isAlias(k)
          invariant n in byAlias ==> isAlias(byAlias[n]) && byAlias[n] < o
                                     && forall k: nat :: k < byAlias[n] ==> !isAlias(k)
        {
          var organization := organizations[o];
          if organization.status == Active {
            var named := organization.normalized == n;
            var hasAlias := false;
            for k := 0 to |aliases|
              invariant hasAlias <==> exists j :: 0 <= j < k && aliases[j].organization == o && aliases[j].normalized == n
            {
              hasAlias := hasAlias || (aliases[k].organization == o && aliases[k].normalized == n);
            }
            assert hasAlias == isAlias(o) && named == isCanonical(o);
            if (named || hasAlias) && organization.normalized !in canonical {
              canonical := canonical[organization.normalized := o];
            }
            if hasAlias && n !in byAlias {
              byAlias := byAlias[n := o];
            }
          }
        }
      }
      FirstIs(|organizations|, isCanonical, if n in canonical then Some(canonical[n]) else None);
      FirstIs(|organizations|, isAlias, if n in byAlias then Some(byAlias[n]) else None);
      ResolveCases(a, n, identifiers, isCanonical, isAlias);
      if n in canonical {
        return Some(canonical[n]);
      }
      if n in byAlias {
        return Some(byAlias[n]);
      }
      for p := 0 to |proposals|
        invariant forall k :: 0 <= k < p ==> !IdentifiedBy(a, proposals[k], identifiers)
      {
        if IdentifiedBy(a, proposals[p], identifiers) {
          ResolveByProposal(a, n, identifiers, Some(p));
          return proposals[p].resolved;
        }
      }
      ResolveByProposal(a, n, identifiers, None);
      return None;
    }

    /** Afterwards the name is there once, unless it is the canonical one; other names stay. */
    method AddAlias(o: OrganizationId, name: string)
      requires o < |organizations|
      modifies this`aliases
      ensures aliases == WithAlias(norm, old(aliases), o, organizations[o].normalized, name)
      ensures old(aliases) <= aliases && (AliasesDistinct(old(aliases)) ==> AliasesDistinct(aliases))
      ensures forall p, n :: AliasRow(aliases, p, n) <==>
                AliasRow(old(aliases), p, n) || (p == o && n == norm(name) && n != organizations[o].normalized)
    {
      AliasAdded(norm, aliases, o, organizations[o].normalized, name);
      var normalized := norm(name);
      if !AliasRow(aliases, o, normalized) && normalized != organizations[o].normalized {
        aliases := aliases + [Alias(o, name, normalized)];
      }
    }

    /** Afterwards the link is there once; other links stay. */
    method LinkDocument(o: OrganizationId, document: DocumentId)
      modifies this`links
      ensures links == WithLink(old(links), Link(o, document))
      ensures old(links) <= links && (Distinct(old(links)) ==> Distinct(links))
      ensures forall l :: l in links <==> l in old(links) || l == Link(o, document)
    {
      if Link(o, document) !in links {
        links := links + [Link(o, document)];
      }
    }

    method Accept(p: ProposalId, name: string, identifiers: set<Identifier>, d: Decision)
      returns (r: Result<OrganizationId, Refusal>)
      modifies this
      ensures Rows() == Next(norm, old(Rows()), AcceptOrg(p, name, identifiers, d))
      ensures AcceptSeen(norm, old(Rows()), p, name, identifiers, d, Rows(), r)
      ensures forall t: OrganizationId :: d == LinkExisting(Some(t)) ==>
                if p < |old(proposals)| && old(proposals)[p].status == Pending && old(proposals)[p].verified
                   && name != "" && IsActive(old(Rows()), t)
                then r == Ok(t) && Link(t, old(proposals)[p].document) in links && metadata[old(proposals)[p].document] == t
                else r.Err? && Rows() == old(Rows())
    {
      hide AliasRow, AliasesDistinct, Distinct, WithLink, Matches, AcceptedFor;
      AcceptEffects(norm, Rows(), p, name, identifiers, d);
      if p >= |proposals| { return Err(NotFound); }
      if proposals[p].status != Pending { return Err(NotPending); }
      if !proposals[p].verified { return Err(Unverified); }
      if name == "" { return Err(NameRequired); }
      var proposal := proposals[p];
      var o: OrganizationId;
      if d.LinkExisting? {
        var target := if d.target.Some? then d.target else proposal.possible;
        if target.None? || !IsActive(Rows(), target.value) {
          return Err(ActiveTargetRequired);
        }
        o := target.value;
        AddAlias(o, name);
      } else {
        var found := ResolveExactOrganization(norm(name), identifiers);
        if found.Some? {
          o := found.value;
          proposal := proposal.(possible := found);
          AddAlias(o, name);
        } else {
          o := |organizations|;
          organizations := organizations + [Organization(name, norm(name), Active, None)];
        }
      }
      LinkDocument(o, proposal.document);
      metadata := metadata[proposal.document := o];
      proposals := proposals[p := proposal.(status := Accepted, resolved := Some(o))];
      return Ok(o);
    }

    method AcceptForDocument(p: ProposalId, kind: ItemKind, named: Option<OrganizationId>) returns (r: Result<nat, Refusal>)
      modifies this
      ensures Rows() == Next(norm, old(Rows()), Action.Accept(p, kind, named))
      ensures ItemSeen(old(Rows()), p, kind, named, Rows(), r)
    {
      ItemEffects(Rows(), p, kind, named);
      if p >= |proposals| { return Err(NotFound); }
      if proposals[p].status != Pending { return Err(NotPending); }
      if !proposals[p].verified { return Err(Unverified); }
      var proposal := proposals[p];
      var o := if kind in {Contract, TimelineEvent} then named else None;
      if o.Some? && o.value >= |organizations| { return Err(UnknownOrganization); }
      if o.None? {
        o := OrganizationForDocument(Rows(), proposal.document);
      }
      items := items + [Item(kind, proposal.document, o)];
      if kind == Contract {
        LinkToContract(|items| - 1, proposal.document);
      }
      proposals := proposals[p := proposal.(status := Accepted)];
      return Ok(|items| - 1);
    }

    method LinkToContract(contract: nat, document: DocumentId)
      modifies this`contractLinks
      ensures contractLinks == WithContractLink(old(contractLinks), ContractLink(contract, document))
      ensures forall l :: l in contractLinks <==> l in old(contractLinks) || l == ContractLink(contract, document)
    {
      if ContractLink(contract, document) !in contractLinks {
        contractLinks := contractLinks + [ContractLink(contract, document)];
      }
    }

    /** A contract proposal for a contract that is there already. */
    method AcceptLinked(p: ProposalId, contract: Option<nat>) returns (r: Result<nat, Refusal>)
      modifies this
      ensures Rows() == Next(norm, old(Rows()), Action.AcceptLinked(p, contract))
      ensures LinkedSeen(old(Rows()), p, contract, Rows(), r)
    {
      if p >= |proposals| { return Err(NotFound); }
      if proposals[p].status != Pending { return Err(NotPending); }
      if !proposals[p].verified { return Err(Unverified); }
      if contract.None? || contract.value >= |items| || items[contract.value].kind != Contract {
        return Err(ContractRequired);
      }
      LinkToContract(contract.value, proposals[p].document);
      proposals := proposals[p := proposals[p].(status := Accepted)];
      return Ok(contract.value);
    }

    method RejectProposal(p: ProposalId) returns (e: Option<Refusal>)
      modifies this`proposals
      ensures Rows() == Next(norm, old(Rows()), Decline(p))
      ensures e == if p >= |old(proposals)| then Some(NotFound)
                   else if old(proposals)[p].status != Pending then Some(NotPending) else None
      ensures proposals == if e.None? then old(proposals)[p := old(proposals)[p].(status := Rejected)] else old(proposals)
    {
      if p >= |proposals| { return Some(NotFound); }
      if proposals[p].status != Pending { return Some(NotPending); }
      proposals := proposals[p := proposals[p].(status := Rejected)];
      return None;
    }

    method MergeOrganizations(s: OrganizationId, t: OrganizationId) returns (r: Result<OrganizationId, Refusal>)
      modifies this
      ensures Rows() == Next(norm, old(Rows()), MergeInto(s, t))
      ensures r == if s == t then Err(MustBeDistinct)
                   else if IsActive(old(Rows()), s) && IsActive(old(Rows()), t) then Ok(t)
                   else Err(BothMustBeActive)
      ensures if r.Ok? then MergeSeen(norm, old(Rows()), s, t, Rows()) else Rows() == old(Rows())
    {
      hide MergeSeen;
      hide AliasRow, AliasesDistinct, Distinct, WithAlias, WithLink;
      if s == t { return Err(MustBeDistinct); }
      if !IsActive(Rows(), s) || !IsActive(Rows(), t) { return Err(BothMustBeActive); }
      var source, target := organizations[s], organizations[t];
      var names := [source.name] + NamesOf(aliases, s);
      for i := 0 to |names|
        invariant unchanged(`organizations, `links, `items, `proposals, `metadata, `merges, `contractLinks)
        invariant aliases == WithAliases(norm, old(aliases), t, target.normalized, names[..i])
      {
        AddAlias(t, names[i]);
        assert names[..i + 1][..i] == names[..i];
      }
      assert names[..|names|] == names;
      MoveLinks(s, t);
      MetadataMerged(old(Rows()), s, t, metadata);
      links := Without(links, s);
      ReassignItems(s, t);
      organizations := organizations[s := source.(status := Status.Merged, mergedInto := Some(t))];
      merges := merges + [Merge(s, t)];
      MergeEffects(norm, old(Rows()), s, t);
      return Ok(t);
    }

    /** Gives the target a link and the metadata for each document of the source. */
    method MoveLinks(s: OrganizationId, t: OrganizationId)
      modifies this`links, this`metadata
      ensures links == Moved(old(links), old(links), s, t)
      ensures forall d :: d in metadata <==> d in old(metadata) || Link(s, d) in old(links)
      ensures forall d :: d in metadata ==> metadata[d] == if Link(s, d) in old(links) then t else old(metadata)[d]
    {
      hide Distinct, WithLink;
      var rows := links;
      for i := 0 to |rows|
        invariant links == Moved(rows, rows[..i], s, t)
        invariant forall d :: d in metadata <==> d in old(metadata) || Link(s, d) in rows[..i]
        invariant forall d :: d in metadata ==>
                    metadata[d] == if Link(s, d) in rows[..i] then t else old(metadata)[d]
      {
        assert rows[..i + 1] == rows[..i] + [rows[i]];
        if rows[i].organization == s {
          LinkDocument(t, rows[i].document);
          metadata := metadata[rows[i].document := t];
        }
      }
      assert rows[..|rows|] == rows;
    }

    method ReassignItems(s: OrganizationId, t: OrganizationId)
      modifies this`items
      ensures items == seq(|old(items)|, i requires 0 <= i < |old(items)| => Reassigned(old(items)[i], s, t))
    {
      for i := 0 to |items|
        invariant |items| == |old(items)|
        invariant forall k :: 0 <= k < |items| ==> items[k] == if k < i then Reassigned(old(items)[k], s, t) else old(items)[k]
      {
        items := items[i := Reassigned(items[i], s, t)];
      }
    }
  }

  lemma FirstIs(n: nat, holds: nat -> bool, i: Option<nat>)
    requires i.Some? ==> i.value < n && holds(i.value) && forall k: nat :: k < i.value ==> !holds(k)
    requires i.None? ==> forall k: nat :: k < n ==> !holds(k)
    ensures First(n, holds) == i
  {
  }

  lemma ResolveCases(a: Archive, n: string, identifiers: set<Identifier>, isCanonical: nat -> bool, isAlias: nat -> bool)
    requires forall o: nat :: isCanonical(o) <==> n != "" && IsActive(a, o) && a.organizations[o].normalized == n
    requires forall o: nat :: isAlias(o) <==> n != "" && IsActive(a, o) && AliasRow(a.aliases, o, n)
    ensures First(|a.organizations|, isCanonical).Some? ==>
              Resolve(a, n, identifiers) == First(|a.organizations|, isCanonical)
    ensures First(|a.organizations|, isCanonical).None? && First(|a.organizations|, isAlias).Some? ==>
              Resolve(a, n, identifiers) == First(|a.organizations|, isAlias)
    ensures First(|a.organizations|, isCanonical).None? && First(|a.organizations|, isAlias).None? ==>
              forall o: nat :: n != "" && IsActive(a, o) ==> !HasName(a, o, n)
  {
    var count := |a.organizations|;
    var canonical := (o: nat) => n != "" && IsActive(a, o) && a.organizations[o].normalized == n;
    var byAlias := (o: nat) => n != "" && IsActive(a, o) && AliasRow(a.aliases, o, n);
    FirstIs(count, canonical, First(count, isCanonical));
    FirstIs(count, byAlias, First(count, isAlias));
    forall o: nat | First(count, isCanonical).None? && First(count, isAlias).None? && n != "" && IsActive(a, o)
      ensures !HasName(a, o, n)
    {
      assert !isCanonical(o) && !isAlias(o);
    }
  }

  lemma ResolveByProposal(a: Archive, n: string, identifiers: set<Identifier>, p: Option<nat>)
    requires forall o: nat :: n != "" && IsActive(a, o) ==> !HasName(a, o, n)
    requires p.Some? ==> p.value < |a.proposals| && IdentifiedBy(a, a.proposals[p.value], identifiers)
    requires forall k: nat :: k < (if p.Some? then p.value else |a.proposals|) ==> !IdentifiedBy(a, a.proposals[k], identifiers)
    ensures Resolve(a, n, identifiers) == if p.Some? then a.proposals[p.value].resolved else None
  {
    var isIdentified := (p: nat) => p < |a.proposals| && IdentifiedBy(a, a.proposals[p], identifiers);
    FirstIs(|a.proposals|, isIdentified, p);
  }

  lemma MetadataMerged(a: Archive, s: OrganizationId, t: OrganizationId, metadata: map<DocumentId, OrganizationId>)
    requires s < |a.organizations| && t < |a.organizations|
    requires forall d :: d in metadata <==> d in a.metadata || Link(s, d) in a.links
    requires forall d :: d in metadata ==> metadata[d] == if Link(s, d) in a.links then t else a.metadata[d]
    ensures forall norm :: metadata == MergedArchive(norm, a, s, t).metadata
  {
  }
}
