/** What callers of the accept and merge functions see, row by row, without the steps by which it gets there. */
module OrganizationEffects {
  import opened Common
  import opened Organizations
  import opened OrganizationRuns

  // ---------- exact matches ----------

  predicate Named(a: Archive, n: string, o: nat) {
    n != "" && IsActive(a, o) && a.organizations[o].normalized == n
  }

  predicate Aliased(a: Archive, n: string, o: nat) {
    n != "" && IsActive(a, o) && exists k :: 0 <= k < |a.aliases| && a.aliases[k].organization == o && a.aliases[k].normalized == n
  }

  /** An accepted proposal with an identifier in common, whose organization is still active. */
  predicate Shares(a: Archive, identifiers: set<Identifier>, p: nat, o: OrganizationId) {
    && p < |a.proposals| && a.proposals[p].status == Accepted && a.proposals[p].resolved == Some(o) && IsActive(a, o)
    && exists x :: x in identifiers && x in a.proposals[p].identifiers
  }

  /** The first organization with that canonical name, or else with that alias, or else the one of the first
      proposal with an identifier in common. */
  ghost predicate Matches(a: Archive, n: string, identifiers: set<Identifier>, o: OrganizationId) {
    if exists k: nat :: Named(a, n, k) then Named(a, n, o) && forall k: nat :: Named(a, n, k) ==> o <= k
    else if exists k: nat :: Aliased(a, n, k) then Aliased(a, n, o) && forall k: nat :: Aliased(a, n, k) ==> o <= k
    else exists p: nat :: Shares(a, identifiers, p, o)
                          && forall q: nat, other: OrganizationId :: Shares(a, identifiers, q, other) ==> p <= q
  }

  lemma ResolveMatches(a: Archive, n: string, identifiers: set<Identifier>)
    ensures var found := Resolve(a, n, identifiers);
            if found.Some? then Matches(a, n, identifiers, found.value) else forall o: OrganizationId :: !Matches(a, n, identifiers, o)
  {
    var count := |a.organizations|;
    var isCanonical := (o: nat) => n != "" && IsActive(a, o) && a.organizations[o].normalized == n;
    var isAlias := (o: nat) => n != "" && IsActive(a, o) && AliasRow(a.aliases, o, n);
    var isIdentified := (p: nat) => p < |a.proposals| && IdentifiedBy(a, a.proposals[p], identifiers);
    assert forall k: nat :: (Named(a, n, k) <==> isCanonical(k)) && (Named(a, n, k) ==> k < count);
    assert forall k: nat :: (Aliased(a, n, k) <==> isAlias(k)) && (Aliased(a, n, k) ==> k < count);
    forall p: nat ensures isIdentified(p) <==> exists o: OrganizationId :: Shares(a, identifiers, p, o) {
      SharesIff(a, identifiers, p);
    }
    var canonical, byAlias, p := First(count, isCanonical), First(count, isAlias), First(|a.proposals|, isIdentified);
    if canonical.Some? {
      assert Named(a, n, canonical.value) && Resolve(a, n, identifiers) == canonical;
    } else if byAlias.Some? {
      assert forall k: nat :: !Named(a, n, k);
      assert Aliased(a, n, byAlias.value) && Resolve(a, n, identifiers) == byAlias;
    } else {
      assert forall k: nat :: !Named(a, n, k) && !Aliased(a, n, k);
      if p.Some? {
        SharesIff(a, identifiers, p.value);
        var o := a.proposals[p.value].resolved.value;
        assert isIdentified(p.value) && Resolve(a, n, identifiers) == Some(o) && Shares(a, identifiers, p.value, o);
        forall q: nat, other: OrganizationId | Shares(a, identifiers, q, other) ensures p.value <= q {
          assert isIdentified(q);
        }
      } else {
        forall q: nat, other: OrganizationId ensures !Shares(a, identifiers, q, other) {
          assert !isIdentified(q);
        }
      }
    }
  }

  lemma SharesIff(a: Archive, identifiers: set<Identifier>, p: nat)
    ensures p < |a.proposals| && IdentifiedBy(a, a.proposals[p], identifiers)
            <==> exists o: OrganizationId :: Shares(a, identifiers, p, o)
    ensures forall o: OrganizationId :: Shares(a, identifiers, p, o) ==> a.proposals[p].resolved == Some(o)
  {
    if p < |a.proposals| && IdentifiedBy(a, a.proposals[p], identifiers) {
      var x :| x in a.proposals[p].identifiers * identifiers;
      assert Shares(a, identifiers, p, a.proposals[p].resolved.value);
    }
    forall o: OrganizationId | Shares(a, identifiers, p, o) ensures IdentifiedBy(a, a.proposals[p], identifiers) {
      var x :| x in identifiers && x in a.proposals[p].identifiers;
      assert x in a.proposals[p].identifiers * identifiers;
    }
  }

  // ---------- accepting an organization ----------

  /** Only a pending, verified proposal can be reviewed. */
  function Unreviewable(a: Archive, p: ProposalId): Option<Refusal> {
    if p >= |a.proposals| then Some(NotFound)
    else if a.proposals[p].status != Pending then Some(NotPending)
    else if !a.proposals[p].verified then Some(Unverified)
    else None
  }

  /** The organization that a reviewer chose: the target, or else the proposal's own suggestion. */
  predicate Chose(a: Archive, p: ProposalId, d: Decision, o: OrganizationId)
    requires p < |a.proposals|
  {
    d == LinkExisting(Some(o)) || (d == LinkExisting(None) && a.proposals[p].possible == Some(o))
  }

  ghost predicate AcceptSeen(norm: Norm, a: Archive, p: ProposalId, name: string, identifiers: set<Identifier>, d: Decision,
                             b: Archive, r: Result<OrganizationId, Refusal>)
  {
    if Unreviewable(a, p).Some? then r == Err(Unreviewable(a, p).value) && b == a
    else if name == "" then r == Err(NameRequired) && b == a
    else if d.LinkExisting? && forall o: OrganizationId :: Chose(a, p, d, o) ==> !IsActive(a, o) then
      r == Err(ActiveTargetRequired) && b == a
    else
      && r.Ok?
      && AcceptedFor(norm, a, p, name, d, b, r.value)
      && (d.LinkExisting? ==> Chose(a, p, d, r.value) && IsActive(a, r.value) && b.organizations == a.organizations)
      && (d.Create? ==>
            if exists o: OrganizationId :: Matches(a, norm(name), identifiers, o)
            then Matches(a, norm(name), identifiers, r.value) && b.organizations == a.organizations
            else r.value == |a.organizations| && b.organizations == a.organizations + [Organization(name, norm(name), Active, None)])
  }

  /** The organization has the name, the document and its metadata, and nothing else changed. */
  ghost predicate AcceptedFor(norm: Norm, a: Archive, p: ProposalId, name: string, d: Decision, b: Archive, o: OrganizationId)
    requires p < |a.proposals|
  {
    var document := a.proposals[p].document;
    && o < |b.organizations|
    && (forall x, n :: AliasRow(b.aliases, x, n) <==>
          AliasRow(a.aliases, x, n) || (x == o && n == norm(name) && n != b.organizations[o].normalized))
    && (forall l :: l in b.links <==> l in a.links || l == Link(o, document))
    && b.metadata == a.metadata[document := o]
    && b.proposals == a.proposals[p := a.proposals[p].(status := Accepted, resolved := Some(o),
                         possible := if d.Create? && o < |a.organizations| then Some(o) else a.proposals[p].possible)]
    && b.items == a.items && b.merges == a.merges && b.contractLinks == a.contractLinks
  }

  lemma AcceptEffects(norm: Norm, a: Archive, p: ProposalId, name: string, identifiers: set<Identifier>, d: Decision)
    ensures var tried := AcceptOrganization(norm, a, p, name, identifiers, d);
            && (tried.Err? ==> AcceptSeen(norm, a, p, name, identifiers, d, a, Err(tried.error)))
            && (tried.Ok? ==>
                  && p < |tried.value.proposals| && tried.value.proposals[p].resolved.Some?
                  && AcceptSeen(norm, a, p, name, identifiers, d, tried.value, Ok(tried.value.proposals[p].resolved.value)))
  {
    hide Matches, Resolve, AcceptedFor, AliasRow;
    var tried := AcceptOrganization(norm, a, p, name, identifiers, d);
    if Unreviewable(a, p).None? && name != "" {
      if d.LinkExisting? {
        var target := if d.target.Some? then d.target else a.proposals[p].possible;
        if target.Some? {
          assert Chose(a, p, d, target.value);
          if IsActive(a, target.value) {
            AttachedFor(norm, a, a, p, name, target.value, false, d);
          }
        }
      } else {
        var found := Resolve(a, norm(name), identifiers);
        ResolveMatches(a, norm(name), identifiers);
        if found.Some? {
          ResolveActive(a, norm(name), identifiers);
          AttachedFor(norm, a, a, p, name, found.value, true, d);
        } else {
          var made := a.(organizations := a.organizations + [Organization(name, norm(name), Active, None)]);
          AttachedFor(norm, a, made, p, name, |a.organizations|, false, d);
        }
      }
    }
  }

  lemma ResolveActive(a: Archive, n: string, identifiers: set<Identifier>)
    ensures var found := Resolve(a, n, identifiers); found.Some? ==> IsActive(a, found.value)
  {
  }

  lemma AttachedFor(norm: Norm, a: Archive, made: Archive, p: ProposalId, name: string, o: OrganizationId, matched: bool, d: Decision)
    requires p < |a.proposals| && o < |made.organizations| && made == a.(organizations := made.organizations)
    requires matched <==> d.Create? && o < |a.organizations|
    ensures AcceptedFor(norm, a, p, name, d, Attached(norm, made, p, o, name, matched), o)
  {
    AliasAdded(norm, a.aliases, o, made.organizations[o].normalized, name);
    if norm(name) == made.organizations[o].normalized {
      assert WithAlias(norm, a.aliases, o, made.organizations[o].normalized, name) == a.aliases;
    }
  }

  // ---------- accepting other proposals ----------

  /** The first link of the document to an organization that is active. */
  predicate FirstOf(a: Archive, document: DocumentId, o: OrganizationId) {
    exists l :: 0 <= l < |a.links| && a.links[l] == Link(o, document) && IsActive(a, o)
                && forall k :: 0 <= k < l && a.links[k].document == document ==> !IsActive(a, a.links[k].organization)
  }

  ghost predicate ItemSeen(a: Archive, p: ProposalId, kind: ItemKind, named: Option<OrganizationId>,
                           b: Archive, r: Result<nat, Refusal>)
  {
    if Unreviewable(a, p).Some? then r == Err(Unreviewable(a, p).value) && b == a
    else
      var explicit := kind in {Contract, TimelineEvent} && named.Some?;
      if explicit && named.value >= |a.organizations| then r == Err(UnknownOrganization) && b == a
      else
        var document, i := a.proposals[p].document, |a.items|;
        && r == Ok(i)
        && |b.items| == i + 1 && b.items[..i] == a.items && b.items[i].kind == kind && b.items[i].document == document
        && (if explicit then b.items[i].organization == named
            else if b.items[i].organization.Some? then FirstOf(a, document, b.items[i].organization.value)
            else forall l :: l in a.links && l.document == document ==> !IsActive(a, l.organization))
        && (forall l :: l in b.contractLinks <==>
              l in a.contractLinks || (kind == Contract && l == ContractLink(i, document)))
        && b.proposals == a.proposals[p := a.proposals[p].(status := Accepted)]
        && b == a.(items := b.items, contractLinks := b.contractLinks, proposals := b.proposals)
  }

  lemma ItemEffects(a: Archive, p: ProposalId, kind: ItemKind, named: Option<OrganizationId>)
    ensures var tried := AcceptItem(a, p, kind, named);
            && (tried.Err? ==> ItemSeen(a, p, kind, named, a, Err(tried.error)))
            && (tried.Ok? ==> ItemSeen(a, p, kind, named, tried.value, Ok(|a.items|)))
  {
    if Unreviewable(a, p).None? {
      FirstOfIs(a, a.proposals[p].document);
    }
  }

  lemma FirstOfIs(a: Archive, document: DocumentId)
    ensures var found := OrganizationForDocument(a, document);
            if found.Some? then FirstOf(a, document, found.value)
            else forall l :: l in a.links && l.document == document ==> !IsActive(a, l.organization)
  {
    var isLink := (l: nat) => l < |a.links| && LinksActive(a, a.links[l], document);
    var l := First(|a.links|, isLink);
    if l.Some? {
      assert a.links[l.value] == Link(a.links[l.value].organization, document);
      forall k | 0 <= k < l.value && a.links[k].document == document ensures !IsActive(a, a.links[k].organization) {
        assert !isLink(k);
      }
    } else {
      forall k | k in a.links && k.document == document ensures !IsActive(a, k.organization) {
        var i :| 0 <= i < |a.links| && a.links[i] == k;
        assert !isLink(i);
      }
    }
  }

  ghost predicate LinkedSeen(a: Archive, p: ProposalId, contract: Option<nat>, b: Archive, r: Result<nat, Refusal>) {
    if Unreviewable(a, p).Some? then r == Err(Unreviewable(a, p).value) && b == a
    else if contract.Some? && contract.value < |a.items| && a.items[contract.value].kind == Contract then
      && r == Ok(contract.value)
      && (forall l :: l in b.contractLinks <==>
            l in a.contractLinks || l == ContractLink(contract.value, a.proposals[p].document))
      && b.proposals == a.proposals[p := a.proposals[p].(status := Accepted)]
      && b == a.(contractLinks := b.contractLinks, proposals := b.proposals)
    else r == Err(ContractRequired) && b == a
  }

  // ---------- merging ----------

  /** A name of the source, as it is normalized when it is added to the target. */
  predicate Brings(norm: Norm, a: Archive, s: OrganizationId, n: string)
    requires s < |a.organizations|
  {
    n == norm(a.organizations[s].name)
    || exists k :: 0 <= k < |a.aliases| && a.aliases[k].organization == s && n == norm(a.aliases[k].name)
  }

  /** The source points to the target, which has its names, documents, metadata and items; nothing else changed. */
  ghost predicate MergeSeen(norm: Norm, a: Archive, s: OrganizationId, t: OrganizationId, b: Archive)
    requires s < |a.organizations| && t < |a.organizations|
  {
    && b.organizations == a.organizations[s := a.organizations[s].(status := Status.Merged, mergedInto := Some(t))]
    && (forall o, n :: AliasRow(b.aliases, o, n) <==>
          AliasRow(a.aliases, o, n) || (o == t && n != a.organizations[t].normalized && Brings(norm, a, s, n)))
    && (forall l :: l in b.links <==>
          (l in a.links && l.organization != s) || (l.organization == t && Link(s, l.document) in a.links))
    && |b.items| == |a.items|
    && (forall i :: 0 <= i < |a.items| ==>
          b.items[i] == if a.items[i].organization == Some(s) then a.items[i].(organization := Some(t)) else a.items[i])
    && (forall d :: d in b.metadata <==> d in a.metadata || Link(s, d) in a.links)
    && (forall d :: d in b.metadata ==> b.metadata[d] == if Link(s, d) in a.links then t else a.metadata[d])
    && b.merges == a.merges + [Merge(s, t)]
    && b.proposals == a.proposals && b.contractLinks == a.contractLinks
  }

  lemma MergeEffects(norm: Norm, a: Archive, s: OrganizationId, t: OrganizationId)
    requires s < |a.organizations| && t < |a.organizations| && s != t
    ensures MergeSeen(norm, a, s, t, MergedArchive(norm, a, s, t))
  {
    var names, canonical := [a.organizations[s].name] + NamesOf(a.aliases, s), a.organizations[t].normalized;
    var added := WithAliases(norm, a.aliases, t, canonical, names);
    AliasesAddedIff(norm, a.aliases, t, canonical, names);
    NamesOfComplete(a.aliases, s);
    forall o, n ensures AliasRow(added, o, n) <==>
                          AliasRow(a.aliases, o, n) || (o == t && n != canonical && Brings(norm, a, s, n))
    {
      BroughtIff(norm, a, s, n);
    }
    MovedLinks(a.links, a.links, s, t);
    WithoutLinks(Moved(a.links, a.links, s, t), s);
  }

  lemma BroughtIff(norm: Norm, a: Archive, s: OrganizationId, n: string)
    requires s < |a.organizations|
    ensures Brings(norm, a, s, n) <==> exists name :: name in [a.organizations[s].name] + NamesOf(a.aliases, s) && norm(name) == n
  {
    NamesOfComplete(a.aliases, s);
    var names := [a.organizations[s].name] + NamesOf(a.aliases, s);
    assert names[0] in names;
  }

  lemma {:induction false} AliasesAddedIff(norm: Norm, aliases: seq<Alias>, o: OrganizationId, canonical: string, names: seq<string>)
    ensures forall p, n :: AliasRow(WithAliases(norm, aliases, o, canonical, names), p, n) <==>
              AliasRow(aliases, p, n) || (p == o && n != canonical && exists name :: name in names && norm(name) == n)
    decreases |names|
  {
    if names != [] {
      var last := |names| - 1;
      var earlier := WithAliases(norm, aliases, o, canonical, names[..last]);
      AliasesAddedIff(norm, aliases, o, canonical, names[..last]);
      AliasAdded(norm, earlier, o, canonical, names[last]);
      assert forall name :: name in names <==> name in names[..last] || name == names[last];
    }
  }
}
