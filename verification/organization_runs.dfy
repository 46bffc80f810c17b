/** Merging is a union-find kept resolved, over every run of accepts and merges. */
module OrganizationRuns {
  import opened Common
  import opened Organizations

  // ---------- roots ----------

  function Redirect(m: Merge, o: OrganizationId): OrganizationId {
    if o == m.source then m.target else o
  }

  /** Where an organization ends up after a history of merges. */
  function Root(merges: seq<Merge>, o: OrganizationId): OrganizationId {
    if merges == [] then o else Redirect(merges[|merges| - 1], Root(merges[..|merges| - 1], o))
  }

  lemma RootAppend(merges: seq<Merge>, m: Merge, o: OrganizationId)
    ensures Root(merges + [m], o) == Redirect(m, Root(merges, o))
  {
  }

  /** When an organization was merged; never, when the index is past the history. */
  function MergedAt(merges: seq<Merge>, o: OrganizationId): nat {
    if merges == [] then 0 else if merges[0].source == o then 0 else 1 + MergedAt(merges[1..], o)
  }

  lemma {:induction false} MergedAtBounds(merges: seq<Merge>, o: OrganizationId)
    ensures MergedAt(merges, o) <= |merges|
    ensures MergedAt(merges, o) < |merges| ==> merges[MergedAt(merges, o)].source == o
    ensures forall i :: 0 <= i < MergedAt(merges, o) ==> merges[i].source != o
  {
    if merges != [] && merges[0].source != o {
      MergedAtBounds(merges[1..], o);
    }
  }

  // ---------- the invariant ----------

  /** Every source was active, its target too, and both facts are in the rows. */
  predicate MergesOk(a: Archive) {
    SourcesOnce(a.merges) && MergesInRows(a.merges, a.organizations) && RowsInMerges(a.merges, a.organizations)
  }

  /** No organization is merged twice, nor merged into once it is merged. */
  predicate SourcesOnce(merges: seq<Merge>) {
    && (forall i, j :: 0 <= i < j < |merges| ==> merges[i].source != merges[j].source)
    && (forall i, j :: 0 <= i <= j < |merges| ==> merges[i].source != merges[j].target)
  }

  predicate MergesInRows(merges: seq<Merge>, rows: seq<Organization>) {
    forall i :: 0 <= i < |merges| ==>
      merges[i].source < |rows| && merges[i].target < |rows| && rows[merges[i].source].mergedInto == Some(merges[i].target)
  }

  predicate RowsInMerges(merges: seq<Merge>, rows: seq<Organization>) {
    forall o :: 0 <= o < |rows| && rows[o].mergedInto.Some? ==> exists i :: 0 <= i < |merges| && merges[i].source == o
  }

  predicate StatusOk(a: Archive) {
    forall o :: 0 <= o < |a.organizations| ==>
      && a.organizations[o].status in {Active, Status.Merged}
      && (a.organizations[o].status == Status.Merged <==> a.organizations[o].mergedInto.Some?)
  }

  predicate NamesOk(norm: Norm, a: Archive) {
    && (forall o :: 0 <= o < |a.organizations| ==> a.organizations[o].normalized == norm(a.organizations[o].name))
    && (forall k :: 0 <= k < |a.aliases| ==> a.aliases[k].normalized == norm(a.aliases[k].name))
    && (forall k :: 0 <= k < |a.aliases| ==> a.aliases[k].organization < |a.organizations|)
  }

  predicate CanonicalNamesDistinct(a: Archive) {
    forall o, p :: 0 <= o < p < |a.organizations| && IsActive(a, o) && IsActive(a, p) && a.organizations[o].normalized != ""
      ==> a.organizations[o].normalized != a.organizations[p].normalized
  }

  predicate LinksOk(a: Archive) {
    && (forall l :: 0 <= l < |a.links| ==> IsActive(a, a.links[l].organization))
    && (forall k, l :: 0 <= k < l < |a.links| ==> a.links[k] != a.links[l])
    && (forall d :: d in a.metadata ==> Link(a.metadata[d], d) in a.links)
  }

  predicate ItemsOk(a: Archive) {
    forall i :: 0 <= i < |a.items| && a.items[i].organization.Some? ==> a.items[i].organization.value < |a.organizations|
  }

  /** Each contract has the document it was made from, and links are of contracts, each once. */
  predicate ContractsOk(a: Archive) {
    && (forall i :: 0 <= i < |a.items| && a.items[i].kind == Contract ==> ContractLink(i, a.items[i].document) in a.contractLinks)
    && (forall l :: l in a.contractLinks ==> l.contract < |a.items| && a.items[l.contract].kind == Contract)
    && (forall k, l :: 0 <= k < l < |a.contractLinks| ==> a.contractLinks[k] != a.contractLinks[l])
  }

  predicate Inv(norm: Norm, a: Archive) {
    && MergesOk(a) && StatusOk(a) && NamesOk(norm, a) && CanonicalNamesDistinct(a) && LinksOk(a) && ItemsOk(a)
    && ContractsOk(a)
  }

  // ---------- aliases and links ----------

  predicate AliasesDistinct(aliases: seq<Alias>) {
    forall i, j :: 0 <= i < j < |aliases| ==>
      aliases[i].organization != aliases[j].organization || aliases[i].normalized != aliases[j].normalized
  }

  lemma AliasAdded(norm: Norm, aliases: seq<Alias>, o: OrganizationId, canonical: string, name: string)
    ensures aliases <= WithAlias(norm, aliases, o, canonical, name)
    ensures norm(name) == canonical || AliasRow(WithAlias(norm, aliases, o, canonical, name), o, norm(name))
    ensures forall p, n :: AliasRow(WithAlias(norm, aliases, o, canonical, name), p, n) ==>
              AliasRow(aliases, p, n) || (p == o && n == norm(name) && n != canonical)
    ensures forall p, n :: AliasRow(aliases, p, n) ==> AliasRow(WithAlias(norm, aliases, o, canonical, name), p, n)
  {
    var added := WithAlias(norm, aliases, o, canonical, name);
    if added != aliases {
      assert added[|aliases|].normalized == norm(name);
    }
    forall p, n | AliasRow(aliases, p, n) ensures AliasRow(added, p, n) {
      var k :| 0 <= k < |aliases| && aliases[k].organization == p && aliases[k].normalized == n;
      assert added[k] == aliases[k];
    }
  }

  lemma {:induction false} AliasesAdded(norm: Norm, aliases: seq<Alias>, o: OrganizationId, canonical: string, names: seq<string>)
    ensures var added := WithAliases(norm, aliases, o, canonical, names);
            && aliases <= added
            && (forall k :: |aliases| <= k < |added| ==>
                  added[k].organization == o && added[k].name in names && added[k].normalized == norm(added[k].name))
            && (forall i :: 0 <= i < |names| ==> norm(names[i]) == canonical || AliasRow(added, o, norm(names[i])))
            && (forall p, n :: AliasRow(aliases, p, n) ==> AliasRow(added, p, n))
    decreases |names|
  {
    if names != [] {
      var last := |names| - 1;
      var earlier := WithAliases(norm, aliases, o, canonical, names[..last]);
      AliasesAdded(norm, aliases, o, canonical, names[..last]);
      AliasAdded(norm, earlier, o, canonical, names[last]);
    }
  }

  lemma {:induction false} NamesOfComplete(aliases: seq<Alias>, o: OrganizationId)
    ensures forall k :: 0 <= k < |aliases| && aliases[k].organization == o ==> aliases[k].name in NamesOf(aliases, o)
    ensures forall name :: name in NamesOf(aliases, o) ==>
              exists k :: 0 <= k < |aliases| && aliases[k].organization == o && aliases[k].name == name
  {
    if aliases != [] {
      NamesOfComplete(aliases[1..], o);
      forall name | name in NamesOf(aliases, o)
        ensures exists k :: 0 <= k < |aliases| && aliases[k].organization == o && aliases[k].name == name
      {
        if !(aliases[0].organization == o && aliases[0].name == name) {
          assert name in NamesOf(aliases[1..], o);
          var k :| 0 <= k < |aliases[1..]| && aliases[1..][k].organization == o && aliases[1..][k].name == name;
          assert aliases[k + 1].name == name;
        }
      }
    }
  }

  predicate Distinct(links: seq<Link>) {
    forall k, l :: 0 <= k < l < |links| ==> links[k] != links[l]
  }

  lemma {:induction false} MovedLinks(links: seq<Link>, from: seq<Link>, s: OrganizationId, t: OrganizationId)
    ensures Distinct(links) ==> Distinct(Moved(links, from, s, t))
    ensures forall l :: l in Moved(links, from, s, t) <==> l in links || (l.organization == t && Link(s, l.document) in from)
    decreases |from|
  {
    if from != [] {
      var last := |from| - 1;
      MovedLinks(links, from[..last], s, t);
      assert from == from[..last] + [from[last]];
    }
  }

  lemma {:induction false} WithoutLinks(links: seq<Link>, s: OrganizationId)
    ensures Distinct(links) ==> Distinct(Without(links, s))
    ensures forall l :: l in Without(links, s) <==> l in links && l.organization != s
  {
    if links != [] {
      var rest := Without(links[1..], s);
      WithoutLinks(links[1..], s);
      assert Distinct(links) ==> links[0] !in links[1..] && Distinct(links[1..]);
      assert forall l :: l in links <==> l == links[0] || l in links[1..];
      if links[0].organization != s {
        assert Without(links, s) == [links[0]] + rest;
      }
    }
  }

  // ---------- one step keeps the invariant ----------

  lemma AttachedInv(norm: Norm, a: Archive, p: ProposalId, o: OrganizationId, name: string, matched: bool)
    requires Inv(norm, a) && p < |a.proposals| && IsActive(a, o)
    ensures Inv(norm, Attached(norm, a, p, o, name, matched))
    ensures HasName(Attached(norm, a, p, o, name, matched), o, norm(name))
  {
    AliasAdded(norm, a.aliases, o, a.organizations[o].normalized, name);
    var b := Attached(norm, a, p, o, name, matched);
    forall d | d in b.metadata ensures Link(b.metadata[d], d) in b.links {
    }
  }

  lemma CreatedInv(norm: Norm, a: Archive, name: string)
    requires Inv(norm, a)
    requires forall o: nat :: IsActive(a, o) && norm(name) != "" ==> a.organizations[o].normalized != norm(name)
    ensures Inv(norm, a.(organizations := a.organizations + [Organization(name, norm(name), Active, None)]))
  {
    var b := a.(organizations := a.organizations + [Organization(name, norm(name), Active, None)]);
    assert forall o :: 0 <= o < |a.organizations| ==> b.organizations[o] == a.organizations[o];
  }

  lemma AcceptOrganizationInv(norm: Norm, a: Archive, p: ProposalId, name: string, identifiers: set<Identifier>, d: Decision)
    requires Inv(norm, a) && AcceptOrganization(norm, a, p, name, identifiers, d).Ok?
    ensures var b := AcceptOrganization(norm, a, p, name, identifiers, d).value;
            && Inv(norm, b)
            && p < |b.proposals| && b.proposals[p].resolved.Some?
            && IsActive(b, b.proposals[p].resolved.value) && HasName(b, b.proposals[p].resolved.value, norm(name))
  {
    if d.LinkExisting? {
      var target := if d.target.Some? then d.target else a.proposals[p].possible;
      AttachedInv(norm, a, p, target.value, name, false);
    } else {
      var found := Resolve(a, norm(name), identifiers);
      if found.Some? {
        AttachedInv(norm, a, p, found.value, name, true);
      } else {
        CreatedInv(norm, a, name);
        var made := a.(organizations := a.organizations + [Organization(name, norm(name), Active, None)]);
        AttachedInv(norm, made, p, |a.organizations|, name, false);
      }
    }
  }

  lemma MergedMerges(norm: Norm, a: Archive, s: OrganizationId, t: OrganizationId)
    requires MergesOk(a) && StatusOk(a) && IsActive(a, s) && IsActive(a, t) && s != t
    ensures MergesOk(MergedArchive(norm, a, s, t)) && StatusOk(MergedArchive(norm, a, s, t))
  {
    hide SourcesOnce, MergesInRows, RowsInMerges;
    ActiveNotMerged(a, s);
    ActiveNotMerged(a, t);
    var source := a.organizations[s].(status := Status.Merged, mergedInto := Some(t));
    var rows, m := a.organizations[s := source], Merge(s, t);
    OneMoreSource(a.merges, m);
    OneMoreMergeInRows(a.merges, a.organizations, m, source);
    OneMoreRowInMerges(a.merges, a.organizations, m, source);
    assert MergedArchive(norm, a, s, t).organizations == rows && MergedArchive(norm, a, s, t).merges == a.merges + [m];
  }

  lemma ActiveNotMerged(a: Archive, o: OrganizationId)
    requires MergesOk(a) && StatusOk(a) && IsActive(a, o)
    ensures forall i :: 0 <= i < |a.merges| ==> a.merges[i].source != o
  {
  }

  lemma OneMoreSource(merges: seq<Merge>, m: Merge)
    requires SourcesOnce(merges) && m.source != m.target
    requires forall i :: 0 <= i < |merges| ==> merges[i].source != m.source && merges[i].source != m.target
    ensures SourcesOnce(merges + [m])
  {
  }

  lemma OneMoreMergeInRows(merges: seq<Merge>, rows: seq<Organization>, m: Merge, source: Organization)
    requires MergesInRows(merges, rows) && m.source < |rows| && m.target < |rows| && source.mergedInto == Some(m.target)
    requires forall i :: 0 <= i < |merges| ==> merges[i].source != m.source
    ensures MergesInRows(merges + [m], rows[m.source := source])
  {
  }

  lemma OneMoreRowInMerges(merges: seq<Merge>, rows: seq<Organization>, m: Merge, source: Organization)
    requires RowsInMerges(merges, rows) && m.source < |rows|
    ensures RowsInMerges(merges + [m], rows[m.source := source])
  {
    var rows', merges' := rows[m.source := source], merges + [m];
    forall o | 0 <= o < |rows'| && rows'[o].mergedInto.Some? ensures exists i :: 0 <= i < |merges'| && merges'[i].source == o {
      if o == m.source {
        assert merges'[|merges|].source == o;
      } else {
        var i :| 0 <= i < |merges| && merges[i].source == o;
        assert merges'[i].source == o;
      }
    }
  }

  lemma MergedNames(norm: Norm, a: Archive, s: OrganizationId, t: OrganizationId)
    requires NamesOk(norm, a) && IsActive(a, s) && IsActive(a, t)
    ensures NamesOk(norm, MergedArchive(norm, a, s, t))
  {
    AliasesAdded(norm, a.aliases, t, a.organizations[t].normalized, [a.organizations[s].name] + NamesOf(a.aliases, s));
  }

  lemma MergedLinks(norm: Norm, a: Archive, s: OrganizationId, t: OrganizationId)
    requires LinksOk(a) && IsActive(a, s) && IsActive(a, t) && s != t
    ensures LinksOk(MergedArchive(norm, a, s, t))
    ensures forall l :: l in MergedArchive(norm, a, s, t).links <==>
              || (l in a.links && l.organization != s)
              || (l.organization == t && Link(s, l.document) in a.links)
  {
    MovedLinks(a.links, a.links, s, t);
    WithoutLinks(Moved(a.links, a.links, s, t), s);
    var b := MergedArchive(norm, a, s, t);
    forall d | d in b.metadata ensures Link(b.metadata[d], d) in b.links {
      if Link(s, d) in a.links {
        assert b.metadata[d] == t;
      } else {
        assert Link(a.metadata[d], d) in a.links;
      }
    }
    forall k | 0 <= k < |b.links| ensures IsActive(b, b.links[k].organization) {
      assert b.links[k] in b.links;
    }
  }

  lemma MergedDistinct(norm: Norm, a: Archive, s: OrganizationId, t: OrganizationId)
    requires CanonicalNamesDistinct(a) && ItemsOk(a) && IsActive(a, s) && IsActive(a, t)
    ensures CanonicalNamesDistinct(MergedArchive(norm, a, s, t)) && ItemsOk(MergedArchive(norm, a, s, t))
    ensures ContractsOk(a) ==> ContractsOk(MergedArchive(norm, a, s, t))
  {
    var b := MergedArchive(norm, a, s, t);
    assert forall i :: 0 <= i < |a.items| ==> b.items[i].kind == a.items[i].kind && b.items[i].document == a.items[i].document;
  }

  lemma MergedInv(norm: Norm, a: Archive, s: OrganizationId, t: OrganizationId)
    requires Inv(norm, a) && IsActive(a, s) && IsActive(a, t) && s != t
    ensures Inv(norm, MergedArchive(norm, a, s, t))
  {
    hide MergedArchive, MergesOk, StatusOk, NamesOk, CanonicalNamesDistinct, LinksOk, ItemsOk, ContractsOk, IsActive;
    MergedMerges(norm, a, s, t);
    MergedNames(norm, a, s, t);
    MergedDistinct(norm, a, s, t);
    MergedLinks(norm, a, s, t);
  }

  /** Rows that organizations do not depend on, and items that name existing ones. */
  lemma SameOrganizationsInv(norm: Norm, a: Archive, b: Archive)
    requires Inv(norm, a) && b == a.(items := b.items, proposals := b.proposals, contractLinks := b.contractLinks)
    requires (b.items == a.items && b.contractLinks == a.contractLinks) || (ItemsOk(b) && ContractsOk(b))
    ensures Inv(norm, b)
  {
  }

  lemma AcceptItemInv(norm: Norm, a: Archive, p: ProposalId, kind: ItemKind, named: Option<OrganizationId>)
    requires Inv(norm, a) && AcceptItem(a, p, kind, named).Ok?
    ensures Inv(norm, AcceptItem(a, p, kind, named).value)
  {
    hide MergesOk, StatusOk, NamesOk, CanonicalNamesDistinct, LinksOk, ItemsOk, ContractsOk, WithContractLink;
    var b := AcceptItem(a, p, kind, named).value;
    AddedItemOk(a, b, b.items[|a.items|]);
    SameOrganizationsInv(norm, a, b);
  }

  lemma AddedItemOk(a: Archive, b: Archive, item: Item)
    requires ItemsOk(a) && ContractsOk(a)
    requires b.items == a.items + [item] && b.organizations == a.organizations
    requires item.organization.Some? ==> item.organization.value < |a.organizations|
    requires b.contractLinks == if item.kind == Contract
                                then WithContractLink(a.contractLinks, ContractLink(|a.items|, item.document)) else a.contractLinks
    ensures ItemsOk(b) && ContractsOk(b)
  {
    hide WithContractLink;
    var n := |a.items|;
    assert b.items[n] == item && forall i :: 0 <= i < n ==> b.items[i] == a.items[i];
    OneContractLink(a.contractLinks, ContractLink(n, item.document));
    forall i | 0 <= i <= n && b.items[i].kind == Contract ensures ContractLink(i, b.items[i].document) in b.contractLinks {
      if i < n { assert a.items[i].kind == Contract; }
    }
    forall l | l in b.contractLinks ensures l.contract <= n && b.items[l.contract].kind == Contract {
      if l in a.contractLinks { assert l.contract < n && a.items[l.contract].kind == Contract; }
    }
  }

  lemma OneContractLink(links: seq<ContractLink>, l: ContractLink)
    ensures forall x :: x in WithContractLink(links, l) <==> x in links || x == l
    ensures (forall i, j :: 0 <= i < j < |links| ==> links[i] != links[j]) ==>
              var more := WithContractLink(links, l);
              forall i, j :: 0 <= i < j < |more| ==> more[i] != more[j]
  {
  }

  lemma LinkContractInv(norm: Norm, a: Archive, p: ProposalId, contract: Option<nat>)
    requires Inv(norm, a) && LinkContract(a, p, contract).Ok?
    ensures var b := LinkContract(a, p, contract).value;
            && Inv(norm, b) && a.contractLinks <= b.contractLinks && b.items == a.items
            && (forall l :: l in b.contractLinks <==>
                  l in a.contractLinks || l == ContractLink(contract.value, a.proposals[p].document))
  {
    hide MergesOk, StatusOk, NamesOk, CanonicalNamesDistinct, LinksOk;
    SameOrganizationsInv(norm, a, LinkContract(a, p, contract).value);
  }

  lemma NextInv(norm: Norm, a: Archive, action: Action)
    requires Inv(norm, a)
    ensures Inv(norm, Next(norm, a, action))
  {
    hide Inv, Resolve, Attached, AcceptOrganization, MergedArchive;
    if Tried(norm, a, action).Ok? {
      match action
      case AcceptOrg(p, name, identifiers, d) => AcceptOrganizationInv(norm, a, p, name, identifiers, d);
      case MergeInto(s, t) => MergedInv(norm, a, s, t);
      case Accept(p, kind, named) => AcceptItemInv(norm, a, p, kind, named);
      case AcceptLinked(p, contract) => LinkContractInv(norm, a, p, contract);
      case _ => SameOrganizationsInv(norm, a, Next(norm, a, action));
    }
  }

  lemma {:induction false} RunInv(norm: Norm, a: Archive, actions: seq<Action>)
    requires Inv(norm, a)
    ensures Inv(norm, After(norm, a, actions))
    decreases |actions|
  {
    if actions != [] {
      NextInv(norm, a, actions[0]);
      RunInv(norm, Next(norm, a, actions[0]), actions[1..]);
    }
  }

  // ---------- the union-find ----------

  function CarriedItem(since: seq<Merge>, item: Item): Item {
    if item.organization.None? then item else item.(organization := Some(Root(since, item.organization.value)))
  }

  /** Active organizations have active roots; merged ones are roots of nothing new. */
  predicate OrganizationsCarried(a: Archive, b: Archive, since: seq<Merge>) {
    && |a.organizations| <= |b.organizations|
    && (forall o: nat | 0 <= o < |a.organizations| ::
          if IsActive(a, o) then IsActive(b, Root(since, o)) else Root(since, o) == o && !IsActive(b, o))
  }

  predicate LinksCarried(a: Archive, b: Archive, since: seq<Merge>) {
    forall l :: l in a.links ==> Link(Root(since, l.organization), l.document) in b.links
  }

  predicate ItemsCarried(a: Archive, b: Archive, since: seq<Merge>) {
    && |a.items| <= |b.items|
    && forall i :: 0 <= i < |a.items| ==> b.items[i] == CarriedItem(since, a.items[i])
  }

  ghost predicate NamesCarried(a: Archive, b: Archive, since: seq<Merge>) {
    forall o: nat, n :: IsActive(a, o) && HasName(a, o, n) ==> HasName(b, Root(since, o), n)
  }

  /** `b` carries every fact of `a` over to the roots of its organizations. */
  ghost predicate Carries(a: Archive, b: Archive) {
    && a.merges <= b.merges
    && var since := b.merges[|a.merges|..];
    && OrganizationsCarried(a, b, since)
    && LinksCarried(a, b, since)
    && ItemsCarried(a, b, since)
    && NamesCarried(a, b, since)
    && a.contractLinks <= b.contractLinks
  }

  lemma CarriesSame(norm: Norm, a: Archive, b: Archive)
    requires Inv(norm, a) && a.organizations <= b.organizations && b.merges == a.merges
    requires a.links <= b.links && a.items <= b.items && a.aliases <= b.aliases && a.contractLinks <= b.contractLinks
    ensures Carries(a, b)
  {
  }

  /** After a merge the source's names are the target's, and nobody has lost one. */
  lemma MergedHasNames(norm: Norm, a: Archive, s: OrganizationId, t: OrganizationId, o: OrganizationId, n: string)
    requires NamesOk(norm, a) && IsActive(a, s) && IsActive(a, t) && s != t && HasName(a, o, n)
    ensures HasName(MergedArchive(norm, a, s, t), if o == s then t else o, n)
  {
    var names := [a.organizations[s].name] + NamesOf(a.aliases, s);
    var canonical := a.organizations[t].normalized;
    var added := WithAliases(norm, a.aliases, t, canonical, names);
    AliasesAdded(norm, a.aliases, t, canonical, names);
    if o == s {
      NamesOfComplete(a.aliases, s);
      var name: string;
      if a.organizations[s].normalized == n {
        name := names[0];
      } else {
        var k :| 0 <= k < |a.aliases| && a.aliases[k].organization == s && a.aliases[k].normalized == n;
        name := a.aliases[k].name;
      }
      assert name in names && norm(name) == n;
      var i :| 0 <= i < |names| && names[i] == name;
      assert norm(names[i]) == canonical || AliasRow(added, t, norm(names[i]));
    }
  }

  lemma MergeCarries(norm: Norm, a: Archive, s: OrganizationId, t: OrganizationId)
    requires Inv(norm, a) && IsActive(a, s) && IsActive(a, t) && s != t
    ensures Carries(a, MergedArchive(norm, a, s, t))
  {
    var b := MergedArchive(norm, a, s, t);
    hide WithAliases, Without, Moved, HasName, OrganizationsCarried, ItemsCarried, ContractsOk, MergesOk, NamesOk, LinksOk;
    var since := b.merges[|a.merges|..];
    assert since == [Merge(s, t)];
    forall o ensures Root(since, o) == if o == s then t else o {
      OneRoot(s, t, o);
    }
    forall o: nat, n | IsActive(a, o) && HasName(a, o, n) ensures HasName(b, Root(since, o), n) {
      MergedHasNames(norm, a, s, t, o, n);
    }
    MergedLinks(norm, a, s, t);
    MergedOrganizationsCarried(norm, a, s, t);
    MergedItemsCarried(norm, a, s, t);
  }

  lemma OneRoot(s: OrganizationId, t: OrganizationId, o: OrganizationId)
    ensures Root([Merge(s, t)], o) == if o == s then t else o
  {
    RootAppend([], Merge(s, t), o);
    assert [] + [Merge(s, t)] == [Merge(s, t)];
  }

  lemma MergedOrganizationsCarried(norm: Norm, a: Archive, s: OrganizationId, t: OrganizationId)
    requires StatusOk(a) && IsActive(a, s) && IsActive(a, t) && s != t
    ensures OrganizationsCarried(a, MergedArchive(norm, a, s, t), [Merge(s, t)])
  {
    hide WithAliases, Without, Moved, Root;
    forall o { OneRoot(s, t, o); }
  }

  lemma MergedItemsCarried(norm: Norm, a: Archive, s: OrganizationId, t: OrganizationId)
    requires IsActive(a, s) && IsActive(a, t)
    ensures ItemsCarried(a, MergedArchive(norm, a, s, t), [Merge(s, t)])
  {
    hide WithAliases, Without, Moved, Root;
    forall o { OneRoot(s, t, o); }
  }

  lemma NextCarries(norm: Norm, a: Archive, action: Action)
    requires Inv(norm, a)
    ensures Carries(a, Next(norm, a, action))
  {
    if action.MergeInto? && Tried(norm, a, action).Ok? {
      MergeCarries(norm, a, action.source, action.target);
    } else {
      CarriesSame(norm, a, Next(norm, a, action));
    }
  }

  lemma {:induction false} RootConcat(m1: seq<Merge>, m2: seq<Merge>, o: OrganizationId)
    ensures Root(m1 + m2, o) == Root(m2, Root(m1, o))
    decreases |m2|
  {
    if m2 == [] {
      assert m1 + m2 == m1;
    } else {
      var last := |m2| - 1;
      RootConcat(m1, m2[..last], o);
      assert (m1 + m2)[..|m1 + m2| - 1] == m1 + m2[..last];
    }
  }

  lemma OrganizationsCarriedOn(a: Archive, b: Archive, c: Archive, ab: seq<Merge>, bc: seq<Merge>)
    requires OrganizationsCarried(a, b, ab) && OrganizationsCarried(b, c, bc)
    ensures OrganizationsCarried(a, c, ab + bc)
  {
    forall o: nat | 0 <= o < |a.organizations|
      ensures if IsActive(a, o) then IsActive(c, Root(ab + bc, o)) else Root(ab + bc, o) == o && !IsActive(c, o)
    {
      RootConcat(ab, bc, o);
    }
  }

  lemma ItemsCarriedOn(a: Archive, b: Archive, c: Archive, ab: seq<Merge>, bc: seq<Merge>)
    requires ItemsCarried(a, b, ab) && ItemsCarried(b, c, bc)
    ensures ItemsCarried(a, c, ab + bc)
  {
    forall i | 0 <= i < |a.items| ensures c.items[i] == CarriedItem(ab + bc, a.items[i]) {
      if a.items[i].organization.Some? {
        RootConcat(ab, bc, a.items[i].organization.value);
      }
    }
  }

  lemma LinksAndNamesCarriedOn(a: Archive, b: Archive, c: Archive, ab: seq<Merge>, bc: seq<Merge>)
    requires OrganizationsCarried(a, b, ab)
    requires LinksCarried(a, b, ab) && LinksCarried(b, c, bc)
    requires NamesCarried(a, b, ab) && NamesCarried(b, c, bc)
    ensures LinksCarried(a, c, ab + bc) && NamesCarried(a, c, ab + bc)
  {
    forall l | l in a.links ensures Link(Root(ab + bc, l.organization), l.document) in c.links {
      RootConcat(ab, bc, l.organization);
      assert Link(Root(ab, l.organization), l.document) in b.links;
    }
    forall o: nat, n | IsActive(a, o) && HasName(a, o, n) ensures HasName(c, Root(ab + bc, o), n) {
      RootConcat(ab, bc, o);
      assert IsActive(b, Root(ab, o)) && HasName(b, Root(ab, o), n);
    }
  }

  lemma CarriesTransitive(a: Archive, b: Archive, c: Archive)
    requires Carries(a, b) && Carries(b, c)
    ensures Carries(a, c)
  {
    hide OrganizationsCarried, ItemsCarried, LinksCarried, NamesCarried;
    var ab, bc := b.merges[|a.merges|..], c.merges[|b.merges|..];
    assert c.merges[|a.merges|..] == ab + bc;
    OrganizationsCarriedOn(a, b, c, ab, bc);
    ItemsCarriedOn(a, b, c, ab, bc);
    LinksAndNamesCarriedOn(a, b, c, ab, bc);
  }

  /** Main result: over every run, links, items and names of an organization are those of its root. */
  lemma {:induction false} RunCarries(norm: Norm, a: Archive, actions: seq<Action>)
    requires Inv(norm, a)
    ensures Inv(norm, After(norm, a, actions)) && Carries(a, After(norm, a, actions))
    decreases |actions|
  {
    if actions == [] {
      CarriesSame(norm, a, a);
    } else {
      var b := Next(norm, a, actions[0]);
      NextInv(norm, a, actions[0]);
      NextCarries(norm, a, actions[0]);
      RunCarries(norm, b, actions[1..]);
      CarriesTransitive(a, b, After(norm, b, actions[1..]));
    }
  }
}
