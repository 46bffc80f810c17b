/** What a user of the archive can rely on, after any run of accepts and merges. */
module OrganizationResults {
  import opened Common
  import opened Organizations
  import opened OrganizationRuns

  // ---------- merged_into_id ----------

  /** Follows `mergedInto` a number of times. */
  function Chase(a: Archive, o: OrganizationId, steps: nat): Option<OrganizationId> {
    if steps == 0 then Some(o)
    else
      var p := Chase(a, o, steps - 1);
      if p.None? || p.value >= |a.organizations| then None else a.organizations[p.value].mergedInto
  }

  lemma {:induction false} RootStill(merges: seq<Merge>, o: OrganizationId)
    requires forall i :: 0 <= i < |merges| ==> merges[i].source != o
    ensures Root(merges, o) == o
  {
    if merges != [] {
      RootStill(merges[..|merges| - 1], o);
    }
  }

  lemma RootThroughMerge(merges: seq<Merge>, i: nat)
    requires i < |merges|
    requires forall k :: 0 <= k < i ==> merges[k].source != merges[i].source
    requires forall k :: 0 <= k < i ==> merges[k].source != merges[i].target
    requires merges[i].source != merges[i].target
    ensures Root(merges, merges[i].source) == Root(merges, merges[i].target)
  {
    var o, t, before, rest := merges[i].source, merges[i].target, merges[..i], merges[i + 1..];
    RootStill(before, o);
    RootStill(before, t);
    RootAppend(before, merges[i], o);
    RootAppend(before, merges[i], t);
    assert merges == (before + [merges[i]]) + rest;
    RootConcat(before + [merges[i]], rest, o);
    RootConcat(before + [merges[i]], rest, t);
  }

  /** A merged organization has the root of the one it was merged into, which was merged later or never. */
  lemma MergedRoot(a: Archive, o: OrganizationId)
    requires MergesOk(a) && o < |a.organizations| && a.organizations[o].mergedInto.Some?
    ensures var t := a.organizations[o].mergedInto.value;
            && t < |a.organizations|
            && MergedAt(a.merges, o) < MergedAt(a.merges, t) <= |a.merges|
            && Root(a.merges, o) == Root(a.merges, t)
  {
    hide Root, MergedAt;
    var i: nat :| i < |a.merges| && a.merges[i].source == o;
    MergedAtBounds(a.merges, o);
    MergedAtBounds(a.merges, a.organizations[o].mergedInto.value);
    RootThroughMerge(a.merges, i);
  }

  lemma ChaseFrom(a: Archive, o: OrganizationId, steps: nat)
    requires o < |a.organizations| && a.organizations[o].mergedInto.Some?
    ensures Chase(a, o, steps + 1) == Chase(a, a.organizations[o].mergedInto.value, steps)
  {
  }

  /** Following `mergedInto` ends at the root, which is active. */
  lemma {:induction false} ChaseEndsAtRoot(norm: Norm, a: Archive, o: OrganizationId) returns (steps: nat)
    requires Inv(norm, a) && o < |a.organizations|
    ensures Chase(a, o, steps) == Some(Root(a.merges, o)) && IsActive(a, Root(a.merges, o))
    ensures MergedAt(a.merges, o) + steps <= |a.merges|
    decreases |a.merges| - MergedAt(a.merges, o)
  {
    hide Root, MergedAt, NamesOk, LinksOk, ItemsOk, CanonicalNamesDistinct;
    MergedAtBounds(a.merges, o);
    if a.organizations[o].mergedInto.None? {
      RootStill(a.merges, o);
      steps := 0;
    } else {
      MergedRoot(a, o);
      var rest := ChaseEndsAtRoot(norm, a, a.organizations[o].mergedInto.value);
      ChaseFrom(a, o, rest);
      steps := rest + 1;
    }
  }

  /** `mergedInto` has no cycle. */
  lemma {:induction false} NoCycle(norm: Norm, a: Archive, o: OrganizationId, steps: nat)
    requires Inv(norm, a) && o < |a.organizations| && Chase(a, o, steps).Some?
    ensures Chase(a, o, steps).value < |a.organizations|
    ensures MergedAt(a.merges, Chase(a, o, steps).value) >= MergedAt(a.merges, o) + steps
    ensures steps > 0 ==> Chase(a, o, steps).value != o
  {
    if steps > 0 {
      NoCycle(norm, a, o, steps - 1);
      MergedRoot(a, Chase(a, o, steps - 1).value);
    }
  }

  // ---------- names ----------

  /** A non-empty name once accepted resolves to an active organization that carries it, forever. */
  lemma NamesAreNeverLost(norm: Norm, a: Archive, p: ProposalId, name: string, identifiers: set<Identifier>,
                          d: Decision, actions: seq<Action>, asked: set<Identifier>)
    requires Inv(norm, a) && AcceptOrganization(norm, a, p, name, identifiers, d).Ok? && norm(name) != ""
    ensures var b := AcceptOrganization(norm, a, p, name, identifiers, d).value;
            var c := After(norm, b, actions);
            var found := Resolve(c, norm(name), asked);
            && found.Some? && IsActive(c, found.value) && HasName(c, found.value, norm(name))
            && |b.merges| <= |c.merges| && p < |b.proposals| && b.proposals[p].resolved.Some?
            && HasName(c, Root(c.merges[|b.merges|..], b.proposals[p].resolved.value), norm(name))
  {
    AcceptOrganizationInv(norm, a, p, name, identifiers, d);
    var b := AcceptOrganization(norm, a, p, name, identifiers, d).value;
    RunCarries(norm, b, actions);
    var c := After(norm, b, actions);
    var o := b.proposals[p].resolved.value;
    var root := Root(c.merges[|b.merges|..], o);
    assert IsActive(c, root) && HasName(c, root, norm(name));
  }

  // ---------- items ----------

  lemma RootOfActive(norm: Norm, a: Archive, o: OrganizationId)
    requires Inv(norm, a) && o < |a.organizations|
    ensures IsActive(a, o) <==> Root(a.merges, o) == o
  {
    var _ := ChaseEndsAtRoot(norm, a, o);
    if IsActive(a, o) {
      forall i | 0 <= i < |a.merges| ensures a.merges[i].source != o {
        assert a.organizations[a.merges[i].source].mergedInto.Some?;
      }
      RootStill(a.merges, o);
    }
  }

  lemma GivenFollowsRoot(norm: Norm, b: Archive, c: Archive, i: nat)
    requires Inv(norm, b) && Inv(norm, c) && Carries(b, c)
    requires i < |b.items| && b.items[i].organization.Some?
    ensures i < |c.items| && c.items[i].organization.Some?
    ensures c.items[i].organization.value == Root(c.merges, b.items[i].organization.value)
            <==> IsActive(b, b.items[i].organization.value)
  {
    hide NamesCarried, LinksCarried, NamesOk, CanonicalNamesDistinct, LinksOk, MergesOk, StatusOk;
    var o, since := b.items[i].organization.value, c.merges[|b.merges|..];
    assert c.items[i] == CarriedItem(since, b.items[i]);
    RootConcat(b.merges, since, o);
    assert c.merges == b.merges + since;
    RootOfActive(norm, b, o);
    RootOfActive(norm, c, o);
  }

  /** An accepted item points at the root of the organization it was first given, after every run,
      exactly when that organization was active when it was given. */
  lemma ItemFollowsRootIffGivenActive(norm: Norm, a: Archive, p: ProposalId, kind: ItemKind,
                                      named: Option<OrganizationId>, actions: seq<Action>)
    requires Inv(norm, a) && AcceptItem(a, p, kind, named).Ok?
    ensures var b := AcceptItem(a, p, kind, named).value;
            var c := After(norm, b, actions);
            var given := b.items[|a.items|].organization;
            && |a.items| < |c.items|
            && (given.None? ==> c.items[|a.items|].organization.None?)
            && (given.Some? ==>
                  (c.items[|a.items|].organization == Some(Root(c.merges, given.value)) <==> IsActive(a, given.value)))
  {
    var b := AcceptItem(a, p, kind, named).value;
    assert b == Next(norm, a, Accept(p, kind, named));
    NextInv(norm, a, Accept(p, kind, named));
    RunCarries(norm, b, actions);
    var c := After(norm, b, actions);
    assert c.items[|a.items|] == CarriedItem(c.merges[|b.merges|..], b.items[|a.items|]);
    if b.items[|a.items|].organization.Some? {
      GivenFollowsRoot(norm, b, c, |a.items|);
    }
  }

  // ---------- strong identifiers ----------

  /** Names survive merges but strong identifiers need not: when every accepted proposal that shares
      one was resolved to the merged organization, an unknown name with it makes a second one. */
  lemma MergeForgetsIdentifiers(norm: Norm, a: Archive, s: OrganizationId, t: OrganizationId, n: string, identifiers: set<Identifier>)
    requires Inv(norm, a) && MergeOrganizations(norm, a, s, t).Ok?
    requires forall o: nat :: n != "" && IsActive(a, o) ==> !HasName(a, o, n)
    ensures Resolve(MergeOrganizations(norm, a, s, t).value, n, identifiers).None? <==>
            forall p :: 0 <= p < |a.proposals| && IdentifiedBy(a, a.proposals[p], identifiers) ==> a.proposals[p].resolved == Some(s)
  {
    var b := MergeOrganizations(norm, a, s, t).value;
    forall o: nat | n != "" && IsActive(b, o) ensures !HasName(b, o, n) {
      MergedAddsNoName(norm, a, s, t, o, n);
    }
    forall p | 0 <= p < |a.proposals|
      ensures IdentifiedBy(b, b.proposals[p], identifiers) <==>
              IdentifiedBy(a, a.proposals[p], identifiers) && a.proposals[p].resolved != Some(s)
    {
    }
  }

  /** A merge gives names only to the target, and only the source's. */
  lemma MergedAddsNoName(norm: Norm, a: Archive, s: OrganizationId, t: OrganizationId, o: OrganizationId, n: string)
    requires NamesOk(norm, a) && IsActive(a, s) && IsActive(a, t) && s != t
    ensures HasName(MergedArchive(norm, a, s, t), o, n) ==> HasName(a, o, n) || (o == t && HasName(a, s, n))
  {
    var names := [a.organizations[s].name] + NamesOf(a.aliases, s);
    AliasesAdded(norm, a.aliases, t, a.organizations[t].normalized, names);
    NamesOfComplete(a.aliases, s);
    var b := MergedArchive(norm, a, s, t);
    if HasName(b, o, n) && b.organizations[o].normalized != n {
      var k :| 0 <= k < |b.aliases| && b.aliases[k].organization == o && b.aliases[k].normalized == n;
      if k < |a.aliases| {
        assert b.aliases[k] == a.aliases[k];
      } else if b.aliases[k].name != a.organizations[s].name {
        assert b.aliases[k].name in NamesOf(a.aliases, s);
      }
    }
  }
}
