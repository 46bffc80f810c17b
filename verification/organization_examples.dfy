/** Two runs from the empty archive that show what a merge does not keep. */
module OrganizationExamples {
  import opened Common
  import opened Organizations

  /** Lower-case words with single blanks between them are already normalized. */
  predicate Plain(norm: Norm) { norm("acme") == "acme" && norm("apex") == "apex" && norm("acme north") == "acme north" }

  function OneAccepted(): Archive {
    Archive([Organization("acme", "acme", Active, None)], [], [Link(0, 0)], [],
            [Proposal(0, true, Accepted, {"VAT12345"}, None, Some(0))], map[0 := 0], [], [])
  }

  function TwoAccepted(): Archive {
    Archive([Organization("acme", "acme", Active, None), Organization("apex", "apex", Active, None)], [],
            [Link(0, 0), Link(1, 1)], [],
            [Proposal(0, true, Accepted, {"VAT12345"}, None, Some(0)), Proposal(1, true, Accepted, {}, None, Some(1))],
            map[0 := 0, 1 := 1], [], [])
  }

  /** Acme, which has a strong identifier, and Apex are accepted, and Acme is merged into Apex. */
  const TWO_MERGED: seq<Action> := [
    Propose(0, true, {"VAT12345"}, None), AcceptOrg(0, "acme", {"VAT12345"}, Create),
    Propose(1, true, {}, None), AcceptOrg(1, "apex", {}, Create),
    MergeInto(0, 1)]

  lemma AcceptsAre(norm: Norm)
    requires Plain(norm)
    ensures After(norm, Empty(), TWO_MERGED) == Next(norm, TwoAccepted(), MergeInto(0, 1))
  {
    hide Next, Tried;
    var proposed := Next(norm, Empty(), TWO_MERGED[0]);
    var again := Next(norm, OneAccepted(), TWO_MERGED[2]);
    FirstAccepted(norm);
    SecondAccepted(norm);
    assert TWO_MERGED[1..][1..] == TWO_MERGED[2..] && TWO_MERGED[2..][1..][1..] == [TWO_MERGED[4]];
    assert After(norm, Empty(), TWO_MERGED) == After(norm, OneAccepted(), TWO_MERGED[2..]);
    assert After(norm, OneAccepted(), TWO_MERGED[2..]) == After(norm, TwoAccepted(), [TWO_MERGED[4]]);
  }

  lemma FirstAccepted(norm: Norm)
    requires Plain(norm)
    ensures Next(norm, Next(norm, Empty(), TWO_MERGED[0]), TWO_MERGED[1]) == OneAccepted()
  {
  }

  lemma SecondAccepted(norm: Norm)
    requires Plain(norm)
    ensures Next(norm, Next(norm, OneAccepted(), TWO_MERGED[2]), TWO_MERGED[3]) == TwoAccepted()
  {
  }

  lemma MergedAliases(norm: Norm)
    requires Plain(norm)
    ensures WithAliases(norm, [], 1, "apex", ["acme"] + NamesOf([], 0)) == [Alias(1, "acme", "acme")]
  {
    assert ["acme"] + NamesOf([], 0) == ["acme"] && ["acme"][..0] == [];
  }

  lemma MergedRows(norm: Norm)
    requires Plain(norm)
    ensures var a := After(norm, Empty(), TWO_MERGED);
            && a.organizations == TwoAccepted().organizations[0 := Organization("acme", "acme", Status.Merged, Some(1))]
            && a.proposals == TwoAccepted().proposals && a.items == []
            && a.aliases == [Alias(1, "acme", "acme")]
  {
    hide WithAliases, Moved, Without;
    AcceptsAre(norm);
    MergedAliases(norm);
  }

  /** Acme is found by its identifier before the merge, and nothing is found after it. */
  lemma MergedIdentifierIsForgotten(norm: Norm)
    requires Plain(norm)
    ensures Resolve(TwoAccepted(), "acme north", {"VAT12345"}) == Some(0)
    ensures Resolve(After(norm, Empty(), TWO_MERGED), "acme north", {"VAT12345"}) == None
  {
    hide Resolve, First;
    var after := After(norm, Empty(), TWO_MERGED);
    IdentifiedBefore();
    MergedRows(norm);
    NotNamed(after);
    assert forall p :: 0 <= p < |after.proposals| ==> !IdentifiedBy(after, after.proposals[p], {"VAT12345"});
  }

  lemma IdentifiedBefore()
    ensures Resolve(TwoAccepted(), "acme north", {"VAT12345"}) == Some(0)
  {
    hide First;
    var before := TwoAccepted();
    NotNamed(before);
    assert forall o: nat :: o < 2 ==> !HasName(before, o, "acme north");
    assert "VAT12345" in before.proposals[0].identifiers * {"VAT12345"};
    assert IdentifiedBy(before, before.proposals[0], {"VAT12345"}) && !IdentifiedBy(before, before.proposals[1], {"VAT12345"});
  }

  lemma NotNamed(a: Archive)
    requires |a.organizations| == 2 && a.organizations[0].normalized == "acme" && a.organizations[1].normalized == "apex"
    requires a.aliases == [] || a.aliases == [Alias(1, "acme", "acme")]
    ensures forall o: nat :: !HasName(a, o, "acme north")
  {
    assert |"acme north"| != |"acme"|;
  }

  /** A contract accepted for Acme afterwards names the merged organization. */
  lemma MergedOrganizationIsGiven(norm: Norm)
    requires Plain(norm)
    ensures var a := After(norm, Empty(), TWO_MERGED);
            var b := Next(norm, Next(norm, a, Propose(0, true, {}, None)), Accept(2, Contract, Some(0)));
            && b.items == [Item(Contract, 0, Some(0))] && !IsActive(b, 0) && IsActive(b, 1)
            && b.organizations[0].mergedInto == Some(1)
  {
    MergedRows(norm);
  }
}
