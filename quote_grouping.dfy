/** The grouping step of the quote-request dialog
    (src/components/quotes/QuoteRequestModal.tsx, lines 6-17): the upgrades
    are walked in order and each upgrade assigned to a contractor adds the
    first line item for that upgrade to the contractor's list.  The rest of
    that file is not part of this model. */
module QuoteGrouping {
  import opened Seqs
  import opened Quotes

  /** The part of an upgrade the grouping reads. */
  datatype AssignedUpgrade = AssignedUpgrade(id: string, assignedContractor: Option<string>)

  /** `if (upgrade.assignedContractor)`: an absent or empty contractor id is falsy. */
  function ContractorOf(u: AssignedUpgrade): (c: Option<string>)
    ensures c.Some? <==> u.assignedContractor.Some? && u.assignedContractor.value != ""
    ensures c.Some? ==> c.value == u.assignedContractor.value
  {
    if u.assignedContractor.Some? && u.assignedContractor.value != "" then u.assignedContractor else None
  }

  /** `lineItems.find(item => item.upgradeId === upgrade.id)`. */
  function ItemFor(lineItems: seq<QuoteLineItem>, u: AssignedUpgrade): Option<QuoteLineItem> {
    Find(lineItems, (item: QuoteLineItem) => item.upgradeId == u.id)
  }

  /** One turn of the reducer. */
  function Step(acc: map<string, seq<QuoteLineItem>>, u: AssignedUpgrade, lineItems: seq<QuoteLineItem>): map<string, seq<QuoteLineItem>> {
    var c := ContractorOf(u);
    if c.None? then acc
    else
      var list := if c.value in acc then acc[c.value] else [];
      var found := ItemFor(lineItems, u);
      acc[c.value := if found.Some? then list + [found.value] else list]
  }

  /** The record the reduce produces over `upgrades`. */
  function Grouped(upgrades: seq<AssignedUpgrade>, lineItems: seq<QuoteLineItem>): map<string, seq<QuoteLineItem>>
    decreases |upgrades|
  {
    if upgrades == [] then map[]
    else Step(Grouped(upgrades[..|upgrades| - 1], lineItems), upgrades[|upgrades| - 1], lineItems)
  }

  /** Reference definition, one contractor at a time: the first matching line
      item of every upgrade assigned to `c` that has one, in upgrade order. */
  function ItemsFor(upgrades: seq<AssignedUpgrade>, lineItems: seq<QuoteLineItem>, c: string): seq<QuoteLineItem> {
    if upgrades == [] then []
    else
      var u := upgrades[0];
      var found := ItemFor(lineItems, u);
      (if ContractorOf(u) == Some(c) && found.Some? then [found.value] else []) + ItemsFor(upgrades[1..], lineItems, c)
  }

  /** The upgrades assigned to `c`. */
  function AssignedTo(upgrades: seq<AssignedUpgrade>, c: string): seq<AssignedUpgrade> {
    Filter(upgrades, (u: AssignedUpgrade) => ContractorOf(u) == Some(c))
  }

  /** The reduce, with its accumulator updated in place, one upgrade per turn. */
  method GroupByContractor(upgrades: seq<AssignedUpgrade>, lineItems: seq<QuoteLineItem>)
    returns (acc: map<string, seq<QuoteLineItem>>)
    ensures acc == Grouped(upgrades, lineItems)
    ensures forall c :: c in acc <==> exists i :: 0 <= i < |upgrades| && ContractorOf(upgrades[i]) == Some(c)
    ensures forall c :: c in acc ==> acc[c] == ItemsFor(upgrades, lineItems, c)
  {
    acc := map[];
    for i := 0 to |upgrades|
      invariant acc == Grouped(upgrades[..i], lineItems)
    {
      assert upgrades[..i + 1][..i] == upgrades[..i];
      var upgrade := upgrades[i];
      if upgrade.assignedContractor.Some? && upgrade.assignedContractor.value != "" {
        var c := upgrade.assignedContractor.value;
        if c !in acc {
          acc := acc[c := []];
        }
        var lineItem := ItemFor(lineItems, upgrade);
        if lineItem.Some? {
          acc := acc[c := acc[c] + [lineItem.value]];
        }
      }
    }
    assert upgrades[..|upgrades|] == upgrades;
    GroupedKeys(upgrades, lineItems);
    forall c | c in acc ensures acc[c] == ItemsFor(upgrades, lineItems, c) {
      GroupedMatchesItemsFor(upgrades, lineItems, c);
    }
  }

  // ---------------------------------------------------------------------

  /** `ItemsFor` over a concatenation. */
  lemma {:induction false} ItemsForAppend(a: seq<AssignedUpgrade>, b: seq<AssignedUpgrade>, lineItems: seq<QuoteLineItem>, c: string)
    ensures ItemsFor(a + b, lineItems, c) == ItemsFor(a, lineItems, c) + ItemsFor(b, lineItems, c)
    decreases |a|
  {
    if a == [] {
      assert a + b == b;
    } else {
      assert (a + b)[1..] == a[1..] + b;
      ItemsForAppend(a[1..], b, lineItems, c);
    }
  }

  /** A contractor is a key exactly when some upgrade is assigned to it, whether or not any item was found. */
  lemma {:induction false} GroupedKeys(upgrades: seq<AssignedUpgrade>, lineItems: seq<QuoteLineItem>)
    ensures forall c :: c in Grouped(upgrades, lineItems) <==>
      exists i :: 0 <= i < |upgrades| && ContractorOf(upgrades[i]) == Some(c)
    decreases |upgrades|
  {
    if upgrades != [] {
      var init := upgrades[..|upgrades| - 1];
      GroupedKeys(init, lineItems);
      forall c ensures c in Grouped(upgrades, lineItems) <==>
        exists i :: 0 <= i < |upgrades| && ContractorOf(upgrades[i]) == Some(c)
      {
        if exists i :: 0 <= i < |upgrades| && ContractorOf(upgrades[i]) == Some(c) {
          var i :| 0 <= i < |upgrades| && ContractorOf(upgrades[i]) == Some(c);
          if i < |upgrades| - 1 {
            assert init[i] == upgrades[i];
          }
        }
        if exists i :: 0 <= i < |init| && ContractorOf(init[i]) == Some(c) {
          var i :| 0 <= i < |init| && ContractorOf(init[i]) == Some(c);
          assert upgrades[i] == init[i];
        }
      }
    }
  }

  /** One turn of the reducer extends `c`'s list by what the reference lists for that upgrade alone. */
  lemma StepExtends(acc: map<string, seq<QuoteLineItem>>, u: AssignedUpgrade, lineItems: seq<QuoteLineItem>, c: string)
    ensures var r := Step(acc, u, lineItems);
      var t := ItemsFor([u], lineItems, c);
      (c in r <==> c in acc || ContractorOf(u) == Some(c))
        && (c in r ==> r[c] == (if c in acc then acc[c] else []) + t)
        && (c !in r ==> t == [])
  {
    assert [u][1..] == [];
  }

  /** The list under each key is the reference list for that contractor. */
  lemma {:induction false} GroupedMatchesItemsFor(upgrades: seq<AssignedUpgrade>, lineItems: seq<QuoteLineItem>, c: string)
    ensures c in Grouped(upgrades, lineItems) ==> Grouped(upgrades, lineItems)[c] == ItemsFor(upgrades, lineItems, c)
    ensures c !in Grouped(upgrades, lineItems) ==> ItemsFor(upgrades, lineItems, c) == []
    decreases |upgrades|
  {
    if upgrades != [] {
      var init := upgrades[..|upgrades| - 1];
      var last := upgrades[|upgrades| - 1];
      GroupedMatchesItemsFor(init, lineItems, c);
      assert upgrades == init + [last];
      ItemsForAppend(init, [last], lineItems, c);
      StepExtends(Grouped(init, lineItems), last, lineItems, c);
    }
  }

  /** An upgrade without a contractor contributes nothing: dropping unassigned upgrades gives the same record. */
  lemma {:induction false} UnassignedContributeNothing(upgrades: seq<AssignedUpgrade>, lineItems: seq<QuoteLineItem>, u: AssignedUpgrade)
    requires ContractorOf(u).None?
    ensures Grouped(upgrades + [u], lineItems) == Grouped(upgrades, lineItems)
  {
    assert (upgrades + [u])[..|upgrades|] == upgrades;
  }

  /** Each upgrade assigned to `c` adds at most one item for `c`, so `c`'s list is
      no longer than the number of upgrades assigned to it. */
  lemma {:induction false} AtMostOneItemPerUpgrade(upgrades: seq<AssignedUpgrade>, lineItems: seq<QuoteLineItem>, c: string)
    ensures |ItemsFor(upgrades, lineItems, c)| <= |AssignedTo(upgrades, c)|
    decreases |upgrades|
  {
    if upgrades != [] {
      AtMostOneItemPerUpgrade(upgrades[1..], lineItems, c);
      FilterCons(upgrades[0], upgrades[1..], (u: AssignedUpgrade) => ContractorOf(u) == Some(c));
      assert upgrades == [upgrades[0]] + upgrades[1..];
    }
  }

  /** Every item listed for `c` is the first line item of some upgrade assigned to `c`. */
  lemma {:induction false} ItemsComeFromAssignedUpgrades(upgrades: seq<AssignedUpgrade>, lineItems: seq<QuoteLineItem>, c: string, x: QuoteLineItem)
    requires x in ItemsFor(upgrades, lineItems, c)
    ensures exists i :: 0 <= i < |upgrades| && ContractorOf(upgrades[i]) == Some(c) && ItemFor(lineItems, upgrades[i]) == Some(x)
    decreases |upgrades|
  {
    var u := upgrades[0];
    var found := ItemFor(lineItems, u);
    var head := if ContractorOf(u) == Some(c) && found.Some? then [found.value] else [];
    assert ItemsFor(upgrades, lineItems, c) == head + ItemsFor(upgrades[1..], lineItems, c);
    if x in head {
      assert upgrades[0] == u;
    } else {
      assert x in ItemsFor(upgrades[1..], lineItems, c);
      ItemsComeFromAssignedUpgrades(upgrades[1..], lineItems, c, x);
      var i :| 0 <= i < |upgrades[1..]| && ContractorOf(upgrades[1..][i]) == Some(c) && ItemFor(lineItems, upgrades[1..][i]) == Some(x);
      assert upgrades[i + 1] == upgrades[1..][i];
    }
  }
}
