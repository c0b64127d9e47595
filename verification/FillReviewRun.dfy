/** The normalization as it runs: dictionaries filled in loops and one shared warning set. */
module FillReviewRun {
  import opened Common
  import opened FillReader
  import opened FillReview
  import opened Grouping
  import opened Sorting

  method OrderQuantityEvidence(orders: seq<OrderRow>) returns (result: map<OrderKey, set<int>>)
    ensures result == Evidence(orders)
  {
    result := map[];
    for i := 0 to |orders|
      invariant result == Evidence(orders[..i])
    {
      var o := orders[i];
      assert orders[..i + 1] == orders[..i] + [o];
      if o.key.side.Unknown? || o.key.orderNo == "" {
        EvidenceSkips(orders[..i], o);
        continue;
      }
      var filled := o.filledQty;
      if filled.None? && o.orderQty.Some? && o.remainingQty.Some? {
        filled := Some(o.orderQty.value - o.remainingQty.value);
      }
      if filled.None? && o.quantity.Some? && o.unfilled.Some? {
        filled := Some(o.quantity.value - o.unfilled.value);
      }
      if filled.None? || filled.value < 0 {
        EvidenceSkips(orders[..i], o);
        continue;
      }
      EvidenceAdds(orders[..i], o);
      var known := if o.key in result then result[o.key] else {};
      result := result[o.key := known + {filled.value}];
    }
    assert orders[..|orders|] == orders;
  }

  lemma EvidenceSkips(orders: seq<OrderRow>, o: OrderRow)
    requires !GivesEvidence(o)
    ensures Evidence(orders + [o]) == Evidence(orders)
  {
    forall key ensures EvidenceFor(orders + [o], key) == EvidenceFor(orders, key) {
    }
  }

  lemma EvidenceKeys(orders: seq<OrderRow>, key: OrderKey)
    ensures key in Evidence(orders) <==> exists o :: o in orders && GivesEvidence(o) && o.key == key
    ensures key !in Evidence(orders) ==> EvidenceFor(orders, key) == {}
  {
  }

  lemma EvidenceAdds(orders: seq<OrderRow>, o: OrderRow)
    requires GivesEvidence(o)
    ensures var known := if o.key in Evidence(orders) then Evidence(orders)[o.key] else {};
            Evidence(orders + [o]) == Evidence(orders)[o.key := known + {FilledQuantity(o).value}]
  {
    forall key ensures EvidenceFor(orders + [o], key)
        == EvidenceFor(orders, key) + if key == o.key then {FilledQuantity(o).value} else {}
    {
    }
    var before, after := Evidence(orders), Evidence(orders + [o]);
    var known := if o.key in before then before[o.key] else {};
    var updated := before[o.key := known + {FilledQuantity(o).value}];
    EvidenceKeys(orders, o.key);
    assert after.Keys == updated.Keys by {
      forall key ensures key in after <==> key in updated {
        EvidenceKeys(orders, key);
        EvidenceKeys(orders + [o], key);
        assert o in orders + [o];
      }
    }
    forall key | key in after ensures after[key] == updated[key] {
      assert after[key] == EvidenceFor(orders + [o], key);
    }
  }

  /** The decision variables of one group, reassigned branch by branch. */
  method DecideRow(
    rows: seq<Fill>, unique: seq<Fill>, evidenceValues: set<int>, crossIds: set<string>)
    returns (decision: Decision)
    requires rows != [] && unique != []
    ensures decision == Decide(rows, unique, evidenceValues, crossIds)
  {
    var latest, known := rows[|rows| - 1], TheOnly(evidenceValues);
    var reading, confidence, selected: seq<Fill> := AmbiguousExcluded, NoConfidence, [];
    var reason;
    if exists id :: id in SourceIds(rows) && id in crossIds {
      reason := SharedSourceId;
    } else if |SourceIds(rows)| != |rows| {
      reason := LineageMissing;
    } else if latest.side.Unknown? {
      reason := SideUnknown;
    } else if HasInvalidQuantity(unique) {
      reason := QuantityInvalid;
    } else if |evidenceValues| > 1 {
      reason := EvidenceConflict;
    } else if latest.orderNo == "" {
      if |unique| == 1 {
        reading, confidence, selected, reason := NoOrderNoFallback, Low, unique, FallbackIdentity;
      } else {
        reason := FallbackDisagrees;
      }
    } else if |unique| == 1 {
      reading := if |rows| > 1 then ExactDuplicateCollapsed else SingleRow;
      confidence, selected := High, unique;
      reason := if reading.ExactDuplicateCollapsed? then SamePayload else OneRow;
    } else {
      var sum, last := SumQuantity(unique), Quantity(unique[|unique| - 1]);
      var rising, falling := Rising(unique), Falling(unique);
      if known.Some? && known.value == sum && known.value != last {
        reading, confidence, selected, reason := DeltaRowsSummed, High, unique, EvidenceIsSum;
      } else if known.Some? && rising && known.value == last && known.value != sum {
        reading, confidence := LegacyCumulativeLatest, High;
        selected, reason := [unique[|unique| - 1]], EvidenceIsLatest;
      } else if known.None? && falling {
        reading, confidence, selected, reason := DeltaRowsSummed, Medium, unique, Decreasing;
      } else if known.None? && rising {
        reason := Increasing;
      } else if known.Some? {
        reason := EvidenceFitsNeither;
      } else {
        reason := NoInterpretation;
      }
    }
    decision := Decision(reading, confidence, reason, selected);
  }

  method NormalizeGroupRow(
    key: GroupKey, rows: seq<Fill>, evidence: map<OrderKey, set<int>>, crossIds: set<string>,
    warnings: set<Warning>) returns (n: Normalized, raised: set<Warning>)
    requires rows != []
    ensures n == NormalizeGroup(key, rows, evidence, crossIds)
    ensures raised == warnings + GroupWarnings(n.findings)
  {
    PutKeepsRows(rows);
    var latest := rows[|rows| - 1];
    var values := {};
    if latest.orderNo != "" && OrderOf(latest) in evidence {
      values := evidence[OrderOf(latest)];
    }
    var decision := DecideRow(rows, UniqueRows(rows), values, crossIds);
    n := Assemble(key, rows, values, decision);
    raised := RaiseWarnings(FindingsOf(rows, values, decision), warnings);
  }

  method RaiseWarnings(findings: Findings, warnings: set<Warning>) returns (raised: set<Warning>)
    ensures raised == warnings + GroupWarnings(findings)
  {
    raised := warnings;
    if findings.missingLineage { raised := raised + {SourceIdLineageMissing}; }
    if findings.invalidQuantity { raised := raised + {NonPositiveNormalizedQuantity}; }
    if findings.unknownSide {
      raised := raised + {UnknownSide};
      if findings.hangulSide { raised := raised + {UnknownKoreanSide}; }
    }
    if findings.conflict { raised := raised + {OrderQuantityEvidenceConflict}; }
    if findings.ambiguous { raised := raised + {AmbiguousFillsExcluded}; }
    if findings.sellWithoutOrder { raised := raised + {SellWithoutOrderNo}; }
    if findings.missingProfit { raised := raised + {MissingSellProfit}; }
  }

  // ---- grouping loops --------------------------------------------------------

  function GroupsOfId(fills: seq<Fill>, id: string): set<GroupKey> {
    set r | r in fills && r.sourceId == id :: KeyOf(r)
  }

  method CrossGroupIds(fills: seq<Fill>) returns (crossIds: set<string>)
    ensures crossIds == CrossIds(fills)
  {
    var idGroups: map<string, set<GroupKey>> := map[];
    for i := 0 to |fills|
      invariant forall id :: id in idGroups
                  <==> id != "" && exists r :: r in fills[..i] && r.sourceId == id
      invariant forall id :: id in idGroups ==> idGroups[id] == GroupsOfId(fills[..i], id)
    {
      var row := fills[i];
      assert fills[..i + 1] == fills[..i] + [row];
      forall id ensures GroupsOfId(fills[..i + 1], id)
          == GroupsOfId(fills[..i], id) + if row.sourceId == id then {KeyOf(row)} else {}
      {
      }
      if row.sourceId != "" {
        var known := if row.sourceId in idGroups then idGroups[row.sourceId] else {};
        assert known == GroupsOfId(fills[..i], row.sourceId);
        idGroups := idGroups[row.sourceId := known + {KeyOf(row)}];
      }
    }
    assert fills[..|fills|] == fills;
    crossIds := set id | id in idGroups && |idGroups[id]| > 1;
    forall id ensures id in crossIds <==> id in CrossIds(fills) {
      if id in idGroups {
        SeveralGroups(fills, id);
      }
    }
  }

  lemma SeveralGroups(fills: seq<Fill>, id: string)
    requires id != "" && exists r :: r in fills && r.sourceId == id
    ensures |GroupsOfId(fills, id)| > 1 <==> id in CrossIds(fills)
  {
    var keys := GroupsOfId(fills, id);
    var r :| r in fills && r.sourceId == id;
    assert KeyOf(r) in keys;
    if |keys| > 1 {
      assert |keys - {KeyOf(r)}| == |keys| - 1;
      var k :| k in keys - {KeyOf(r)};
    }
    if id in CrossIds(fills) {
      var a, b :| a in fills && b in fills && a.sourceId == id && b.sourceId == id && KeyOf(a) != KeyOf(b);
      assert {KeyOf(a), KeyOf(b)} <= keys;
      assert |keys - {KeyOf(a)}| == |keys| - 1;
      assert KeyOf(b) in keys - {KeyOf(a)};
    }
  }

  /** One dictionary entry, sorted and normalized. */
  method NormalizeEntry(
    ghost fills: seq<Fill>, key: GroupKey, group: seq<Fill>, evidence: map<OrderKey, set<int>>,
    crossIds: set<string>, warnings: set<Warning>) returns (n: Normalized, raised: set<Warning>)
    requires group == Group(KeyOf, key, fills) && GroupRows(fills, key) != []
    ensures n == NormalizeOne(fills, evidence, crossIds)(key)
    ensures raised == warnings + GroupWarnings(n.findings)
  {
    n, raised := NormalizeGroupRow(key, Sort(RowLeq, group), evidence, crossIds, warnings);
  }

  method NormalizeEntries(
    ghost fills: seq<Fill>, keys: seq<GroupKey>, groups: map<GroupKey, seq<Fill>>,
    evidence: map<OrderKey, set<int>>, crossIds: set<string>, warnings: set<Warning>,
    ghost one: GroupKey --> Normalized)
    returns (outputs: seq<Normalized>, raised: set<Warning>)
    requires forall k :: k in keys ==>
               && k in groups && groups[k] == Group(KeyOf, k, fills) && GroupRows(fills, k) != []
               && one.requires(k)
    requires one == NormalizeOne(fills, evidence, crossIds)
    ensures outputs == Outputs(one, keys)
    ensures raised == Warnings(outputs, warnings)
  {
    outputs, raised := [], warnings;
    for i := 0 to |keys|
      invariant Progress(outputs, raised, one, keys, i, warnings)
    {
      var key := keys[i];
      assert key in keys;
      ghost var before := raised;
      var n;
      n, raised := NormalizeEntry(fills, key, groups[key], evidence, crossIds, raised);
      ProgressStep(outputs, before, one, keys, i, warnings);
      outputs := outputs + [n];
    }
    assert keys[..|keys|] == keys;
  }

  method NormalizeFillGroups(
    fills: seq<Fill>, orders: seq<OrderRow>, text: GroupKey -> string, warnings: set<Warning>)
    returns (outputs: seq<Normalized>, raised: set<Warning>)
    ensures outputs == Normalize(fills, orders, text)
    ensures raised == AllWarnings(fills, orders, text, warnings)
  {
    SortedKeysHaveRows(fills, text);
    raised := warnings;
    var groups, order := GroupInto(KeyOf, fills);
    var crossIds := CrossGroupIds(fills);
    if crossIds != {} { raised := raised + {DuplicateSourceIdLineage}; }
    var evidence := OrderQuantityEvidence(orders);
    var keys := Sort(KeyOrder(text), order);
    KeyOrderTotal(text);
    SortSorts(KeyOrder(text), order);
    outputs, raised := NormalizeEntries(
      fills, keys, groups, evidence, crossIds, raised, NormalizeOne(fills, evidence, crossIds));
  }

  ghost predicate Progress(
    outputs: seq<Normalized>, raised: set<Warning>, one: GroupKey --> Normalized,
    keys: seq<GroupKey>, i: nat, start: set<Warning>)
    requires i <= |keys| && forall k :: k in keys ==> one.requires(k)
  {
    outputs == Outputs(one, keys[..i]) && raised == Warnings(outputs, start)
  }

  lemma ProgressStep(
    outputs: seq<Normalized>, raised: set<Warning>, one: GroupKey --> Normalized,
    keys: seq<GroupKey>, i: nat, start: set<Warning>)
    requires i < |keys| && forall k :: k in keys ==> one.requires(k)
    requires Progress(outputs, raised, one, keys, i, start)
    ensures Progress(outputs + [one(keys[i])], raised + GroupWarnings(one(keys[i]).findings),
              one, keys, i + 1, start)
  {
    assert keys[..i + 1][..i] == keys[..i];
    assert (outputs + [one(keys[i])])[..|outputs|] == outputs;
  }
}
