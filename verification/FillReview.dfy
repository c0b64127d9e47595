/** The whole normalization: grouping, cross-group ids, order evidence and one row per group. */
module FillReview {
  import opened Common
  import opened FillReader
  import opened Grouping
  import opened Sorting
  import opened SourceOrder

  // ---- specification ---------------------------------------------------------

  function GroupRows(fills: seq<Fill>, key: GroupKey): seq<Fill> {
    Sort(RowLeq, Group(KeyOf, key, fills))
  }

  /** Source ids that occur in more than one group. */
  function CrossIds(fills: seq<Fill>): set<string> {
    set r | r in fills && r.sourceId != ""
            && (exists q :: q in fills && q.sourceId == r.sourceId && KeyOf(q) != KeyOf(r))
          :: r.sourceId
  }

  /** The filled quantity an order snapshot reports: given, or total less what remains. */
  function FilledQuantity(o: OrderRow): Option<int> {
    var filled :=
      if o.filledQty.Some? then o.filledQty
      else if o.orderQty.Some? && o.remainingQty.Some? then
        Some(o.orderQty.value - o.remainingQty.value)
      else if o.quantity.Some? && o.unfilled.Some? then Some(o.quantity.value - o.unfilled.value)
      else None;
    if filled.Some? && filled.value < 0 then None else filled
  }

  predicate GivesEvidence(o: OrderRow) {
    !o.key.side.Unknown? && o.key.orderNo != "" && FilledQuantity(o).Some?
  }

  function EvidenceFor(orders: seq<OrderRow>, key: OrderKey): set<int> {
    set o | o in orders && GivesEvidence(o) && o.key == key :: FilledQuantity(o).value
  }

  function Evidence(orders: seq<OrderRow>): map<OrderKey, set<int>> {
    var keys := set o | o in orders && GivesEvidence(o) :: o.key;
    map key | key in keys :: EvidenceFor(orders, key)
  }

  /** Keys are compared by their canonical text. */
  function KeyOrder(text: GroupKey -> string): (GroupKey, GroupKey) -> bool {
    (a: GroupKey, b: GroupKey) => TextLeq(text(a), text(b))
  }

  function SortedKeys(fills: seq<Fill>, text: GroupKey -> string): seq<GroupKey> {
    Sort(KeyOrder(text), KeysOf(KeyOf, fills))
  }

  /** One output per key, in order. */
  function Outputs(one: GroupKey --> Normalized, keys: seq<GroupKey>): seq<Normalized>
    requires forall k :: k in keys ==> one.requires(k)
  {
    if keys == [] then [] else Outputs(one, keys[..|keys| - 1]) + [one(keys[|keys| - 1])]
  }

  function NormalizeOne(fills: seq<Fill>, evidence: map<OrderKey, set<int>>, crossIds: set<string>)
    : GroupKey --> Normalized
  {
    (k: GroupKey) requires GroupRows(fills, k) != [] =>
      NormalizeGroup(k, GroupRows(fills, k), evidence, crossIds)
  }

  function Normalize(fills: seq<Fill>, orders: seq<OrderRow>, text: GroupKey -> string)
    : seq<Normalized>
  {
    SortedKeysHaveRows(fills, text);
    Outputs(NormalizeOne(fills, Evidence(orders), CrossIds(fills)), SortedKeys(fills, text))
  }

  function Warnings(outputs: seq<Normalized>, start: set<Warning>): set<Warning> {
    if outputs == [] then start
    else
      Warnings(outputs[..|outputs| - 1], start) + GroupWarnings(outputs[|outputs| - 1].findings)
  }

  /** The shared warning set after the whole normalization, given what it held before. */
  function AllWarnings(
    fills: seq<Fill>, orders: seq<OrderRow>, text: GroupKey -> string, start: set<Warning>)
    : set<Warning>
  {
    Warnings(
      Normalize(fills, orders, text),
      if CrossIds(fills) != {} then start + {DuplicateSourceIdLineage} else start)
  }

  // ---- keys and groups -------------------------------------------------------

  /** Among these keys, those of equal text are equal. */
  ghost predicate Injective(text: GroupKey -> string, keys: seq<GroupKey>) {
    forall a, b :: a in keys && b in keys && text(a) == text(b) ==> a == b
  }

  lemma KeyOrderTotal(text: GroupKey -> string)
    ensures Total(KeyOrder(text))
  {
    var leq := KeyOrder(text);
    forall a, b ensures leq(a, b) || leq(b, a) {
      TextLeqTotal(text(a), text(b));
    }
    forall a, b, c | leq(a, b) && leq(b, c) ensures leq(a, c) {
      TextLeqTransitive(text(a), text(b), text(c));
    }
  }

  lemma GroupRowsFacts(fills: seq<Fill>, key: GroupKey)
    ensures forall r :: r in GroupRows(fills, key) <==> r in fills && KeyOf(r) == key
    ensures multiset(GroupRows(fills, key)) == multiset(Group(KeyOf, key, fills))
  {
    RowOrderTotal();
    SortSorts(RowLeq, Group(KeyOf, key, fills));
  }

  lemma SortedKeysHaveRows(fills: seq<Fill>, text: GroupKey -> string)
    ensures forall k :: k in SortedKeys(fills, text) <==> exists r :: r in fills && KeyOf(r) == k
    ensures forall k :: k in SortedKeys(fills, text) ==> GroupRows(fills, k) != []
    ensures NoDuplicates(SortedKeys(fills, text))
  {
    KeyOrderTotal(text);
    KeysOfFacts(KeyOf, fills);
    var keys := KeysOf(KeyOf, fills);
    SortSorts(KeyOrder(text), keys);
    PermutedNoDuplicates(keys, SortedKeys(fills, text));
    forall k | k in SortedKeys(fills, text) ensures GroupRows(fills, k) != [] {
      GroupRowsFacts(fills, k);
      var r :| r in fills && KeyOf(r) == k;
      assert r in GroupRows(fills, k);
    }
  }

  /** The outputs carry their key, its rows in order and their raw profit. */
  ghost predicate Covers(outputs: seq<Normalized>, fills: seq<Fill>, keys: seq<GroupKey>) {
    && |outputs| == |keys|
    && forall i :: 0 <= i < |keys| ==>
         && outputs[i].key == keys[i] && outputs[i].rows == GroupRows(fills, keys[i])
         && outputs[i].rawProfit == SumBy(RawProfit, outputs[i].rows)
  }

  lemma {:induction false} OutputIndex(one: GroupKey --> Normalized, keys: seq<GroupKey>, i: nat)
    requires forall k :: k in keys ==> one.requires(k)
    requires i < |keys|
    ensures |Outputs(one, keys)| == |keys| && Outputs(one, keys)[i] == one(keys[i])
  {
    var last := |keys| - 1;
    if i < last {
      OutputIndex(one, keys[..last], i);
    } else if last > 0 {
      OutputIndex(one, keys[..last], 0);
    }
  }

  lemma OutputsCover(one: GroupKey --> Normalized, fills: seq<Fill>, keys: seq<GroupKey>)
    requires forall k :: k in keys ==> one.requires(k)
    requires forall k :: k in keys ==>
               && one(k).key == k && one(k).rows == GroupRows(fills, k)
               && one(k).rawProfit == SumBy(RawProfit, one(k).rows)
    ensures Covers(Outputs(one, keys), fills, keys)
  {
    forall i | 0 <= i < |keys|
      ensures |Outputs(one, keys)| == |keys| && Outputs(one, keys)[i] == one(keys[i])
    {
      OutputIndex(one, keys, i);
    }
    if keys != [] {
      OutputIndex(one, keys, 0);
    }
  }

  lemma NormalizeCovers(fills: seq<Fill>, orders: seq<OrderRow>, text: GroupKey -> string)
    ensures Covers(Normalize(fills, orders, text), fills, SortedKeys(fills, text))
  {
    SortedKeysHaveRows(fills, text);
    var evidence, crossIds, keys := Evidence(orders), CrossIds(fills), SortedKeys(fills, text);
    var one := NormalizeOne(fills, evidence, crossIds);
    forall k | k in keys
      ensures one(k).key == k && one(k).rows == GroupRows(fills, k)
      ensures one(k).rawProfit == SumBy(RawProfit, one(k).rows)
    {
      NormalizeGroupCarries(k, GroupRows(fills, k), evidence, crossIds);
    }
    OutputsCover(one, fills, keys);
  }

  /** Every output is the normalization of a group of fills. */
  ghost predicate IsGroupOutput(n: Normalized, evidence: map<OrderKey, set<int>>, crossIds: set<string>) {
    exists key, rows :: rows != [] && n == NormalizeGroup(key, rows, evidence, crossIds)
  }

  lemma OutputsAreGroups(fills: seq<Fill>, orders: seq<OrderRow>, text: GroupKey -> string, i: nat)
    requires i < |Normalize(fills, orders, text)|
    ensures IsGroupOutput(Normalize(fills, orders, text)[i], Evidence(orders), CrossIds(fills))
  {
    SortedKeysHaveRows(fills, text);
    NormalizeCovers(fills, orders, text);
    var keys := SortedKeys(fills, text);
    OutputIndex(NormalizeOne(fills, Evidence(orders), CrossIds(fills)), keys, i);
    assert GroupRows(fills, keys[i]) != [];
  }

  // ---- one output per group, nothing lost -------------------------------------

  function OutputRows(outputs: seq<Normalized>): seq<Fill> {
    if outputs == [] then [] else OutputRows(outputs[..|outputs| - 1]) + outputs[|outputs| - 1].rows
  }

  function TotalRawProfit(outputs: seq<Normalized>): real {
    if outputs == [] then 0.0
    else TotalRawProfit(outputs[..|outputs| - 1]) + outputs[|outputs| - 1].rawProfit
  }

  lemma GroupRowsCount(fills: seq<Fill>, key: GroupKey, row: Fill)
    ensures multiset(GroupRows(fills, key))[row] == if KeyOf(row) == key then multiset(fills)[row] else 0
  {
    GroupRowsFacts(fills, key);
    GroupCount(KeyOf, key, fills, row);
  }

  function KeyRows(fills: seq<Fill>, keys: seq<GroupKey>): seq<Fill> {
    if keys == [] then []
    else KeyRows(fills, keys[..|keys| - 1]) + GroupRows(fills, keys[|keys| - 1])
  }

  lemma {:induction false} OutputRowsAreKeyRows(
    outputs: seq<Normalized>, fills: seq<Fill>, keys: seq<GroupKey>)
    requires Covers(outputs, fills, keys)
    ensures OutputRows(outputs) == KeyRows(fills, keys)
  {
    if keys != [] {
      OutputRowsAreKeyRows(outputs[..|keys| - 1], fills, keys[..|keys| - 1]);
    }
  }

  lemma {:induction false} KeyRowsCount(fills: seq<Fill>, keys: seq<GroupKey>, row: Fill)
    requires NoDuplicates(keys)
    ensures multiset(KeyRows(fills, keys))[row]
         == if KeyOf(row) in keys then multiset(fills)[row] else 0
  {
    if keys != [] {
      var front, last := keys[..|keys| - 1], keys[|keys| - 1];
      KeyRowsCount(fills, front, row);
      GroupRowsCount(fills, last, row);
      assert last !in front;
      assert keys == front + [last];
    }
  }

  lemma {:induction false} OutputProfit(outputs: seq<Normalized>)
    requires forall n :: n in outputs ==> n.rawProfit == SumBy(RawProfit, n.rows)
    ensures TotalRawProfit(outputs) == SumBy(RawProfit, OutputRows(outputs))
  {
    if outputs != [] {
      var n := |outputs| - 1;
      OutputProfit(outputs[..n]);
      SumByAppend(RawProfit, OutputRows(outputs[..n]), outputs[n].rows);
      assert outputs[n] in outputs;
    }
  }

  /**
   * There is exactly one output per group key, every source row sits in exactly one output, under
   * its own key, and so counts and raw profits of the outputs add up to those of the input.
   */
  lemma NormalizationLosesNothing(
    fills: seq<Fill>, orders: seq<OrderRow>, text: GroupKey -> string)
    ensures var out := Normalize(fills, orders, text);
            && (forall i, j :: 0 <= i < j < |out| ==> out[i].key != out[j].key)
            && (forall r :: r in fills ==> exists i :: 0 <= i < |out| && out[i].key == KeyOf(r))
            && (forall i, r :: 0 <= i < |out| && r in out[i].rows ==> KeyOf(r) == out[i].key)
            && multiset(OutputRows(out)) == multiset(fills)
            && TotalRawProfit(out) == SumBy(RawProfit, fills)
  {
    SortedKeysHaveRows(fills, text);
    var keys := SortedKeys(fills, text);
    NormalizeCovers(fills, orders, text);
    CoveringLosesNothing(Normalize(fills, orders, text), fills, keys);
  }

  lemma CoveringLosesNothing(out: seq<Normalized>, fills: seq<Fill>, keys: seq<GroupKey>)
    requires Covers(out, fills, keys) && NoDuplicates(keys)
    requires forall r :: r in fills ==> KeyOf(r) in keys
    ensures forall i, j :: 0 <= i < j < |out| ==> out[i].key != out[j].key
    ensures forall r :: r in fills ==> exists i :: 0 <= i < |out| && out[i].key == KeyOf(r)
    ensures forall i, r :: 0 <= i < |out| && r in out[i].rows ==> KeyOf(r) == out[i].key
    ensures multiset(OutputRows(out)) == multiset(fills)
    ensures TotalRawProfit(out) == SumBy(RawProfit, fills)
  {
    forall r | r in fills ensures exists i :: 0 <= i < |out| && out[i].key == KeyOf(r) {
      var i :| 0 <= i < |keys| && keys[i] == KeyOf(r);
      assert out[i].key == KeyOf(r);
    }
    forall i, r | 0 <= i < |out| && r in out[i].rows ensures KeyOf(r) == out[i].key {
      GroupRowsFacts(fills, keys[i]);
    }
    CoveringKeepsRows(out, fills, keys);
  }

  lemma CoveringKeepsRows(out: seq<Normalized>, fills: seq<Fill>, keys: seq<GroupKey>)
    requires Covers(out, fills, keys) && NoDuplicates(keys)
    requires forall r :: r in fills ==> KeyOf(r) in keys
    ensures multiset(OutputRows(out)) == multiset(fills)
    ensures TotalRawProfit(out) == SumBy(RawProfit, fills)
  {
    OutputRowsAreKeyRows(out, fills, keys);
    forall row ensures multiset(KeyRows(fills, keys))[row] == multiset(fills)[row] {
      KeyRowsCount(fills, keys, row);
      assert row in fills <==> row in multiset(fills);
    }
    OutputProfit(out);
    SumByPermutation(RawProfit, OutputRows(out), fills);
  }

  // ---- order independence ----------------------------------------------------

  /** The canonical text of a source row determines the row. */
  ghost predicate RawFaithful(fills: seq<Fill>) {
    forall a, b :: a in fills && b in fills && a.raw == b.raw ==> a == b
  }

  lemma GroupRowsPermutation(a: seq<Fill>, b: seq<Fill>, key: GroupKey)
    requires multiset(a) == multiset(b) && RawFaithful(a)
    ensures GroupRows(a, key) == GroupRows(b, key)
  {
    RowOrderTotal();
    GroupPermutation(KeyOf, key, a, b);
    var left := Group(KeyOf, key, a);
    forall x, y | x in left && y in left && RowLeq(x, y) && RowLeq(y, x) ensures x == y {
      KeyTies(SortKeyOf(x), SortKeyOf(y));
    }
    SortPermutation(RowLeq, left, Group(KeyOf, key, b));
  }

  lemma SortedKeysPermutation(a: seq<Fill>, b: seq<Fill>, text: GroupKey -> string)
    requires multiset(a) == multiset(b) && Injective(text, KeysOf(KeyOf, a))
    ensures SortedKeys(a, text) == SortedKeys(b, text)
  {
    PermutationMembers(a, b);
    KeyOrderTotal(text);
    KeysOfFacts(KeyOf, a);
    KeysOfFacts(KeyOf, b);
    var left, right := KeysOf(KeyOf, a), KeysOf(KeyOf, b);
    forall k ensures k in left <==> k in right {
      if k in left { var r :| r in a && KeyOf(r) == k; assert r in b; }
      if k in right { var r :| r in b && KeyOf(r) == k; assert r in a; }
    }
    NoDuplicatesMultiset(left, right);
    var leq := KeyOrder(text);
    forall x, y | x in left && y in left && leq(x, y) && leq(y, x) ensures x == y {
      TextLeqAntisymmetric(text(x), text(y));
    }
    SortPermutation(leq, left, right);
  }

  lemma EvidencePermutation(a: seq<OrderRow>, b: seq<OrderRow>)
    requires forall o :: o in a <==> o in b
    ensures Evidence(a) == Evidence(b)
  {
    forall key ensures EvidenceFor(a, key) == EvidenceFor(b, key) {
    }
  }

  lemma {:induction false} OutputsAgree(
    one: GroupKey --> Normalized, other: GroupKey --> Normalized, keys: seq<GroupKey>)
    requires forall k :: k in keys ==> one.requires(k) && other.requires(k) && one(k) == other(k)
    ensures Outputs(one, keys) == Outputs(other, keys)
  {
    if keys != [] {
      OutputsAgree(one, other, keys[..|keys| - 1]);
      assert keys[|keys| - 1] in keys;
    }
  }

  /** Permuting the fill rows and the order rows changes neither the output list nor the warnings. */
  lemma NormalizationIgnoresInputOrder(
    fills: seq<Fill>, fills': seq<Fill>, orders: seq<OrderRow>, orders': seq<OrderRow>,
    text: GroupKey -> string, warnings: set<Warning>)
    requires multiset(fills) == multiset(fills') && multiset(orders) == multiset(orders')
    requires RawFaithful(fills) && Injective(text, KeysOf(KeyOf, fills))
    ensures Normalize(fills, orders, text) == Normalize(fills', orders', text)
    ensures AllWarnings(fills, orders, text, warnings)
         == AllWarnings(fills', orders', text, warnings)
  {
    PermutationMembers(fills, fills');
    PermutationMembers(orders, orders');
    SortedKeysPermutation(fills, fills', text);
    EvidencePermutation(orders, orders');
    assert CrossIds(fills) == CrossIds(fills');
    SortedKeysHaveRows(fills, text);
    var keys := SortedKeys(fills, text);
    forall k | k in keys ensures GroupRows(fills, k) == GroupRows(fills', k) {
      GroupRowsPermutation(fills, fills', k);
    }
    var evidence, crossIds := Evidence(orders), CrossIds(fills);
    OutputsAgree(
      NormalizeOne(fills, evidence, crossIds), NormalizeOne(fills', evidence, crossIds), keys);
  }
}
