/** What the bot polled for an order is what the whole review reports for it. */
module ReviewRoundTrip {
  import opened Common
  import P = FillPolls
  import Q = FillQuantities
  import opened FillReader
  import opened FillReview
  import W = FillWriter
  import opened Grouping
  import opened SourceOrder
  import opened Sorting
  import opened WriterReader

  /** The review has an output for every key some fill has, and it is that group's. */
  lemma OutputOf(fills: seq<Fill>, orders: seq<OrderRow>, text: GroupKey -> string, key: GroupKey)
    returns (i: nat)
    requires exists r :: r in fills && KeyOf(r) == key
    ensures GroupRows(fills, key) != [] && i < |Normalize(fills, orders, text)|
    ensures Normalize(fills, orders, text)[i]
            == NormalizeGroup(key, GroupRows(fills, key), Evidence(orders), CrossIds(fills))
  {
    SortedKeysHaveRows(fills, text);
    var keys := SortedKeys(fills, text);
    assert key in keys;
    i :| 0 <= i < |keys| && keys[i] == key;
    OutputIndex(NormalizeOne(fills, Evidence(orders), CrossIds(fills)), keys, i);
  }

  /** Shared ids matter to a group only if one of its own ids is shared. */
  lemma SameReading(
    key: GroupKey, rows: seq<Fill>, evidence: map<OrderKey, set<int>>, crossIds: set<string>, q: int)
    requires rows != [] && !LineageConflict(rows, crossIds)
    requires Latest(rows).orderNo != "" && OrderOf(Latest(rows)) in evidence
    requires evidence[OrderOf(Latest(rows))] == {q}
    ensures NormalizeGroup(key, rows, evidence, crossIds).metrics == Read(rows, q, {}).metrics
  {
    PutKeepsRows(rows);
    var unique := UniqueRows(rows);
    assert Decide(rows, unique, {q}, crossIds) == Decide(rows, unique, {q}, {});
  }

  /** What the review needs to know about an order: its snapshots agree on q, and its ids are its own. */
  ghost predicate Reported(fills: seq<Fill>, orders: seq<OrderRow>, rows: seq<Fill>, q: int)
    requires rows != []
  {
    && OrderOf(rows[0]) in Evidence(orders) && Evidence(orders)[OrderOf(rows[0])] == {q}
    && !LineageConflict(rows, CrossIds(fills))
  }

  /** What the table holds of an order is loaded, and some way sorted into the rows of its group. */
  ghost predicate SortedIntoGroup(loaded: seq<Fill>, fills: seq<Fill>, group: GroupKey) {
    && loaded != [] && multiset(loaded) == multiset(Group(KeyOf, group, fills))
    && Sort(RowLeq, loaded) == GroupRows(fills, group)
  }

  /**
   * An order polled from an empty table, loaded with all other fills and reported filled with q
   * shares, has an output in the review, and that output says q if and only if the table holds q.
   */
  lemma PolledOrderInReviewIffStored(
    fills: seq<Fill>, loaded: seq<Fill>, orders: seq<OrderRow>, text: GroupKey -> string,
    group: GroupKey, day: int, date: string, isMock: bool, polls: seq<P.Poll>,
    key: W.CumulativeKey, q: int) returns (i: nat)
    requires key.orderNo != "" && key.isMock == isMock && !key.side.Other?
    requires forall p :: p in polls ==> P.DatedOn(p, day)
    requires SortedIntoGroup(loaded, fills, group)
    requires LoadedFrom(loaded, P.RunPolls([], day, isMock, polls), day, date, key)
    requires q == Q.HighWater(isMock, P.AllRows(polls), key, 0)
    requires GroupRows(fills, group) != [] && Reported(fills, orders, GroupRows(fills, group), q)
    ensures var out := Normalize(fills, orders, text);
            && i < |out| && out[i].key == group
            && (out[i].metrics.quantity == Some(q)
                <==> P.StoredQuantity(P.RunPolls([], day, isMock, polls), day, key) == q)
            && (P.AllDistinguishable([], day, isMock, polls, key) ==>
                  out[i].metrics.quantity == Some(q))
  {
    var sorted := GroupRows(fills, group);
    GroupRowsFacts(fills, group);
    assert sorted[0] in sorted && Latest(sorted) in sorted;
    i := OutputOf(fills, orders, text, group);
    PolledOrderReadsBackIffStored(loaded, day, date, isMock, polls, key, q);
    PolledPositive([], day, isMock, polls);
    assert Latest(sorted) in loaded by {
      PermutationMembers(sorted, loaded);
    }
    LoadedRow(loaded, P.RunPolls([], day, isMock, polls), day, date, key, Latest(sorted));
    assert KeyOf(sorted[0]) == KeyOf(Latest(sorted)) == group;
    SameReading(group, sorted, Evidence(orders), CrossIds(fills), q);
    NormalizeGroupCarries(group, sorted, Evidence(orders), CrossIds(fills));
  }

  /** Fills loaded in the table's order do, and so do fills in any order whose texts differ. */
  lemma AnyOrderSortsIntoGroup(loaded: seq<Fill>, fills: seq<Fill>, group: GroupKey)
    requires loaded != [] && multiset(loaded) == multiset(Group(KeyOf, group, fills))
    requires loaded == Group(KeyOf, group, fills) || RawFaithful(loaded)
    ensures SortedIntoGroup(loaded, fills, group) && GroupRows(fills, group) != []
  {
    var rows := Group(KeyOf, group, fills);
    GroupRowsFacts(fills, group);
    PermutationMembers(loaded, rows);
    assert loaded[0] in loaded;
    if loaded != rows {
      RowOrderTotal();
      forall x, y | x in loaded && y in loaded && RowLeq(x, y) && RowLeq(y, x) ensures x == y {
        KeyTies(SortKeyOf(x), SortKeyOf(y));
      }
      SortPermutation(RowLeq, loaded, rows);
    }
    assert loaded[0] in GroupRows(fills, group);
  }
}
