/** Dictionaries of lists: grouping rows by a key keeps every row exactly once. */
module Grouping {
  import opened Common

  ghost predicate NoDuplicates<K>(keys: seq<K>) {
    forall i, j :: 0 <= i < j < |keys| ==> keys[i] != keys[j]
  }

  /** First occurrences in order, as a dictionary keeps its keys. */
  function Distinct<K(==)>(keys: seq<K>): seq<K> {
    if keys == [] then []
    else
      var front := Distinct(keys[..|keys| - 1]);
      var last := keys[|keys| - 1];
      if last in front then front else front + [last]
  }

  function HasKey<T, K(==)>(key: T -> K, k: K): T -> bool { (r: T) => key(r) == k }

  /** The rows filed under `k`, in their original order. */
  function Group<T(!new), K(==)>(key: T -> K, k: K, rows: seq<T>): seq<T> {
    Filter(HasKey(key, k), rows)
  }

  lemma GroupCount<T(!new), K(!new)>(key: T -> K, k: K, rows: seq<T>, row: T)
    ensures multiset(Group(key, k, rows))[row] == if key(row) == k then multiset(rows)[row] else 0
  {
    FilterCount(HasKey(key, k), rows, row);
  }

  lemma GroupConcat<T(!new), K(!new)>(key: T -> K, k: K, a: seq<T>, b: seq<T>)
    ensures Group(key, k, a + b) == Group(key, k, a) + Group(key, k, b)
  {
    FilterAppend(HasKey(key, k), a, b);
  }

  lemma GroupPermutation<T(!new), K(!new)>(key: T -> K, k: K, a: seq<T>, b: seq<T>)
    requires multiset(a) == multiset(b)
    ensures multiset(Group(key, k, a)) == multiset(Group(key, k, b))
  {
    FilterPermutation(HasKey(key, k), a, b);
  }

  function KeysOf<T(!new), K(==)>(key: T -> K, rows: seq<T>): seq<K> {
    Distinct(Map(key, rows))
  }

  function Concat<T(!new), K(==)>(key: T -> K, rows: seq<T>, keys: seq<K>): seq<T> {
    if keys == [] then [] else Group(key, keys[0], rows) + Concat(key, rows, keys[1..])
  }

  function GroupTotal<T(!new), K(==)>(key: T -> K, value: T -> real, rows: seq<T>, keys: seq<K>): real {
    if keys == [] then 0.0
    else SumBy(value, Group(key, keys[0], rows)) + GroupTotal(key, value, rows, keys[1..])
  }

  lemma NoDuplicatesAppend<K(!new)>(front: seq<K>, last: K)
    ensures NoDuplicates(front + [last]) <==> NoDuplicates(front) && last !in front
  {
    var keys := front + [last];
    if NoDuplicates(keys) {
      forall i, j | 0 <= i < j < |front| ensures front[i] != front[j] {
        assert keys[i] != keys[j];
      }
      forall i | 0 <= i < |front| ensures front[i] != last {
        assert keys[i] != keys[|front|];
      }
    }
  }

  lemma {:induction false} DistinctFacts<K(!new)>(keys: seq<K>)
    ensures NoDuplicates(Distinct(keys))
    ensures forall k :: k in Distinct(keys) <==> k in keys
    ensures |Distinct(keys)| <= |keys|
    ensures |Distinct(keys)| == |keys| <==> NoDuplicates(keys)
  {
    if keys != [] {
      var front, last := keys[..|keys| - 1], keys[|keys| - 1];
      DistinctFacts(front);
      NoDuplicatesAppend(front, last);
      NoDuplicatesAppend(Distinct(front), last);
      assert keys == front + [last];
    }
  }

  lemma KeysOfFacts<T(!new), K(!new)>(key: T -> K, rows: seq<T>)
    ensures NoDuplicates(KeysOf(key, rows))
    ensures forall r :: r in rows ==> key(r) in KeysOf(key, rows)
    ensures forall k :: k in KeysOf(key, rows) ==> exists r :: r in rows && key(r) == k
  {
    DistinctFacts(Map(key, rows));
    forall r | r in rows ensures key(r) in KeysOf(key, rows) {
      var i :| 0 <= i < |rows| && rows[i] == r;
      assert Map(key, rows)[i] == key(r);
    }
    forall k | k in KeysOf(key, rows) ensures exists r :: r in rows && key(r) == k {
      var i :| 0 <= i < |rows| && Map(key, rows)[i] == k;
      assert rows[i] in rows && key(rows[i]) == k;
    }
  }

  lemma NoDuplicatesMultiset<K(!new)>(a: seq<K>, b: seq<K>)
    requires NoDuplicates(a) && NoDuplicates(b)
    requires forall k :: k in a <==> k in b
    ensures multiset(a) == multiset(b)
  {
    forall k ensures multiset(a)[k] == multiset(b)[k] {
      OccursOnce(a, k);
      OccursOnce(b, k);
    }
  }

  lemma {:induction false} OccursOnce<K(!new)>(keys: seq<K>, k: K)
    requires NoDuplicates(keys)
    ensures multiset(keys)[k] == if k in keys then 1 else 0
  {
    if keys != [] {
      OccursOnce(keys[1..], k);
      assert keys == [keys[0]] + keys[1..];
      assert NoDuplicates(keys[1..]) && keys[0] !in keys[1..];
    }
  }

  lemma PermutedNoDuplicates<K(!new)>(a: seq<K>, b: seq<K>)
    requires multiset(a) == multiset(b) && NoDuplicates(a)
    ensures NoDuplicates(b)
  {
    DistinctFacts(b);
    PermutationMembers(a, b);
    NoDuplicatesMultiset(a, Distinct(b));
    PermutationMembers(a, Distinct(b));
  }

  lemma {:induction false} GroupTotalAppend<T(!new), K(!new)>(
    key: T -> K, value: T -> real, rows: seq<T>, front: seq<K>, last: K)
    ensures GroupTotal(key, value, rows, front + [last])
         == GroupTotal(key, value, rows, front) + SumBy(value, Group(key, last, rows))
  {
    if front == [] {
      assert front + [last] == [last] && [last][1..] == [];
    } else {
      GroupTotalAppend(key, value, rows, front[1..], last);
      assert (front + [last])[1..] == front[1..] + [last];
    }
  }

  /** How often a row occurs in the concatenated groups: as in the input, if its key is listed. */
  lemma {:induction false} ConcatCount<T(!new), K(!new)>(
    key: T -> K, rows: seq<T>, keys: seq<K>, row: T)
    requires NoDuplicates(keys)
    ensures multiset(Concat(key, rows, keys))[row]
         == if key(row) in keys then multiset(rows)[row] else 0
  {
    if keys != [] {
      ConcatCount(key, rows, keys[1..], row);
      GroupCount(key, keys[0], rows, row);
      assert NoDuplicates(keys[1..]) && keys[0] !in keys[1..];
      assert keys == [keys[0]] + keys[1..];
    }
  }

  lemma {:induction false} ConcatTotal<T(!new), K(!new)>(
    key: T -> K, value: T -> real, rows: seq<T>, keys: seq<K>)
    ensures SumBy(value, Concat(key, rows, keys)) == GroupTotal(key, value, rows, keys)
  {
    if keys != [] {
      ConcatTotal(key, value, rows, keys[1..]);
      SumByAppend(value, Group(key, keys[0], rows), Concat(key, rows, keys[1..]));
    }
  }

  /** The groups hold every row exactly as often as the input, so any total is kept. */
  lemma GroupingKeepsRows<T(!new), K(!new)>(
    key: T -> K, value: T -> real, rows: seq<T>, keys: seq<K>)
    requires NoDuplicates(keys) && forall r :: r in rows ==> key(r) in keys
    ensures multiset(Concat(key, rows, keys)) == multiset(rows)
    ensures GroupTotal(key, value, rows, keys) == SumBy(value, rows)
  {
    forall row ensures multiset(Concat(key, rows, keys))[row] == multiset(rows)[row] {
      ConcatCount(key, rows, keys, row);
      assert row in rows <==> row in multiset(rows);
    }
    ConcatTotal(key, value, rows, keys);
    SumByPermutation(value, Concat(key, rows, keys), rows);
  }

  // ---- filling the dictionary ------------------------------------------------

  ghost predicate Grouped<T(!new), K(!new)>(
    key: T -> K, groups: map<K, seq<T>>, order: seq<K>, rows: seq<T>)
  {
    && order == KeysOf(key, rows)
    && (forall k :: k in groups <==> k in order)
    && (forall k :: k in groups ==> groups[k] == Group(key, k, rows))
  }

  lemma KeysOfAppend<T(!new), K(!new)>(key: T -> K, rows: seq<T>, row: T)
    ensures KeysOf(key, rows + [row])
         == (if key(row) in KeysOf(key, rows) then KeysOf(key, rows)
             else KeysOf(key, rows) + [key(row)])
  {
    var all := Map(key, rows + [row]);
    assert all == Map(key, rows) + [key(row)];
    assert all[..|all| - 1] == Map(key, rows);
  }

  lemma EmptyGroup<T(!new), K(!new)>(key: T -> K, rows: seq<T>, k: K)
    requires k !in KeysOf(key, rows)
    ensures Group(key, k, rows) == []
  {
    var g := Group(key, k, rows);
    assert |g| == 0 || g[0] in g;
    KeysOfFacts(key, rows);
  }

  lemma GroupedStep<T(!new), K(!new)>(
    key: T -> K, groups: map<K, seq<T>>, order: seq<K>, rows: seq<T>, row: T)
    requires Grouped(key, groups, order, rows)
    ensures var k := key(row);
            var known := if k in groups then groups[k] else [];
            Grouped(key, groups[k := known + [row]],
              if k in groups then order else order + [k], rows + [row])
  {
    KeysOfAppend(key, rows, row);
    forall k ensures Group(key, k, rows + [row])
        == Group(key, k, rows) + if key(row) == k then [row] else []
    {
      GroupConcat(key, k, rows, [row]);
      assert [row][1..] == [];
    }
    if key(row) !in groups {
      EmptyGroup(key, rows, key(row));
    }
  }

  /** A dictionary of lists and the order in which its keys were first met. */
  method GroupInto<T(!new), K(==, !new)>(key: T -> K, rows: seq<T>)
    returns (groups: map<K, seq<T>>, order: seq<K>)
    ensures Grouped(key, groups, order, rows)
  {
    groups, order := map[], [];
    for i := 0 to |rows|
      invariant Grouped(key, groups, order, rows[..i])
    {
      var k := key(rows[i]);
      assert rows[..i + 1] == rows[..i] + [rows[i]];
      GroupedStep(key, groups, order, rows[..i], rows[i]);
      var known := if k in groups then groups[k] else [];
      if k !in groups {
        order := order + [k];
      }
      groups := groups[k := known + [rows[i]]];
    }
    assert rows[..|rows|] == rows;
  }
}
