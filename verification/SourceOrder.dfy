/** The order in which every review sorts its source rows: time text, then id, then the row's text. */
module SourceOrder {
  import opened Common

  /** `number` is the id read as an integer, when it is one; `raw` is the row's canonical text. */
  datatype SortKey = SortKey(time: string, number: Option<int>, id: string, raw: string)

  /** Numeric ids come before textual ones. */
  predicate IdLeq(a: SortKey, b: SortKey) {
    match (a.number, b.number)
    case (Some(m), Some(n)) => m <= n
    case (Some(_), None) => true
    case (None, Some(_)) => false
    case (None, None) => TextLeq(a.id, b.id)
  }

  predicate SameId(a: SortKey, b: SortKey) { IdLeq(a, b) && IdLeq(b, a) }

  predicate KeyLeq(a: SortKey, b: SortKey) {
    if a.time != b.time then TextLeq(a.time, b.time)
    else if !SameId(a, b) then IdLeq(a, b)
    else TextLeq(a.raw, b.raw)
  }

  lemma IdLeqTransitive(a: SortKey, b: SortKey, c: SortKey)
    requires IdLeq(a, b) && IdLeq(b, c)
    ensures IdLeq(a, c)
  {
    if a.number.None? && b.number.None? && c.number.None? {
      TextLeqTransitive(a.id, b.id, c.id);
    }
  }

  lemma IdLeqTotal(a: SortKey, b: SortKey)
    ensures IdLeq(a, b) || IdLeq(b, a)
  {
    TextLeqTotal(a.id, b.id);
  }

  lemma KeyLeqTotal(a: SortKey, b: SortKey)
    ensures KeyLeq(a, b) || KeyLeq(b, a)
  {
    TextLeqTotal(a.time, b.time);
    TextLeqTotal(a.raw, b.raw);
    IdLeqTotal(a, b);
  }

  lemma KeyLeqTransitive(a: SortKey, b: SortKey, c: SortKey)
    requires KeyLeq(a, b) && KeyLeq(b, c)
    ensures KeyLeq(a, c)
  {
    if a.time == b.time == c.time {
      IdLeqTotal(a, b);
      IdLeqTotal(b, c);
      IdLeqTransitive(a, b, c);
      if SameId(a, c) {
        IdLeqTransitive(b, c, a);
        IdLeqTransitive(c, a, b);
        TextLeqTransitive(a.raw, b.raw, c.raw);
      }
    } else if a.time == c.time {
      TextLeqAntisymmetric(a.time, b.time);
    } else {
      TextLeqReflexive(b.time);
      TextLeqTransitive(a.time, b.time, c.time);
    }
  }

  /** Keys that tie come from rows with the same text. */
  lemma KeyTies(a: SortKey, b: SortKey)
    requires KeyLeq(a, b) && KeyLeq(b, a)
    ensures a.raw == b.raw
  {
    if a.time != b.time {
      TextLeqAntisymmetric(a.time, b.time);
    } else if SameId(a, b) {
      TextLeqAntisymmetric(a.raw, b.raw);
    }
  }
}
