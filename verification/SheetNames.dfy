/** Column letters and sheet names of the review workbook. */
module SheetNames {
  import opened Common
  import opened Grouping

  // ---- column letters -----------------------------------------------------------------

  function Letter(n: nat): char
    requires n < 26
  {
    'A' + n as char
  }

  predicate IsLetter(c: char) { 'A' <= c <= 'Z' }

  predicate IsColumn(name: string) { forall i :: 0 <= i < |name| ==> IsLetter(name[i]) }

  function ColumnName(index: nat): string {
    if index == 0 then "" else ColumnName((index - 1) / 26) + [Letter((index - 1) % 26)]
  }

  /** The letters read as digits 1 to 26 of base 26. */
  function ColumnIndex(name: string): nat
    requires IsColumn(name)
  {
    if name == "" then 0
    else 26 * ColumnIndex(name[..|name| - 1]) + (name[|name| - 1] as nat - 'A' as nat) + 1
  }

  method ColumnLetters(index: nat) returns (name: string)
    ensures name == ColumnName(index)
  {
    name := "";
    var rest := index;
    while rest != 0
      invariant ColumnName(rest) + name == ColumnName(index)
    {
      assert ColumnName((rest - 1) / 26) + ([Letter((rest - 1) % 26)] + name)
             == ColumnName(rest) + name;
      name := [Letter((rest - 1) % 26)] + name;
      rest := (rest - 1) / 26;
    }
    assert "" + name == name;
  }

  /** Every index has its own name of capital letters, empty for none but zero. */
  lemma {:induction false} NameToIndex(index: nat)
    ensures IsColumn(ColumnName(index)) && ColumnIndex(ColumnName(index)) == index
    ensures ColumnName(index) == "" <==> index == 0
  {
    if index != 0 {
      NameToIndex((index - 1) / 26);
      var name := ColumnName(index);
      assert name[..|name| - 1] == ColumnName((index - 1) / 26);
    }
  }

  /** Every name of capital letters is the name of its index. */
  lemma {:induction false} IndexToName(name: string)
    requires IsColumn(name)
    ensures ColumnName(ColumnIndex(name)) == name
  {
    if name != "" {
      IndexToName(name[..|name| - 1]);
      assert name == name[..|name| - 1] + [name[|name| - 1]];
    }
  }

  // ---- numbers as text ------------------------------------------------------------------

  function Decimal(n: nat): string {
    if n < 10 then ['0' + n as char] else Decimal(n / 10) + ['0' + (n % 10) as char]
  }

  lemma {:induction false} DecimalInjective(m: nat, n: nat)
    requires Decimal(m) == Decimal(n)
    ensures m == n
  {
    var a, b := Decimal(m), Decimal(n);
    assert a[|a| - 1] == b[|b| - 1];
    if m >= 10 && n >= 10 {
      assert a[..|a| - 1] == Decimal(m / 10) && b[..|b| - 1] == Decimal(n / 10);
      DecimalInjective(m / 10, n / 10);
    } else {
      assert |a| == |b|;
    }
  }

  lemma {:induction false} DecimalGrows(m: nat, n: nat)
    requires m <= n
    ensures 1 <= |Decimal(m)| <= |Decimal(n)|
  {
    if n >= 10 {
      DecimalGrows(if m >= 10 then m / 10 else 0, n / 10);
    }
  }

  lemma DecimalUpTo999(n: nat)
    requires n <= 999
    ensures |Decimal(n)| <= 3
  {
    assert |Decimal(99)| == 2 && |Decimal(999)| == 3;
    DecimalGrows(n, 999);
  }

  /** The first `j` digits of a number are the digits of a smaller one. */
  lemma {:induction false} DigitsOfSmaller(n: nat, j: nat) returns (p: nat)
    requires n >= 1 && 1 <= j < |Decimal(n)|
    ensures 1 <= p < n && Decimal(n)[..j] == Decimal(p)
  {
    var front := Decimal(n / 10);
    assert Decimal(n)[..|front|] == front;
    if j == |front| {
      p := n / 10;
    } else {
      p := DigitsOfSmaller(n / 10, j);
      assert Decimal(n)[..j] == front[..j];
    }
  }

  // ---- sheet names ------------------------------------------------------------------------

  const MAX_NAME := 31
  const MAX_BASE := 27

  predicate Forbidden(c: char) { c in "[]:*?/\\" }

  function Cleaned(c: char): char { if Forbidden(c) then '_' else c }

  function Cut(name: string, limit: nat): string {
    if |name| <= limit then name else name[..limit]
  }

  function CleanName(name: string): string {
    var cut := Cut(Map(Cleaned, name), MAX_NAME);
    if cut == "" then "sheet" else cut
  }

  /** A clean name is the start of the given one, with an underscore for each character not allowed. */
  lemma CleanNameStated(name: string)
    ensures var clean := CleanName(name);
            if name == "" then clean == "sheet"
            else
              && |clean| == (if |name| < 31 then |name| else 31)
              && forall i :: 0 <= i < |clean| ==>
                   clean[i] == if name[i] in {'[', ']', ':', '*', '?', '/', '\\'} then '_' else name[i]
  {
    forall c: char ensures Forbidden(c) <==> c in {'[', ']', ':', '*', '?', '/', '\\'} {
      var all := "[]:*?/\\";
      assert all == ['[', ']', ':', '*', '?', '/', '\\'];
    }
  }

  function Suffixed(base: string, suffix: nat): string { base + "_" + Decimal(suffix) }

  ghost predicate TakenBelow(base: string, existing: seq<string>, suffix: nat) {
    forall k: nat :: 1 <= k < suffix ==> Suffixed(base, k) in existing
  }

  ghost predicate FirstFree(base: string, existing: seq<string>, suffix: nat) {
    suffix >= 1 && Suffixed(base, suffix) !in existing && TakenBelow(base, existing, suffix)
  }

  /** `r` is the name the source gives: the cleaned one, or the base with the first free suffix, cut. */
  ghost predicate IsSheetName(name: string, existing: seq<string>, r: string) {
    var cleaned := CleanName(name);
    var base := Cut(cleaned, MAX_BASE);
    if cleaned !in existing then r == cleaned
    else exists suffix: nat ::
           FirstFree(base, existing, suffix) && r == Cut(Suffixed(base, suffix), MAX_NAME)
  }

  lemma SuffixedInjective(base: string, m: nat, n: nat)
    requires Suffixed(base, m) == Suffixed(base, n)
    ensures m == n
  {
    assert Suffixed(base, m)[|base| + 1..] == Decimal(m);
    assert Suffixed(base, n)[|base| + 1..] == Decimal(n);
    DecimalInjective(m, n);
  }

  function Names(base: string, n: nat): set<string> {
    set k | 1 <= k < n + 1 :: Suffixed(base, k)
  }

  lemma {:induction false} NamesCount(base: string, n: nat)
    ensures |Names(base, n)| == n
  {
    if n > 0 {
      NamesCount(base, n - 1);
      if Suffixed(base, n) in Names(base, n - 1) {
        var k :| 1 <= k < n && Suffixed(base, k) == Suffixed(base, n);
        SuffixedInjective(base, k, n);
        assert false;
      }
      assert Names(base, n) == Names(base, n - 1) + {Suffixed(base, n)};
    } else {
      assert Names(base, n) == {};
    }
  }

  lemma {:induction false} ContentsCount(s: seq<string>)
    ensures |set x | x in s| <= |s|
  {
    if s != [] {
      ContentsCount(s[1..]);
      assert (set x | x in s) == (set x | x in s[1..]) + {s[0]};
    }
  }

  lemma SubsetCount(a: set<string>, b: set<string>)
    requires a <= b
    ensures |a| <= |b|
  {
    assert b == a + (b - a);
  }

  /** Suffixes that are all taken are no more than the names there are. */
  lemma TakenIsBounded(base: string, existing: seq<string>, suffix: nat)
    requires suffix >= 1 && TakenBelow(base, existing, suffix)
    ensures suffix - 1 <= |existing|
  {
    NamesCount(base, suffix - 1);
    ContentsCount(existing);
    SubsetCount(Names(base, suffix - 1), set x | x in existing);
  }

  method SheetName(name: string, existing: seq<string>) returns (r: string)
    ensures IsSheetName(name, existing, r)
  {
    var cleaned := CleanName(name);
    if cleaned !in existing {
      return cleaned;
    }
    var base := Cut(cleaned, MAX_BASE);
    var suffix := 1;
    TakenIsBounded(base, existing, suffix);
    while Suffixed(base, suffix) in existing
      invariant suffix >= 1 && TakenBelow(base, existing, suffix)
      invariant suffix - 1 <= |existing|
      decreases |existing| + 1 - suffix
    {
      suffix := suffix + 1;
      TakenIsBounded(base, existing, suffix);
    }
    r := Cut(Suffixed(base, suffix), MAX_NAME);
  }

  /** Some suffix that fits into the length limit is not taken. */
  ghost predicate SomeFits(base: string, existing: seq<string>) {
    exists k: nat :: k >= 1 && Suffixed(base, k) !in existing && |Suffixed(base, k)| <= MAX_NAME
  }

  /** A cut name is the name of a smaller suffix, which is taken. */
  lemma CutIsTaken(base: string, existing: seq<string>, suffix: nat)
    requires |base| <= MAX_BASE && FirstFree(base, existing, suffix)
    requires |Suffixed(base, suffix)| > MAX_NAME
    ensures Cut(Suffixed(base, suffix), MAX_NAME) in existing
  {
    var j := MAX_NAME - 1 - |base|;
    var p := DigitsOfSmaller(suffix, j);
    assert Suffixed(base, suffix)[..MAX_NAME] == Suffixed(base, p);
  }

  /**
   * A sheet name never exceeds the limit, and it is new exactly when the cleaned name is, or when
   * some suffix that fits is still free.
   */
  lemma SheetNameIsNewIff(name: string, existing: seq<string>, r: string)
    requires IsSheetName(name, existing, r)
    ensures 1 <= |r| <= MAX_NAME
    ensures r !in existing
            <==> CleanName(name) !in existing
                 || SomeFits(Cut(CleanName(name), MAX_BASE), existing)
  {
    var cleaned := CleanName(name);
    var base := Cut(cleaned, MAX_BASE);
    if cleaned in existing {
      var suffix: nat :| FirstFree(base, existing, suffix)
                         && r == Cut(Suffixed(base, suffix), MAX_NAME);
      if |Suffixed(base, suffix)| > MAX_NAME {
        CutIsTaken(base, existing, suffix);
        forall k: nat | k >= 1 && Suffixed(base, k) !in existing
          ensures |Suffixed(base, k)| > MAX_NAME
        {
          DecimalGrows(suffix, k);
        }
      }
    }
  }

  /** Below 999 sheets a suffix always fits, so the name is new. */
  lemma FewSheetsGetNewNames(name: string, existing: seq<string>, r: string)
    requires IsSheetName(name, existing, r) && |existing| < 999
    ensures r !in existing && 1 <= |r| <= MAX_NAME
  {
    SheetNameIsNewIff(name, existing, r);
    var cleaned := CleanName(name);
    var base := Cut(cleaned, MAX_BASE);
    if cleaned in existing {
      var suffix: nat :| FirstFree(base, existing, suffix)
                         && r == Cut(Suffixed(base, suffix), MAX_NAME);
      TakenIsBounded(base, existing, suffix);
      DecimalUpTo999(suffix);
      assert Suffixed(base, suffix) !in existing && |Suffixed(base, suffix)| <= MAX_NAME;
    }
  }

  /** With every suffix up to 999 of a long name taken, the next sheet repeats a name. */
  lemma ManySheetsCollide(base: string, existing: seq<string>, r: string)
    requires |base| == MAX_BASE && (forall i :: 0 <= i < |base| ==> !Forbidden(base[i]))
    requires base in existing && TakenBelow(base, existing, 1000)
    requires IsSheetName(base, existing, r)
    ensures r in existing
  {
    assert Map(Cleaned, base) == base;
    assert CleanName(base) == base && Cut(base, MAX_BASE) == base;
    forall k: nat | k >= 1 && Suffixed(base, k) !in existing ensures |Suffixed(base, k)| > MAX_NAME {
      assert k >= 1000;
      assert |Decimal(1000)| == 4;
      DecimalGrows(1000, k);
    }
    SheetNameIsNewIff(base, existing, r);
  }

  // ---- the writer ----------------------------------------------------------------------------

  type Cell = Option<string>

  datatype Sheet = Sheet(name: string, cells: seq<seq<Cell>>)

  function NameOf(sheet: Sheet): string { sheet.name }

  class SimpleXlsxWriter {
    var sheets: seq<Sheet>

    constructor ()
      ensures sheets == []
    {
      sheets := [];
    }

    /** No two sheets share a name, and every name fits. */
    ghost predicate Valid()
      reads this
    {
      NoDuplicates(Map(NameOf, sheets))
      && forall i :: 0 <= i < |sheets| ==> 1 <= |sheets[i].name| <= MAX_NAME
    }

    method AddSheet(name: string, cells: seq<seq<Cell>>)
      modifies this
      ensures |sheets| == |old(sheets)| + 1 && old(sheets) <= sheets
      ensures sheets[|old(sheets)|].cells == cells
      ensures IsSheetName(name, Map(NameOf, old(sheets)), sheets[|old(sheets)|].name)
      ensures old(Valid()) && |old(sheets)| < 999 ==> Valid()
    {
      var existing := Map(NameOf, sheets);
      var sheetName := SheetName(name, existing);
      sheets := sheets + [Sheet(sheetName, cells)];
      MapAppend(NameOf, old(sheets), Sheet(sheetName, cells));
      if |existing| < 999 {
        FewSheetsGetNewNames(name, existing, sheetName);
      }
    }
  }
}
