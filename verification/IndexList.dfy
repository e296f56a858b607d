/** Completion indexes as text: a comma-separated list of decimal numbers. */
module IndexList {
  import opened Wrappers

  const MAX_INT := 0x7FFF_FFFF_FFFF_FFFF

  predicate IsSpace(c: char) {
    || c in {'\t', '\n', '\U{0b}', '\U{0c}', '\r', ' ', '\U{85}', '\U{a0}', '\U{1680}'}
    || '\U{2000}' <= c <= '\U{200a}'
    || c in {'\U{2028}', '\U{2029}', '\U{202f}', '\U{205f}', '\U{3000}'}
  }

  function TrimSpace(s: string): string {
    if s != [] && IsSpace(s[0]) then TrimSpace(s[1..])
    else if s != [] && IsSpace(s[|s| - 1]) then TrimSpace(s[..|s| - 1])
    else s
  }

  /** The pieces between commas; there is always at least one. */
  function Split(s: string): (items: seq<string>)
    ensures items != []
  {
    if s == [] then [[]]
    else
      var rest := Split(s[1..]);
      if s[0] == ',' then [[]] + rest else [[s[0]] + rest[0]] + rest[1..]
  }

  predicate IsDigit(c: char) {
    '0' <= c <= '9'
  }

  predicate AllDigits(s: string) {
    forall k :: 0 <= k < |s| ==> IsDigit(s[k])
  }

  function Value(s: string): nat
    requires AllDigits(s)
  {
    if s == [] then 0 else 10 * Value(s[..|s| - 1]) + (s[|s| - 1] as int - '0' as int)
  }

  /** strconv.Atoi: an optional sign, then digits, within the range of a 64-bit int. */
  function Atoi(s: string): Option<int> {
    var signed := s != [] && s[0] in {'+', '-'};
    var digits := if signed then s[1..] else s;
    if digits == [] || !AllDigits(digits) then None
    else
      var magnitude: int := Value(digits);
      var n := if signed && s[0] == '-' then -magnitude else magnitude;
      if -MAX_INT - 1 <= n <= MAX_INT then Some(n) else None
  }

  function ItemValue(item: string): Option<nat> {
    var n := Atoi(TrimSpace(item));
    if n.Some? && n.value >= 0 then Some(n.value) else None
  }

  predicate AllNumbers(items: seq<string>) {
    forall k :: 0 <= k < |items| ==> ItemValue(items[k]).Some?
  }

  /** The numbers among the items. */
  function Numbers(items: seq<string>): set<nat> {
    set k | 0 <= k < |items| && ItemValue(items[k]).Some? :: ItemValue(items[k]).value
  }

  /** Every item must be a non-negative number; repetitions are forgotten. */
  function Parsed(value: string): Option<set<nat>> {
    if value == "" then Some({})
    else if AllNumbers(Split(value)) then Some(Numbers(Split(value)))
    else None
  }

  method ParseIndexes(value: string) returns (indexes: Option<set<nat>>)
    ensures indexes == Parsed(value)
  {
    if value == "" {
      return Some({});
    }
    var items := Split(value);
    var found: set<nat> := {};
    for k := 0 to |items|
      invariant AllNumbers(items[..k]) && found == Numbers(items[..k])
    {
      var index := Atoi(TrimSpace(items[k]));
      if index.None? || index.value < 0 {
        assert ItemValue(items[k]).None?;
        return None;
      }
      NumbersOfOneMore(items, k);
      found := found + {index.value};
    }
    assert items[..|items|] == items;
    indexes := Some(found);
  }

  lemma NumbersOfOneMore(items: seq<string>, k: nat)
    requires k < |items| && AllNumbers(items[..k]) && ItemValue(items[k]).Some?
    ensures AllNumbers(items[..k + 1])
    ensures Numbers(items[..k + 1]) == Numbers(items[..k]) + {ItemValue(items[k]).value}
  {
  }

  /** An absent index is no error. */
  function ParsedIndex(value: string): Option<Option<nat>> {
    if value == "" then Some(None)
    else
      var n := Atoi(value);
      if n.Some? && n.value >= 0 then Some(Some(n.value)) else None
  }

  // ---- writing lists

  function Decimal(n: nat): string {
    if n < 10 then [('0' as int + n) as char] else Decimal(n / 10) + [('0' as int + n % 10) as char]
  }

  function Join(items: seq<string>): string {
    if items == [] then ""
    else if |items| == 1 then items[0]
    else items[0] + "," + Join(items[1..])
  }

  function Decimals(xs: seq<nat>): seq<string> {
    seq(|xs|, i requires 0 <= i < |xs| => Decimal(xs[i]))
  }

  function SetOf(xs: seq<nat>): set<nat> {
    set x | x in xs
  }

  // ---- what is written reads back

  lemma {:induction false} DecimalReadsBack(n: nat)
    ensures Decimal(n) != [] && AllDigits(Decimal(n)) && Value(Decimal(n)) == n
  {
    if n < 10 {
      var d := [('0' as int + n) as char];
      assert d[..|d| - 1] == [];
    } else {
      DecimalReadsBack(n / 10);
      var s := Decimal(n);
      assert s[..|s| - 1] == Decimal(n / 10);
    }
  }

  lemma AtoiOfDecimal(n: nat)
    ensures ItemValue(Decimal(n)) == if n <= MAX_INT then Some(n) else None
  {
    DecimalReadsBack(n);
    var s := Decimal(n);
    assert IsDigit(s[0]) && IsDigit(s[|s| - 1]);
    assert TrimSpace(s) == s;
  }

  lemma {:induction false} SplitItem(item: string, rest: string)
    requires ',' !in item
    ensures Split(item + "," + rest) == [item] + Split(rest)
  {
    var s := item + "," + rest;
    if item == [] {
      assert s[1..] == rest;
    } else {
      assert s[1..] == item[1..] + "," + rest;
      SplitItem(item[1..], rest);
      assert [item[0]] + item[1..] == item;
    }
  }

  lemma {:induction false} SplitLast(item: string)
    requires ',' !in item
    ensures Split(item) == [item]
  {
    if item != [] {
      SplitLast(item[1..]);
      assert [item[0]] + item[1..] == item;
    }
  }

  lemma {:induction false} SplitUndoesJoin(items: seq<string>)
    requires items != [] && forall item :: item in items ==> ',' !in item
    ensures Split(Join(items)) == items
  {
    if |items| == 1 {
      SplitLast(items[0]);
    } else {
      SplitItem(items[0], Join(items[1..]));
      SplitUndoesJoin(items[1..]);
      assert [items[0]] + items[1..] == items;
    }
  }

  lemma JoinIsNotEmpty(items: seq<string>)
    requires items != [] && items[0] != []
    ensures Join(items) != ""
  {
  }

  /** Writing any list of numbers in decimal and parsing it gives back the set of its numbers,
      exactly when every one of them fits an int; otherwise parsing fails. */
  lemma ListReadsBack(xs: seq<nat>)
    ensures Parsed(Join(Decimals(xs))) ==
      if forall x :: x in xs ==> x <= MAX_INT then Some(SetOf(xs)) else None
  {
    if xs == [] {
      assert Decimals(xs) == [] && SetOf(xs) == {};
    } else {
      var items := Decimals(xs);
      forall item | item in items
        ensures ',' !in item && item != []
      {
        var k :| 0 <= k < |items| && items[k] == item;
        DecimalReadsBack(xs[k]);
      }
      assert items[0] in items;
      SplitUndoesJoin(items);
      JoinIsNotEmpty(items);
      ItemsReadBack(xs);
    }
  }

  lemma ItemsReadBack(xs: seq<nat>)
    ensures AllNumbers(Decimals(xs)) <==> forall x :: x in xs ==> x <= MAX_INT
    ensures AllNumbers(Decimals(xs)) ==> Numbers(Decimals(xs)) == SetOf(xs)
  {
    var items := Decimals(xs);
    forall k | 0 <= k < |xs|
      ensures ItemValue(items[k]) == if xs[k] <= MAX_INT then Some(xs[k]) else None
    {
      AtoiOfDecimal(xs[k]);
    }
    if AllNumbers(items) {
      forall x | x in xs
        ensures x <= MAX_INT && x in Numbers(items)
      {
        var k :| 0 <= k < |xs| && xs[k] == x;
        assert ItemValue(items[k]) == Some(x);
      }
    } else {
      var k :| 0 <= k < |xs| && ItemValue(items[k]).None?;
      assert xs[k] in xs && xs[k] > MAX_INT;
    }
  }

  // ---- what is around a number

  predicate AllSpaces(s: string) {
    forall k :: 0 <= k < |s| ==> IsSpace(s[k])
  }

  lemma {:induction false} TrimLeft(left: string, s: string)
    requires AllSpaces(left)
    ensures TrimSpace(left + s) == TrimSpace(s)
  {
    if left == [] {
      assert left + s == s;
    } else {
      assert (left + s)[1..] == left[1..] + s;
      TrimLeft(left[1..], s);
    }
  }

  lemma {:induction false} TrimRight(s: string, right: string)
    requires AllSpaces(right)
    ensures TrimSpace(s + right) == TrimSpace(s)
    decreases |s| + |right|
  {
    if right == [] {
      assert s + right == s;
    } else if s == [] {
      assert s + right == right && right == right + [];
      TrimLeft(right, []);
    } else if IsSpace(s[0]) {
      assert (s + right)[1..] == s[1..] + right;
      TrimRight(s[1..], right);
    } else {
      assert (s + right)[..|s + right| - 1] == s + right[..|right| - 1];
      TrimRight(s, right[..|right| - 1]);
    }
  }

  /** Spaces around an item do not matter, and tabs and line ends are spaces too; commas are not. */
  lemma SpacesDoNotMatter(left: string, item: string, right: string)
    requires AllSpaces(left) && AllSpaces(right)
    ensures ItemValue(left + item + right) == ItemValue(item)
    ensures AllSpaces(" \t\r\n") && !IsSpace(',') && !IsSpace('0')
  {
    TrimRight(left + item, right);
    TrimLeft(left, item);
  }

  /** A number may carry a sign, but must not be negative. */
  lemma SignedDecimals(n: nat)
    requires n <= MAX_INT
    ensures Atoi("+" + Decimal(n)) == Some(n) && Atoi("-" + Decimal(n)).Some? && Atoi("-" + Decimal(n)).value + n == 0
    ensures ParsedIndex("-" + Decimal(n)) == if n == 0 then Some(Some(0)) else None
    ensures ItemValue("-" + Decimal(n)) == if n == 0 then Some(0) else None
  {
    DecimalReadsBack(n);
    var s := "-" + Decimal(n);
    assert s[1..] == Decimal(n) && ("+" + Decimal(n))[1..] == Decimal(n);
    assert IsDigit(s[|s| - 1]) && !IsSpace(s[0]) && !IsSpace(s[|s| - 1]);
    assert TrimSpace(s) == s;
  }

  /** Nothing, a sign alone, and anything with a character that is no digit are no numbers. */
  lemma OnlyNumbers(s: string)
    ensures Atoi(s).Some? ==>
      var digits := if s != [] && (s[0] == '+' || s[0] == '-') then s[1..] else s;
      digits != [] && forall k :: 0 <= k < |digits| ==> '0' <= digits[k] <= '9'
    ensures ItemValue("").None? && Atoi("+").None? && Atoi("-").None?
  {
    assert "+"[1..] == [] && "-"[1..] == [];
    assert TrimSpace("") == "";
  }
}
