/** internal/escpos/render.go: item prices and the total, over exact reals, and the text "%.2f" prints for them. */
module Money {
  import opened Basics
  import Decimal

  /** int(x): truncation towards zero. */
  function Trunc(x: real): int {
    if x < 0.0 then -((-x).Floor) else x.Floor
  }

  /** Rounding to the nearest integer, ties to the even one. */
  function RoundHalfEven(x: real): int {
    var f := x.Floor;
    var d := x - f as real;
    if d < 0.5 || (d == 0.5 && f % 2 == 0) then f else f + 1
  }

  function Abs(x: real): real { if x < 0.0 then -x else x }

  /** Whole cents of the printed amount, without its sign. */
  function CentsAbs(x: real): nat {
    RoundHalfEven(Abs(x) * 100.0)
  }

  /** The amount that "%.2f" shows, in cents. */
  function Cents(x: real): int {
    if x < 0.0 then -(CentsAbs(x) as int) else CentsAbs(x) as int
  }

  /** fmt.Sprintf("%.2f", x). */
  function Fixed2(x: real): string {
    var c := CentsAbs(x);
    (if x < 0.0 then "-" else "")
    + Decimal.PrintNat(c / 100) + "." + [Decimal.DigitChar(c / 10 % 10), Decimal.DigitChar(c % 10)]
  }

  /** Reads such a text back, in cents. */
  function ReadCents(s: string): int
  {
    if |s| < 3 then 0
    else
      var whole := s[..|s| - 3];
      var cents := Decimal.Parse([s[|s| - 2], s[|s| - 1]]);
      if whole != [] && whole[0] == '-' then Decimal.Parse(whole[1..]) * -100 - cents
      else Decimal.Parse(whole) * 100 + cents
  }

  lemma TwoDigits(a: nat, b: nat)
    requires a < 10 && b < 10
    ensures Decimal.Parse([Decimal.DigitChar(a), Decimal.DigitChar(b)]) == a * 10 + b
  {
    var s := [Decimal.DigitChar(a), Decimal.DigitChar(b)];
    assert s[..1] == [Decimal.DigitChar(a)] && s[..1][..0] == [];
    assert Decimal.ParseNat(s[..1]) == a;
  }

  lemma LastTwoDigits(c: nat)
    ensures c / 100 * 100 + (c / 10 % 10 * 10 + c % 10) == c
  {
    assert c / 10 / 10 == c / 100;
  }

  /** The printed text says exactly how many cents were printed. */
  lemma ReadFixed2(x: real)
    ensures ReadCents(Fixed2(x)) == Cents(x)
  {
    hide CentsAbs, Decimal.Parse, Decimal.PrintNat;
    var c := CentsAbs(x);
    var digits := Decimal.PrintNat(c / 100);
    var s := Fixed2(x);
    var sign := if x < 0.0 then "-" else "";
    var tail := [Decimal.DigitChar(c / 10 % 10), Decimal.DigitChar(c % 10)];
    assert s == (sign + digits) + "." + tail;
    assert s[..|s| - 3] == sign + digits;
    assert [s[|s| - 2], s[|s| - 1]] == tail;
    TwoDigits(c / 10 % 10, c % 10);
    Decimal.ParsePrint(c / 100);
    assert Decimal.Print(c / 100) == digits;
    assert (sign + digits)[|sign|..] == digits;
    assert Decimal.IsDigit(digits[0]);
    LastTwoDigits(c);
  }

  /** A minus sign exactly for amounts below zero, at least one digit, a point and two digits. */
  lemma Fixed2Shape(x: real)
    ensures var s, n := Fixed2(x), if x < 0.0 then 1 else 0;
      && |s| >= n + 4 && s[|s| - 3] == '.' && (x < 0.0 ==> s[0] == '-')
      && forall i :: n <= i < |s| && i != |s| - 3 ==> '0' <= s[i] <= '9'
  {
    hide CentsAbs;
    var c := CentsAbs(x);
    assert |Decimal.PrintNat(c / 100)| >= 1;
    hide Decimal.PrintNat;
  }

  /** A printed amount is within half a cent. */
  lemma CentsClose(x: real)
    ensures -0.5 <= Cents(x) as real - x * 100.0 <= 0.5
  {
  }

  // ----- a receipt -----

  /** An element of receipt["items"] that is a map, or one that is not and is skipped. */
  datatype Item = Skipped | Item(name: seq<Byte>, quantity: real, unitPrice: real, extras: seq<Option<seq<Byte>>>)

  function ItemTotal(it: Item): real
    requires it.Item?
  {
    Trunc(it.quantity) as real * it.unitPrice
  }

  /** Exact sum over the items that get a block. */
  function Sum(items: seq<Item>): real {
    if items == [] then 0.0 else (if items[0].Item? then ItemTotal(items[0]) else 0.0) + Sum(items[1..])
  }

  function Printed(items: seq<Item>): nat {
    if items == [] then 0 else (if items[0].Item? then 1 else 0) + Printed(items[1..])
  }

  /** Sum of the printed line prices, in cents. */
  function PrintedCents(items: seq<Item>): int {
    if items == [] then 0 else (if items[0].Item? then Cents(ItemTotal(items[0])) else 0) + PrintedCents(items[1..])
  }

  lemma {:induction false} SumAppend(a: seq<Item>, it: Item)
    ensures Sum(a + [it]) == Sum(a) + if it.Item? then ItemTotal(it) else 0.0
  {
    if a == [] {
      assert [] + [it] == [it] && [it][1..] == [];
    } else {
      assert (a + [it])[1..] == a[1..] + [it] && (a + [it])[0] == a[0];
      SumAppend(a[1..], it);
    }
  }

  // ----- quantities -----

  /** The whole number next to q, towards zero. */
  predicate IsWholePart(n: int, q: real) {
    if q >= 0.0 then n as real <= q < n as real + 1.0 else n as real - 1.0 < q <= n as real
  }

  lemma WholePartIs(q: real)
    ensures IsWholePart(Trunc(q), q)
    ensures forall n: int :: IsWholePart(n, q) ==> n == Trunc(q)
  {
    forall n: int | IsWholePart(n, q)
      ensures n == Trunc(q)
    {
      assert n < Trunc(q) ==> n as real <= Trunc(q) as real - 1.0;
      assert n > Trunc(q) ==> n as real >= Trunc(q) as real + 1.0;
    }
  }

  /**
   * Nothing costs nothing; one more costs the unit price more; a fraction of a unit is not charged; taking back costs
   * minus as much.
   */
  lemma QuantityLaws(it: Item, n: nat, q: real)
    requires it.Item?
    ensures ItemTotal(it.(quantity := 0.0)) == 0.0
    ensures ItemTotal(it.(quantity := (n + 1) as real)) == ItemTotal(it.(quantity := n as real)) + it.unitPrice
    ensures n as real <= q < (n + 1) as real ==> ItemTotal(it.(quantity := q)) == ItemTotal(it.(quantity := n as real))
    ensures ItemTotal(it.(quantity := -q)) == -ItemTotal(it.(quantity := q))
  {
    WholePartIs(n as real);
    WholePartIs((n + 1) as real);
    WholePartIs(q);
    assert IsWholePart(n, n as real) && IsWholePart(n + 1, (n + 1) as real);
    assert Trunc(n as real) == n && Trunc((n + 1) as real) == n + 1 && Trunc(0.0) == 0;
    assert n as real <= q < (n + 1) as real ==> IsWholePart(n, q);
    assert Trunc(-q) == -Trunc(q);
    OneMore(n as real, it.unitPrice);
  }

  lemma OneMore(n: real, p: real)
    ensures (n + 1.0) * p == n * p + p
  {
  }

  /** The items charged with these counts. */
  predicate Counts(items: seq<Item>, counts: seq<int>) {
    |counts| == |items| && forall i :: 0 <= i < |items| && items[i].Item? ==> IsWholePart(counts[i], items[i].quantity)
  }

  /** Counts times unit prices, over the items that are maps. */
  function Bill(items: seq<Item>, counts: seq<int>): real
    requires |counts| == |items|
  {
    if items == [] then 0.0
    else (if items[0].Item? then counts[0] as real * items[0].unitPrice else 0.0) + Bill(items[1..], counts[1..])
  }

  lemma {:induction false} SumIsBill(items: seq<Item>, counts: seq<int>)
    requires Counts(items, counts)
    ensures Sum(items) == Bill(items, counts)
  {
    hide Trunc, IsWholePart;
    if items != [] {
      if items[0].Item? {
        WholePartIs(items[0].quantity);
      }
      SumIsBill(items[1..], counts[1..]);
    }
  }

  // ----- prices and total -----

  /** What rounding an item's price to cents adds to it, in cents. */
  function Rounding(it: Item): real
    requires it.Item?
  {
    Cents(ItemTotal(it)) as real - ItemTotal(it) * 100.0
  }

  /** What it adds to all the printed prices together. */
  function Drift(items: seq<Item>): real {
    if items == [] then 0.0 else (if items[0].Item? then Rounding(items[0]) else 0.0) + Drift(items[1..])
  }

  lemma {:induction false} DriftIs(items: seq<Item>)
    ensures Drift(items) == PrintedCents(items) as real - Sum(items) * 100.0
    ensures -(Printed(items) as real) * 0.5 <= Drift(items) <= Printed(items) as real * 0.5
  {
    hide ItemTotal, Cents;
    if items != [] {
      DriftIs(items[1..]);
      if items[0].Item? {
        CentsClose(ItemTotal(items[0]));
      }
    }
  }

  /** Cents(x) is the whole number n exactly when x is less than half a cent away, or half a cent and n is even. */
  lemma CentsExactly(x: real, n: int)
    ensures Cents(x) == n <==>
      var e := n as real - x * 100.0; -0.5 < e < 0.5 || ((e == 0.5 || e == -0.5) && n % 2 == 0)
  {
    RoundExactly(Abs(x) * 100.0, if x < 0.0 then -n else n);
  }

  lemma RoundExactly(y: real, n: int)
    requires y >= 0.0
    ensures RoundHalfEven(y) == n <==>
      var e := n as real - y; -0.5 < e < 0.5 || ((e == 0.5 || e == -0.5) && n % 2 == 0)
  {
    var f := y.Floor;
    assert n < f ==> n as real <= f as real - 1.0;
    assert n > f + 1 ==> n as real >= f as real + 2.0;
  }

  /**
   * The printed total is the sum of the printed prices if and only if the roundings of the prices add up to less than
   * half a cent, or to half a cent while the sum is even.
   */
  lemma TotalAgrees(items: seq<Item>)
    ensures Cents(Sum(items)) == PrintedCents(items) <==>
      var e := Drift(items); -0.5 < e < 0.5 || ((e == 0.5 || e == -0.5) && PrintedCents(items) % 2 == 0)
  {
    hide Cents, Sum, PrintedCents, Drift;
    DriftIs(items);
    CentsExactly(Sum(items), PrintedCents(items));
  }

  predicate WholeCents(x: real) { (x * 100.0).Floor as real == x * 100.0 }

  lemma {:induction false} WholePrices(items: seq<Item>)
    requires forall i :: 0 <= i < |items| && items[i].Item? ==> WholeCents(items[i].unitPrice)
    ensures Drift(items) == 0.0
  {
    hide Cents, WholeCents, ItemTotal;
    if items != [] {
      WholePrices(items[1..]);
      if items[0].Item? {
        assert WholeCents(items[0].unitPrice);
        WholeProduct(items[0]);
        WholeRounds(ItemTotal(items[0]));
      }
    }
  }

  lemma WholeProduct(it: Item)
    requires it.Item? && WholeCents(it.unitPrice)
    ensures WholeCents(ItemTotal(it))
  {
    var n, c := Trunc(it.quantity), (it.unitPrice * 100.0).Floor;
    Reassociate(n as real, it.unitPrice, 100.0);
    WholeNumbers(n, c);
    assert ItemTotal(it) * 100.0 == (n * c) as real;
  }

  lemma Reassociate(a: real, b: real, c: real)
    ensures (a * b) * c == a * (b * c)
  {
  }

  lemma WholeNumbers(n: int, c: int)
    ensures n as real * c as real == (n * c) as real
  {
  }

  lemma WholeRounds(x: real)
    requires WholeCents(x)
    ensures Cents(x) as real == x * 100.0
  {
    CentsExactly(x, (x * 100.0).Floor);
  }

  /** With unit prices in whole cents the total always agrees with the prices. */
  lemma WholePricesAgree(items: seq<Item>)
    requires forall i :: 0 <= i < |items| && items[i].Item? ==> WholeCents(items[i].unitPrice)
    ensures Cents(Sum(items)) == PrintedCents(items)
  {
    hide Cents, Sum, PrintedCents, Drift;
    WholePrices(items);
    TotalAgrees(items);
  }

  /** The printed total differs from the sum of the n printed prices by at most (n + 1) half cents. */
  lemma TotalClose(items: seq<Item>)
    ensures var d := Cents(Sum(items)) - PrintedCents(items); -(Printed(items) + 1) <= 2 * d <= Printed(items) + 1
  {
    hide Cents, Sum;
    DriftIs(items);
    CentsClose(Sum(items));
    var d := Cents(Sum(items)) - PrintedCents(items);
    var n := Printed(items);
    assert -(n as real + 1.0) * 0.5 <= d as real <= (n as real + 1.0) * 0.5;
    assert -((n + 1) as real) <= (2 * d) as real <= (n + 1) as real;
  }

  /** They do differ: three items of 1.004 are printed as 1.00 each, and their total as 3.01. */
  lemma TotalCanDiffer(name: seq<Byte>)
    ensures var it := Item(name, 1.0, 1.004, []); Cents(Sum([it, it, it])) == PrintedCents([it, it, it]) + 1
  {
    hide Trunc, Cents;
    var it := Item(name, 1.0, 1.004, []);
    assert ItemTotal(it) == 1.004 by { TruncOne(); }
    var two, items := [it, it], [it, it, it];
    assert [it][1..] == [] && two[1..] == [it] && items[1..] == two;
    assert Sum([it]) == 1.004;
    assert Sum(two) == 2.008;
    assert Sum(items) == 3.012;
    SomeCents();
    assert PrintedCents([it]) == 100;
    assert PrintedCents(two) == 200;
    assert PrintedCents(items) == 300;
  }

  lemma TruncOne()
    ensures Trunc(1.0) == 1
  {
  }

  lemma SomeCents()
    ensures Cents(1.004) == 100 && Cents(3.012) == 301
  {
  }
}
