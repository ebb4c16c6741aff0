/** internal/escpos/render.go: the table rows of a receipt, cut by octets and padded by runes. */
module Cells {
  import opened Basics
  import opened Utf8
  import opened CodePage858

  const RECEIPT_WIDTH := 48
  const COL_COUNT := 4
  const COL_PRODUCT := 17
  const COL_EXTRAS := 12
  const COL_PRICE := 12

  /** unicode.IsSpace. */
  predicate IsSpace(y: Sym) {
    y.Good? && var r := y.rune;
      0x09 <= r <= 0x0D || r == 0x20 || r == 0x85 || r == 0xA0 || r == 0x1680 || 0x2000 <= r <= 0x200A
      || r == 0x2028 || r == 0x2029 || r == 0x202F || r == 0x205F || r == 0x3000
  }

  /** The white space of the Unicode standard (property White_Space), rune by rune. */
  lemma SpacesAre(y: Sym)
    ensures IsSpace(y) <==> y.Good? && y.rune in {
      0x09, 0x0A, 0x0B, 0x0C, 0x0D, 0x20, 0x85, 0xA0, 0x1680, 0x2000, 0x2001, 0x2002, 0x2003, 0x2004, 0x2005, 0x2006,
      0x2007, 0x2008, 0x2009, 0x200A, 0x2028, 0x2029, 0x202F, 0x205F, 0x3000}
  {
  }

  /** strings.Fields, with the octets of the field being collected. */
  function Fields(s: seq<Byte>, field: seq<Byte>): seq<seq<Byte>> {
    if s == [] then (if field == [] then [] else [field])
    else if IsSpace(First(s)) then (if field == [] then [] else [field]) + Fields(s[Size(s)..], [])
    else Fields(s[Size(s)..], field + s[..Size(s)])
  }

  /** strings.Join with a blank. */
  function Join(fields: seq<seq<Byte>>): seq<Byte> {
    if fields == [] then [] else if |fields| == 1 then fields[0] else fields[0] + [0x20] + Join(fields[1..])
  }

  /** White space collapsed to single blanks. */
  function Squeeze(s: seq<Byte>): seq<Byte> { Join(Fields(s, [])) }

  function Cut(s: seq<Byte>, width: nat): seq<Byte> {
    if |s| > width then s[..width] else s
  }

  /** Blanks that %*s adds: it counts runes. */
  function Padding(s: seq<Byte>, width: nat): seq<Byte> {
    Repeat(0x20, if RuneCount(s) < width then width - RuneCount(s) else 0)
  }

  function Cell(s: seq<Byte>, width: nat, leftAlign: bool): seq<Byte> {
    var t := Cut(Squeeze(s), width);
    if leftAlign then t + Padding(t, width) else Padding(t, width) + t
  }

  /** Four cells with single blanks between them. */
  function Row(count: seq<Byte>, product: seq<Byte>, extras: seq<Byte>, price: seq<Byte>): seq<Byte> {
    Cell(count, COL_COUNT, false) + ([0x20] + (Cell(product, COL_PRODUCT, true) + ([0x20] +
      (Cell(extras, COL_EXTRAS, true) + ([0x20] + Cell(price, COL_PRICE, false))))))
  }

  // ----- a row has 48 runes -----

  function CellSyms(s: seq<Byte>, width: nat, leftAlign: bool): seq<Sym> {
    var t := Cut(Squeeze(s), width);
    var pad := Repeat(Good(0x20), |Padding(t, width)|);
    if leftAlign then Decode(t) + pad else pad + Decode(t)
  }

  lemma DecodeCell(s: seq<Byte>, width: nat, leftAlign: bool)
    ensures Decode(Cell(s, width, leftAlign)) == CellSyms(s, width, leftAlign)
    ensures |Decode(Cell(s, width, leftAlign))| == width
  {
    hide Squeeze, Size, First;
    var t := Cut(Squeeze(s), width);
    var pad := Padding(t, width);
    DecodeSpaces(|pad|, t);
    DecodeSpaces(|pad|, []);
    assert pad + [] == pad;
    DecodeConcat(t, pad);
  }

  function RowSyms(count: seq<Byte>, product: seq<Byte>, extras: seq<Byte>, price: seq<Byte>): seq<Sym> {
    CellSyms(count, COL_COUNT, false) + ([Good(0x20)] + (CellSyms(product, COL_PRODUCT, true) + ([Good(0x20)] +
      (CellSyms(extras, COL_EXTRAS, true) + ([Good(0x20)] + CellSyms(price, COL_PRICE, false))))))
  }

  lemma DecodeGap(a: seq<Byte>, b: seq<Byte>)
    ensures Decode(a + ([0x20] + b)) == Decode(a) + ([Good(0x20)] + Decode(b))
  {
    DecodeConcat(a, [0x20] + b);
    assert ([0x20] + b)[1..] == b;
  }

  lemma DecodeRow(count: seq<Byte>, product: seq<Byte>, extras: seq<Byte>, price: seq<Byte>)
    ensures Decode(Row(count, product, extras, price)) == RowSyms(count, product, extras, price)
    ensures |Decode(Row(count, product, extras, price))| == RECEIPT_WIDTH
  {
    hide Cell, CellSyms, Decode;
    var c4 := Cell(price, COL_PRICE, false);
    var c3 := Cell(extras, COL_EXTRAS, true);
    var c2 := Cell(product, COL_PRODUCT, true);
    var c1 := Cell(count, COL_COUNT, false);
    DecodeGap(c3, c4);
    DecodeGap(c2, c3 + ([0x20] + c4));
    DecodeGap(c1, c2 + ([0x20] + (c3 + ([0x20] + c4))));
    DecodeCell(count, COL_COUNT, false);
    DecodeCell(product, COL_PRODUCT, true);
    DecodeCell(extras, COL_EXTRAS, true);
    DecodeCell(price, COL_PRICE, false);
  }

  /** The symbols of the first `width` octets of a text whose white space has been collapsed. */
  function Kept(s: seq<Byte>, width: nat): seq<Sym> {
    var u := Squeeze(s);
    Decode(if |u| > width then u[..width] else u)
  }

  function Blanks(n: int): seq<Sym> { Repeat(Good(0x20), if n < 0 then 0 else n) }

  function OnTheLeft(s: seq<Byte>, width: nat): seq<Sym> { Kept(s, width) + Blanks(width - |Kept(s, width)|) }

  function OnTheRight(s: seq<Byte>, width: nat): seq<Sym> { Blanks(width - |Kept(s, width)|) + Kept(s, width) }

  lemma CellIs(s: seq<Byte>, width: nat)
    ensures CellSyms(s, width, true) == OnTheLeft(s, width) && CellSyms(s, width, false) == OnTheRight(s, width)
  {
    hide Decode, Squeeze;
  }

  /**
   * The columns: four symbols with the count to the right, seventeen with the product to the left, twelve with the
   * extras to the left, twelve with the price to the right, and one blank between any two.
   */
  lemma RowColumns(count: seq<Byte>, product: seq<Byte>, extras: seq<Byte>, price: seq<Byte>)
    ensures |Decode(Row(count, product, extras, price))| == 48
    ensures Decode(Row(count, product, extras, price)) ==
      OnTheRight(count, 4) + ([Good(0x20)] + (OnTheLeft(product, 17) + ([Good(0x20)] + (
        OnTheLeft(extras, 12) + ([Good(0x20)] + OnTheRight(price, 12))))))
  {
    hide Row, Decode, OnTheLeft, OnTheRight, CellSyms;
    DecodeRow(count, product, extras, price);
    CellIs(count, 4);
    CellIs(product, 17);
    CellIs(extras, 12);
    CellIs(price, 12);
  }

  // ----- no line feed inside a row -----

  predicate NoFeed(s: seq<Byte>) { 0x0A !in s }

  lemma {:induction false} FieldsHaveNoFeed(s: seq<Byte>, field: seq<Byte>)
    requires NoFeed(field)
    ensures forall i :: 0 <= i < |Fields(s, field)| ==> NoFeed(Fields(s, field)[i])
  {
    if s != [] {
      var n := Size(s);
      if IsSpace(First(s)) {
        FieldsHaveNoFeed(s[n..], []);
      } else {
        assert NoFeed(s[..n]) by { TokenHasNoFeed(s); }
        FieldsHaveNoFeed(s[n..], field + s[..n]);
      }
    }
  }

  lemma TokenHasNoFeed(s: seq<Byte>)
    requires s != [] && !IsSpace(First(s))
    ensures NoFeed(s[..Size(s)])
  {
    if s[0] >= 0x80 && Complete(s) {
      assert forall i :: 1 <= i < Size(s) ==> s[i] >= 0x80;
    }
  }

  lemma {:induction false} JoinHasNoFeed(fields: seq<seq<Byte>>)
    requires forall i :: 0 <= i < |fields| ==> NoFeed(fields[i])
    ensures NoFeed(Join(fields))
  {
    if |fields| > 1 {
      assert NoFeed(fields[0]);
      JoinHasNoFeed(fields[1..]);
    }
  }

  lemma CellHasNoFeed(s: seq<Byte>, width: nat, leftAlign: bool)
    ensures NoFeed(Cell(s, width, leftAlign))
  {
    hide Fields, Join, Decode;
    FieldsHaveNoFeed(s, []);
    JoinHasNoFeed(Fields(s, []));
  }

  lemma RowHasNoFeed(count: seq<Byte>, product: seq<Byte>, extras: seq<Byte>, price: seq<Byte>)
    ensures NoFeed(Row(count, product, extras, price))
  {
    hide Cell;
    CellHasNoFeed(count, COL_COUNT, false);
    CellHasNoFeed(product, COL_PRODUCT, true);
    CellHasNoFeed(extras, COL_EXTRAS, true);
    CellHasNoFeed(price, COL_PRICE, false);
  }

  /** Encoding makes a line feed only of a line feed. */
  lemma {:induction false} EncodeKeepsFeeds(s: seq<Byte>)
    requires NoFeed(s)
    ensures Encode(s).Some? ==> NoFeed(Encode(s).value)
  {
    hide Code;
    if s != [] && EncodableSym(First(s)) {
      EncodeKeepsFeeds(s[Size(s)..]);
      ShownCode(First(s).rune);
      assert First(s).rune != 0x0A;
    }
  }

  lemma {:induction false} ToValidKeepsFeeds(s: seq<Byte>, invalid: bool)
    requires NoFeed(s)
    ensures NoFeed(ToValid(s, invalid))
  {
    if s != [] {
      if Complete(s) {
        ToValidKeepsFeeds(s[Size(s)..], false);
      } else {
        ToValidKeepsFeeds(s[1..], true);
      }
    }
  }

  lemma Encode858KeepsFeeds(s: seq<Byte>)
    requires NoFeed(s)
    ensures NoFeed(Encode858(s))
  {
    EncodeKeepsFeeds(s);
    ToValidKeepsFeeds(s, false);
    EncodeKeepsFeeds(ToValid(s, false));
  }

  // ----- the width of a printed row -----

  /** The bytes of line(s). */
  function Line(s: seq<Byte>): seq<Byte> { Encode858(s) + [0x0A] }

  /** The code page has every rune that is left in the row, and no cell was cut so as to leave two invalid octets. */
  predicate PrintsFull(row: seq<Byte>) {
    GoodOnesEncodable(Decode(row)) && NoBadPair(Decode(row))
  }

  /**
   * Whatever the texts are, a row is one printed line of at most 48 octets. It is 48 wide if and only if PrintsFull;
   * a rune the code page lacks makes the whole row blank.
   */
  lemma RowWidth(count: seq<Byte>, product: seq<Byte>, extras: seq<Byte>, price: seq<Byte>)
    ensures var row := Row(count, product, extras, price);
      && |Encode858(row)| <= RECEIPT_WIDTH
      && (|Encode858(row)| == RECEIPT_WIDTH <==> PrintsFull(row))
      && (!GoodOnesEncodable(Decode(row)) ==> Line(row) == [0x0A])
      && (forall i :: 0 <= i < |Line(row)| ==> (Line(row)[i] == 0x0A <==> i == |Line(row)| - 1))
  {
    hide Row, Encode858, Decode;
    var row := Row(count, product, extras, price);
    DecodeRow(count, product, extras, price);
    EncodedLength(row);
    RowHasNoFeed(count, product, extras, price);
    Encode858KeepsFeeds(row);
  }

  // ----- where a cut leaves invalid octets -----

  /** How many octets of a rune stay in front of a cut at `width` that goes through it. */
  function Overhang(s: seq<Byte>, width: nat): nat {
    if s == [] || width == 0 then 0
    else if Size(s) <= width then Overhang(s[Size(s)..], width - Size(s))
    else width
  }

  lemma CutStep(s: seq<Byte>, width: nat)
    requires s != [] && Complete(s) && Size(s) <= width <= |s|
    ensures Decode(s[..width]) == [First(s)] + Decode(s[Size(s)..][..width - Size(s)])
  {
    hide Decode;
    var n, t := Size(s), s[..width];
    assert Complete(t) && Size(t) == n && First(t) == First(s);
    assert t[n..] == s[n..][..width - n];
    DecodeStep(t);
  }

  /** A cut valid text decodes to some of its runes and then one invalid octet per octet left of the cut rune. */
  lemma {:induction false} CutDecodes(s: seq<Byte>, width: nat) returns (k: nat)
    requires Valid(s) && |s| >= width
    ensures k <= |Decode(s)| && Overhang(s, width) <= 3
    ensures |Decode(s[..width])| == k + Overhang(s, width)
    ensures forall i :: 0 <= i < k ==> Decode(s[..width])[i] == Decode(s)[i]
    ensures forall i :: k <= i < |Decode(s[..width])| ==> Decode(s[..width])[i].Bad?
  {
    k := 0;
    if s != [] && width > 0 {
      hide Complete, First;
      var n := Size(s);
      DecodeStep(s);
      assert Decode(s)[0].Good?;
      assert Complete(s) by { GoodIsComplete(s); }
      if n <= width {
        TailValid(s);
        var k' := CutDecodes(s[n..], width - n);
        CutStep(s, width);
        k := k' + 1;
      } else {
        StrandedOctets(s, width);
      }
    }
  }

  lemma GoodIsComplete(s: seq<Byte>)
    requires s != [] && First(s).Good?
    ensures Complete(s)
  {
  }

  lemma TailValid(s: seq<Byte>)
    requires s != [] && Valid(s)
    ensures Valid(s[Size(s)..])
  {
    forall i | 0 <= i < |Decode(s[Size(s)..])|
      ensures Decode(s[Size(s)..])[i].Good?
    {
      assert Decode(s)[i + 1] == Decode(s[Size(s)..])[i];
    }
  }

  lemma {:induction false} StrayOctets(s: seq<Byte>)
    requires forall i :: 0 <= i < |s| ==> Cont(s[i])
    ensures |Decode(s)| == |s| && forall i :: 0 <= i < |s| ==> Decode(s)[i].Bad?
  {
    if s != [] {
      assert Cont(s[0]);
      StrayOctets(s[1..]);
      DecodeStep(s);
    }
  }

  lemma StrandedOctets(s: seq<Byte>, width: nat)
    requires s != [] && Complete(s) && 0 < width < Size(s)
    ensures |Decode(s[..width])| == width && forall i :: 0 <= i < width ==> Decode(s[..width])[i].Bad?
  {
    hide Decode;
    var t := s[..width];
    assert !Complete(t);
    DecodeStep(t);
    StrayOctets(t[1..]);
  }

  /** A text that reaches the cell valid and printable, whatever white space it had. */
  predicate Proper(s: seq<Byte>) { Encodable(Squeeze(s)) }

  /** The cut leaves at most one octet of a rune. */
  predicate CutsCleanly(s: seq<Byte>, width: nat) { Overhang(Squeeze(s), width) <= 1 || |Squeeze(s)| <= width }

  lemma {:induction false} OverhangOfWhole(s: seq<Byte>, width: nat)
    requires |s| <= width
    ensures Overhang(s, width) == 0
  {
    if s != [] {
      OverhangOfWhole(s[Size(s)..], width - Size(s));
    }
  }

  lemma CellBads(s: seq<Byte>, width: nat, leftAlign: bool)
    requires Proper(s)
    ensures GoodOnesEncodable(CellSyms(s, width, leftAlign))
    ensures NoBadPair(CellSyms(s, width, leftAlign)) <==> CutsCleanly(s, width)
  {
    hide Squeeze, Code, Size, First;
    var u := Squeeze(s);
    var t := Cut(u, width);
    var ys, pad := Decode(t), Repeat(Good(0x20), |Padding(t, width)|);
    assert EncodableSym(Good(0x20)) by { BlankEncodable(); }
    assert Valid(u) by { assert forall i :: 0 <= i < |Decode(u)| ==> EncodableSym(Decode(u)[i]); }
    if |u| > width {
      var k := CutDecodes(u, width);
      if Overhang(u, width) > 1 {
        assert ys[k].Bad? && ys[k + 1].Bad?;
        PairInside(ys, pad, k, leftAlign);
      }
    }
  }

  lemma PairInside(ys: seq<Sym>, pad: seq<Sym>, k: nat, leftAlign: bool)
    requires k + 1 < |ys| && ys[k].Bad? && ys[k + 1].Bad?
    ensures !NoBadPair(if leftAlign then ys + pad else pad + ys)
  {
    var all := if leftAlign then ys + pad else pad + ys;
    var at := if leftAlign then k else |pad| + k;
    assert all[at].Bad? && all[at + 1].Bad?;
  }

  lemma BlankEncodable()
    ensures EncodableSym(Good(0x20))
  {
  }

  lemma PairsAcross(a: seq<Sym>, b: seq<Sym>)
    ensures NoBadPair(a + ([Good(0x20)] + b)) <==> NoBadPair(a) && NoBadPair(b)
    ensures GoodOnesEncodable(a + ([Good(0x20)] + b)) <==> GoodOnesEncodable(a) && GoodOnesEncodable(b)
  {
    hide EncodableSym;
    var c := a + ([Good(0x20)] + b);
    assert EncodableSym(Good(0x20)) by { BlankEncodable(); }
    assert forall i :: 0 <= i < |a| ==> c[i] == a[i];
    assert forall i :: 0 <= i < |b| ==> c[|a| + 1 + i] == b[i];
    if NoBadPair(c) {
      forall i | 0 <= i < |a| - 1 ensures a[i].Good? || a[i + 1].Good? { assert c[i].Good? || c[i + 1].Good?; }
      forall i | 0 <= i < |b| - 1 ensures b[i].Good? || b[i + 1].Good? { assert c[|a| + 1 + i].Good? || c[|a| + 1 + i + 1].Good?; }
    }
    if NoBadPair(a) && NoBadPair(b) {
      forall i | 0 <= i < |c| - 1 ensures c[i].Good? || c[i + 1].Good? {
        if i < |a| - 1 { assert a[i].Good? || a[i + 1].Good?; }
        if i > |a| { assert b[i - |a| - 1].Good? || b[i - |a| - 1 + 1].Good?; }
      }
    }
    if GoodOnesEncodable(c) {
      forall i | 0 <= i < |b| && b[i].Good? ensures EncodableSym(b[i]) { assert c[|a| + 1 + i] == b[i]; }
    }
    if GoodOnesEncodable(a) && GoodOnesEncodable(b) {
      forall i | 0 <= i < |c| && c[i].Good? ensures EncodableSym(c[i]) { if i > |a| { assert c[i] == b[i - |a| - 1]; } }
    }
  }

  // ----- any texts -----

  /** What is left of a text after the cut prints with an octet for each rune or stray octet. */
  predicate CellPrints(s: seq<Byte>, width: nat) {
    var ys := Decode(Cut(Squeeze(s), width));
    GoodOnesEncodable(ys) && NoBadPair(ys)
  }

  predicate CellHasRunes(s: seq<Byte>, width: nat) { GoodOnesEncodable(Decode(Cut(Squeeze(s), width))) }

  lemma {:induction false} BlanksNeutral(n: nat, ys: seq<Sym>)
    ensures var pad := Repeat(Good(0x20), n);
      && (GoodOnesEncodable(pad + ys) <==> GoodOnesEncodable(ys)) && (NoBadPair(pad + ys) <==> NoBadPair(ys))
      && (GoodOnesEncodable(ys + pad) <==> GoodOnesEncodable(ys)) && (NoBadPair(ys + pad) <==> NoBadPair(ys))
  {
    hide GoodOnesEncodable, NoBadPair, EncodableSym;
    var pad := Repeat(Good(0x20), n);
    if n == 0 {
      assert pad + ys == ys && ys + pad == ys;
    } else {
      var less, blank := Repeat(Good(0x20), n - 1), [Good(0x20)];
      BlanksNeutral(n - 1, ys);
      NothingBad();
      PairsAcross([], less + ys);
      PairsAcross(ys + less, []);
      assert pad + ys == [] + (blank + (less + ys));
      assert ys + pad == (ys + less) + (blank + []);
    }
  }

  lemma NothingBad()
    ensures GoodOnesEncodable([]) && NoBadPair([])
  {
  }

  lemma CellPadded(s: seq<Byte>, width: nat, leftAlign: bool)
    ensures GoodOnesEncodable(CellSyms(s, width, leftAlign)) <==> CellHasRunes(s, width)
    ensures GoodOnesEncodable(CellSyms(s, width, leftAlign)) && NoBadPair(CellSyms(s, width, leftAlign)) <==> CellPrints(s, width)
  {
    hide GoodOnesEncodable, NoBadPair, Squeeze, Decode, Cut;
    var t := Cut(Squeeze(s), width);
    BlanksNeutral(|Padding(t, width)|, Decode(t));
  }

  /**
   * Whatever the texts are, a row is 48 wide if and only if each cell prints what its cut leaves. When the code page
   * lacks a rune that the cut of some cell leaves, the whole row is blank; one that is cut off does no harm.
   */
  lemma RowOfTexts(count: seq<Byte>, product: seq<Byte>, extras: seq<Byte>, price: seq<Byte>)
    ensures |Encode858(Row(count, product, extras, price))| == RECEIPT_WIDTH <==>
      CellPrints(count, COL_COUNT) && CellPrints(product, COL_PRODUCT) && CellPrints(extras, COL_EXTRAS) && CellPrints(price, COL_PRICE)
    ensures !(CellHasRunes(count, COL_COUNT) && CellHasRunes(product, COL_PRODUCT)
              && CellHasRunes(extras, COL_EXTRAS) && CellHasRunes(price, COL_PRICE))
         ==> Line(Row(count, product, extras, price)) == [0x0A]
  {
    hide Row, Encode858, CellSyms, CellPrints, CellHasRunes, NoBadPair, GoodOnesEncodable, Decode, Line;
    var y1, y2 := CellSyms(count, COL_COUNT, false), CellSyms(product, COL_PRODUCT, true);
    var y3, y4 := CellSyms(extras, COL_EXTRAS, true), CellSyms(price, COL_PRICE, false);
    RowWidth(count, product, extras, price);
    DecodeRow(count, product, extras, price);
    CellPadded(count, COL_COUNT, false);
    CellPadded(product, COL_PRODUCT, true);
    CellPadded(extras, COL_EXTRAS, true);
    CellPadded(price, COL_PRICE, false);
    PairsAcross(y3, y4);
    PairsAcross(y2, y3 + ([Good(0x20)] + y4));
    PairsAcross(y1, y2 + ([Good(0x20)] + (y3 + ([Good(0x20)] + y4))));
  }

  /** For printable texts a cell prints what its cut leaves exactly when the cut is clean. */
  lemma ProperCellPrints(s: seq<Byte>, width: nat)
    requires Proper(s)
    ensures CellPrints(s, width) <==> CutsCleanly(s, width)
  {
    hide Proper, CutsCleanly, CellPrints, CellHasRunes, CellSyms, GoodOnesEncodable, NoBadPair;
    CellBads(s, width, true);
    CellPadded(s, width, true);
  }

  /** In terms of the caller's texts: a row of printable texts is 48 wide exactly when no cut strands two octets or more. */
  lemma RowOfProperTexts(count: seq<Byte>, product: seq<Byte>, extras: seq<Byte>, price: seq<Byte>)
    requires Proper(count) && Proper(product) && Proper(extras) && Proper(price)
    ensures |Encode858(Row(count, product, extras, price))| == RECEIPT_WIDTH <==>
      CutsCleanly(count, COL_COUNT) && CutsCleanly(product, COL_PRODUCT) && CutsCleanly(extras, COL_EXTRAS) && CutsCleanly(price, COL_PRICE)
  {
    hide Row, Encode858, Proper, CutsCleanly, CellPrints, CellHasRunes, Line;
    RowOfTexts(count, product, extras, price);
    ProperCellPrints(count, COL_COUNT);
    ProperCellPrints(product, COL_PRODUCT);
    ProperCellPrints(extras, COL_EXTRAS);
    ProperCellPrints(price, COL_PRICE);
  }
}
