/** The rows of a receipt's items: exactly when they are 48 columns wide. */
module ItemRows {
  import opened Basics
  import opened Utf8
  import opened CodePage858
  import opened Cells
  import opened Money
  import opened Receipts

  /** Printable ASCII other than the blank. */
  predicate Dark(s: seq<Byte>) {
    forall i :: 0 <= i < |s| ==> 0x20 < s[i] < 0x7F
  }

  lemma {:induction false} FieldsOfDark(s: seq<Byte>, rest: seq<Byte>, field: seq<Byte>)
    requires Dark(s)
    ensures Fields(s + rest, field) == Fields(rest, field + s)
  {
    if s == [] {
      assert s + rest == rest && field + s == field;
    } else {
      var t := s + rest;
      assert Size(t) == 1 && First(t) == Good(s[0]);
      assert t[1..] == s[1..] + rest && t[..1] == [s[0]];
      FieldsOfDark(s[1..], rest, field + [s[0]]);
      assert field + [s[0]] + s[1..] == field + s;
    }
  }

  /** Any number of blanks between two words counts as one, and blanks around them count for nothing. */
  lemma SqueezeWords(m: nat, a: seq<Byte>, n: nat, b: seq<Byte>, k: nat)
    requires Dark(a) && Dark(b) && a != [] && b != [] && n > 0
    ensures Squeeze(Repeat(0x20, m) + (a + (Repeat(0x20, n) + (b + Repeat(0x20, k))))) == a + [0x20] + b
  {
    hide Size, First, Complete, Fields;
    var last := b + Repeat(0x20, k);
    var middle := Repeat(0x20, n) + last;
    BlankFields(m, a + middle, []);
    FieldsOfDark(a, middle, []);
    BlankFields(n, last, a);
    FieldsOfDark(b, Repeat(0x20, k), []);
    assert Repeat(0x20, k) == Repeat(0x20, k) + [] && [] + a == a && [] + b == b;
    BlankFields(k, [], b);
    NoFields(b);
    var fields := [a, b];
    assert fields[1..] == [b] && [a] + [b] == fields && [b] + [] == [b];
    BlanksAfter(k, b);
    assert Fields(middle, a) == fields;
    var text := Repeat(0x20, m) + (a + middle);
    assert Fields(text, []) == fields by { assert [] + fields == fields; }
    assert Join([b]) == b && Join(fields) == a + [0x20] + b;
  }

  lemma BlanksAfter(k: nat, b: seq<Byte>)
    requires b != []
    ensures Fields(Repeat(0x20, k), b) == [b]
  {
    hide Fields;
    var none, blanks := [], Repeat<Byte>(0x20, k);
    NoFields(b);
    BlankFields(k, none, b);
    assert blanks + none == blanks;
    assert [b] + Fields(none, []) == [b];
  }

  lemma NoFields(field: seq<Byte>)
    ensures Fields([], []) == [] && (field != [] ==> Fields([], field) == [field])
  {
  }

  /** Blanks end the word they follow, if any. */
  lemma {:induction false} BlankFields(n: nat, s: seq<Byte>, field: seq<Byte>)
    ensures n > 0 ==> Fields(Repeat(0x20, n) + s, field) == (if field == [] then [] else [field]) + Fields(s, [])
    ensures n == 0 ==> Fields(Repeat(0x20, n) + s, field) == Fields(s, field)
  {
    var t := Repeat(0x20, n) + s;
    if n == 0 {
      assert t == s;
    } else {
      assert Size(t) == 1 && First(t) == Good(0x20) && t[1..] == Repeat(0x20, n - 1) + s;
      BlankFields(n - 1, s, []);
      assert [] + Fields(s, []) == Fields(s, []);
    }
  }

  lemma {:induction false} OverhangOfDark(s: seq<Byte>, rest: seq<Byte>, width: nat)
    requires Dark(s)
    ensures Overhang(s + rest, width) == if |s| <= width then Overhang(rest, width - |s|) else 0
  {
    if s == [] {
      assert s + rest == rest;
    } else {
      var t := s + rest;
      assert Size(t) == 1 && t[1..] == s[1..] + rest;
      if width > 0 {
        OverhangOfDark(s[1..], rest, width - 1);
      }
    }
  }

  lemma {:induction false} EncodableDark(s: seq<Byte>, rest: seq<Byte>)
    requires Dark(s)
    ensures Encodable(s + rest) <==> Encodable(rest)
  {
    hide Code;
    if s == [] {
      assert s + rest == rest;
    } else {
      var t := s + rest;
      assert Size(t) == 1 && First(t) == Good(s[0]) && t[1..] == s[1..] + rest;
      EncodableDark(s[1..], rest);
      AsciiEncodable(s[0]);
      EncodableStep(t);
    }
  }

  lemma AsciiEncodable(b: Byte)
    requires b < 0x80
    ensures EncodableSym(Good(b))
  {
  }

  lemma EncodableStep(s: seq<Byte>)
    requires s != []
    ensures Encodable(s) <==> EncodableSym(First(s)) && Encodable(s[Size(s)..])
  {
    hide EncodableSym, First;
    var rest := Decode(s[Size(s)..]);
    assert Decode(s) == [First(s)] + rest;
    if Encodable(s) {
      assert EncodableSym(Decode(s)[0]);
      forall i | 0 <= i < |rest|
        ensures EncodableSym(rest[i])
      {
        assert EncodableSym(Decode(s)[i + 1]);
      }
    }
  }

  lemma {:induction false} InTableFound(r: int, from: nat, at: nat)
    requires from <= at < |TABLE| && TABLE[at] == r
    ensures IndexOf(r, from).Some? && IndexOf(r, from).value <= at
    decreases at - from
  {
    hide TABLE;
    if TABLE[from] != r {
      InTableFound(r, from + 1, at);
    }
  }

  lemma EuroEncodable()
    ensures Encodable([0x20] + EURO_SIGN) && Encodable(EURO_SIGN)
  {
    var blank := [0x20] + EURO_SIGN;
    assert Complete(EURO_SIGN) && Size(EURO_SIGN) == 3 && First(EURO_SIGN) == Good(0x20AC);
    InTableFound(0x20AC, 0, 0x55);
    assert EURO_SIGN[3..] == [];
    EncodableStep(EURO_SIGN);
    assert Size(blank) == 1 && First(blank) == Good(0x20) && blank[1..] == EURO_SIGN;
    AsciiEncodable(0x20);
    EncodableStep(blank);
  }

  lemma FixedDark(x: real)
    ensures Dark(Ascii(Fixed2(x))) && |Ascii(Fixed2(x))| == |Fixed2(x)| >= 4
  {
    hide CentsAbs, Decimal.PrintNat;
    DarkAscii(Fixed2(x));
  }

  lemma DarkAscii(s: string)
    requires forall i :: 0 <= i < |s| ==> '!' <= s[i] <= '~'
    ensures Dark(Ascii(s))
  {
  }

  /** The blank and the euro sign after an amount end its field and make another. */
  lemma EuroFields(a: seq<Byte>)
    ensures Fields([0x20] + EURO_SIGN, a) == (if a == [] then [] else [a]) + [EURO_SIGN]
  {
    var rest := [0x20] + EURO_SIGN;
    assert Size(rest) == 1 && First(rest) == Good(0x20) && rest[1..] == EURO_SIGN;
    assert Complete(EURO_SIGN) && Size(EURO_SIGN) == 3 && First(EURO_SIGN) == Good(0x20AC);
    assert EURO_SIGN[3..] == [] && [] + EURO_SIGN[..3] == EURO_SIGN;
    assert Fields(EURO_SIGN, []) == [EURO_SIGN];
  }

  /** A price text is two fields with one blank, so squeezing leaves it alone. */
  lemma PriceSqueezed(x: real)
    ensures Squeeze(PriceText(x)) == PriceText(x)
  {
    hide Ascii, Fixed2, Fields, Size, First, Complete;
    var a := Ascii(Fixed2(x));
    FixedDark(x);
    assert PriceText(x) == a + ([0x20] + EURO_SIGN);
    FieldsOfDark(a, [0x20] + EURO_SIGN, []);
    assert [] + a == a;
    EuroFields(a);
    var fields := [a, EURO_SIGN];
    assert Fields(PriceText(x), []) == fields;
    assert fields[1..] == [EURO_SIGN] && Join([EURO_SIGN]) == EURO_SIGN;
    assert Join(fields) == a + [0x20] + EURO_SIGN;
    AppendAssociates(a, [0x20], EURO_SIGN);
  }

  /** A price is cut through the euro sign so that two of its octets stay exactly when the amount has nine characters. */
  lemma PriceCut(x: real)
    ensures Proper(PriceText(x))
    ensures CutsCleanly(PriceText(x), COL_PRICE) <==> |Fixed2(x)| != 9
  {
    hide Ascii, Fixed2, Squeeze;
    var a, rest := Ascii(Fixed2(x)), [0x20] + EURO_SIGN;
    FixedDark(x);
    PriceSqueezed(x);
    assert PriceText(x) == a + rest;
    EncodableDark(a, rest);
    EuroEncodable();
    OverhangOfDark(a, rest, COL_PRICE);
    assert Size(rest) == 1 && rest[1..] == EURO_SIGN && Size(EURO_SIGN) == 3;
  }

  /** Printable ASCII without blanks is never cut badly. */
  lemma DarkCut(s: seq<Byte>, width: nat)
    requires Dark(s)
    ensures Proper(s) && CutsCleanly(s, width)
  {
    hide Encodable;
    FieldsOfDark(s, [], []);
    assert s + [] == s && [] + s == s;
    assert Squeeze(s) == s;
    EncodableDark(s, []);
    NothingEncodable();
    OverhangOfDark(s, [], width);
  }

  lemma CountCut(n: int)
    ensures var text := Ascii(Decimal.Print(n) + "x"); Proper(text) && CutsCleanly(text, COL_COUNT)
  {
    DarkCut(Ascii(Decimal.Print(n) + "x"), COL_COUNT);
  }

  const UMLAUT: seq<Byte> := [0xC3, 0xA4]

  lemma UmlautFirst(rest: seq<Byte>)
    ensures var s := UMLAUT + rest; Size(s) == 2 && First(s) == Good(0xE4) && s[2..] == rest && s[..2] == UMLAUT
  {
  }

  lemma UmlautEncodable()
    ensures EncodableSym(Good(0xE4))
  {
    InTableFound(0xE4, 0, 0x04);
  }

  /** The heading of the extras column, with its umlaut, is one field, printable, and fits its column. */
  lemma ExtrasHeading(a: seq<Byte>, b: seq<Byte>)
    requires Dark(a) && Dark(b) && b != [] && |a| + 2 + |b| <= COL_EXTRAS
    ensures Proper(a + UMLAUT + b) && CutsCleanly(a + UMLAUT + b, COL_EXTRAS)
  {
    hide Encodable, First, Size, Complete, EncodableSym;
    var s, rest := a + UMLAUT + b, UMLAUT + b;
    assert s == a + rest && s == s + [];
    UmlautFirst(b);
    FieldsOfDark(a, rest, []);
    FieldsOfDark(b, [], a + UMLAUT);
    assert b + [] == b && [] + a == a;
    assert Fields(rest, a) == Fields(b, a + UMLAUT);
    assert Fields([], a + UMLAUT + b) == [a + UMLAUT + b];
    assert Squeeze(s) == s;
    EncodableDark(a, rest);
    EncodableStep(rest);
    UmlautEncodable();
    EncodableDark(b, []);
    NothingEncodable();
  }

  /** The heading row is 48 wide. */
  lemma HeaderWidth()
    ensures |Encode858(HeaderRow())| == RECEIPT_WIDTH
  {
    hide Row, Encode858, Proper, CutsCleanly, Ascii;
    DarkAscii("Anz");
    DarkAscii("Produkt");
    DarkAscii("Zus");
    DarkAscii("tze");
    DarkAscii("Preis");
    DarkCut(Ascii("Anz"), COL_COUNT);
    DarkCut(Ascii("Produkt"), COL_PRODUCT);
    AsciiLength("Zus");
    AsciiLength("tze");
    ExtrasHeading(Ascii("Zus"), Ascii("tze"));
    DarkCut(Ascii("Preis"), COL_PRICE);
    RowOfProperTexts(Ascii("Anz"), Ascii("Produkt"), Ascii("Zus") + UMLAUT + Ascii("tze"), Ascii("Preis"));
  }

  lemma AsciiLength(s: string)
    ensures |Ascii(s)| == |s|
  {
  }

  lemma NothingEncodable()
    ensures Encodable([]) && Proper([]) && CutsCleanly([], COL_EXTRAS)
  {
  }

  /**
   * The row of an item, whatever its name, is 48 wide exactly when what the cut leaves of the name prints and the printed
   * amount does not have nine characters.
   */
  lemma ItemRowOfAnyName(it: Item)
    requires it.Item?
    ensures |Encode858(ItemRow(it))| == RECEIPT_WIDTH <==> CellPrints(it.name, COL_PRODUCT) && |Fixed2(ItemTotal(it))| != 9
  {
    hide Row, Encode858, Proper, CutsCleanly, CellPrints, CellHasRunes, Ascii, Fixed2, PriceText;
    var count, price := Ascii(Decimal.Print(Trunc(it.quantity)) + "x"), PriceText(ItemTotal(it));
    CountCut(Trunc(it.quantity));
    PriceCut(ItemTotal(it));
    NothingEncodable();
    RowOfTexts(count, it.name, [], price);
    ProperCellPrints(count, COL_COUNT);
    ProperCellPrints([], COL_EXTRAS);
    ProperCellPrints(price, COL_PRICE);
  }

  /** For a printable name: exactly when the cut of the name strands at most one octet of a rune, and the same. */
  lemma ItemRowWidth(it: Item)
    requires it.Item? && Proper(it.name)
    ensures |Encode858(ItemRow(it))| == RECEIPT_WIDTH <==> CutsCleanly(it.name, COL_PRODUCT) && |Fixed2(ItemTotal(it))| != 9
  {
    hide ItemRow, Encode858, Proper, CutsCleanly, CellPrints, Fixed2;
    ItemRowOfAnyName(it);
    ProperCellPrints(it.name, COL_PRODUCT);
  }

  /** So an item for 123456.78 gets a row that is too narrow, whatever it is called. */
  lemma NarrowRow(name: seq<Byte>)
    ensures |Encode858(ItemRow(Item(name, 1.0, 123456.78, [])))| < RECEIPT_WIDTH
  {
    hide Row, Encode858, Proper, CutsCleanly, Ascii;
    var it := Item(name, 1.0, 123456.78, []);
    assert ItemTotal(it) == 123456.78;
    NineCharacters();
    ItemRowOfAnyName(it);
    RowWidth(Ascii(Decimal.Print(Trunc(it.quantity)) + "x"), it.name, [], PriceText(ItemTotal(it)));
  }

  lemma NineCharacters()
    ensures |Fixed2(123456.78)| == 9
  {
    assert CentsAbs(123456.78) == 12345678;
    assert |Decimal.PrintNat(123456)| == 6 by {
      assert |Decimal.PrintNat(123)| == 3;
    }
  }
}
