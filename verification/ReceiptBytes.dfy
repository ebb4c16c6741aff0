/** The receipts octet by octet, in the order and with the constants in which internal/escpos/render.go appends them. */
module ReceiptBytes {
  import opened Basics
  import opened Cells
  import opened EscPos
  import opened Money
  import opened Receipts

  type Parts = seq<seq<Byte>>

  lemma {:induction false} BytesOfParts(cmds: seq<Cmd>, parts: Parts)
    requires |cmds| == |parts| && forall i :: 0 <= i < |cmds| ==> CmdBytes(cmds[i]) == parts[i]
    ensures Bytes(cmds) == Concat(parts)
  {
    hide CmdBytes;
    if cmds != [] {
      assert CmdBytes(cmds[0]) == parts[0];
      BytesOfParts(cmds[1..], parts[1..]);
    }
  }

  // ----- the test page and the service call -----

  function TestParts(now: seq<Byte>): Parts {
    [[0x1B, 0x40], [0x1B, 0x74, 19], [0x1B, 0x61, 0x01], [0x1B, 0x45, 0x01],
     Line(Ascii("OrderPy Testdruck")), [0x1B, 0x45, 0x00], Line(Ascii("Testseite")), [0x1B, 0x61, 0x00],
     [0x0A], Repeat(0x2D, 32) + [0x0A],
     Line(Ascii("Datum/Zeit: ") + now), Line(Ascii("Drucker-Status: OK")), Line(Ascii("Verbindung erfolgreich.")),
     [0x0A], Repeat(0x2D, 32) + [0x0A], [0x1B, 0x64, 6], [0x1D, 0x56, 0x00]]
  }

  lemma TestBytes(now: seq<Byte>)
    ensures Bytes(TestCmds(now)) == Concat(TestParts(now))
  {
    hide Line, Ascii, Repeat, Concat, Bytes;
    BytesOfParts(TestCmds(now), TestParts(now));
  }

  function ServiceParts(table: seq<Byte>, payment: bool, now: seq<Byte>): Parts {
    [[0x1B, 0x40], [0x1B, 0x74, 19], [0x1B, 0x61, 0x01],
     Line(Repeat(0x3D, 48)), [0x1D, 0x21, 0x11], Line(Ascii("KELLNER RUFEN")), [0x1D, 0x21, 0x00], Line(Repeat(0x3D, 48)),
     [0x1B, 0x61, 0x00], Line([]), [0x1B, 0x45, 0x01],
     Line(Ascii("Tisch: ") + table), Line(Ascii("Grund: ") + if payment then Ascii("Bezahlung") else Ascii("Sonstiges")),
     [0x1B, 0x45, 0x00], Line([]), Line(now), Line([]), Line(Repeat(0x2D, 48)), [0x1B, 0x64, 6], [0x1D, 0x56, 0x00]]
  }

  lemma ServiceFront(cmds: seq<Cmd>, parts: Parts)
    requires cmds == [Init, SelectPage, Align(1), Say(RULE), Size(0x11), Say(Ascii("KELLNER RUFEN")), Size(0), Say(RULE), Align(0), Say([]), Bold(true)]
    requires parts == ServiceParts([], true, [])[..11]
    ensures Bytes(cmds) == Concat(parts)
  {
    hide Line, Ascii, Repeat, Concat, Bytes;
    BytesOfParts(cmds, parts);
  }

  lemma ServiceBack(table: seq<Byte>, payment: bool, now: seq<Byte>, cmds: seq<Cmd>, parts: Parts)
    requires cmds == ServiceCmds(table, payment, now)[11..] && parts == ServiceParts(table, payment, now)[11..]
    ensures Bytes(cmds) == Concat(parts)
  {
    hide Line, Ascii, Repeat, Concat, Bytes;
    BytesOfParts(cmds, parts);
  }

  lemma ServiceBytes(table: seq<Byte>, payment: bool, now: seq<Byte>)
    ensures Bytes(ServiceCmds(table, payment, now)) == Concat(ServiceParts(table, payment, now))
  {
    hide Line, Ascii, Repeat, Concat, Bytes;
    var cmds, parts := ServiceCmds(table, payment, now), ServiceParts(table, payment, now);
    assert |cmds| == 20;
    ServiceFront(cmds[..11], parts[..11]);
    ServiceBack(table, payment, now, cmds[11..], parts[11..]);
    hide ServiceCmds, ServiceParts;
    assert cmds == cmds[..11] + cmds[11..] && parts == parts[..11] + parts[11..];
    BytesConcat(cmds[..11], cmds[11..]);
    ConcatAppend(parts[..11], parts[11..]);
  }

  // ----- the order -----

  /** The name of the place, blanks around it gone, cut to 24 octets. */
  function TitleText(o: Order): seq<Byte> {
    var cafe := TrimSpace(o.tenant);
    if cafe == [] then Ascii("BESTELLUNG") else if |cafe| > 24 then cafe[..24] else cafe
  }

  function TimeText(o: Order): seq<Byte> {
    if o.createdAt == [] then o.printedAt
    else match o.createdLocal
      case Some(t) => t
      case None => if |o.createdAt| >= 19 then o.createdAt[..19] else o.createdAt
  }

  function PlaceText(o: Order): seq<Byte> {
    (if o.kitchen && o.correlation != [] then [0x4B, 0xC3, 0xBC, 0x63, 0x68, 0x65, 0x20] + o.correlation + [0x0A] else [])
    + if o.takeaway then [0x41, 0x75, 0xC3, 0x9F, 0x65, 0x72, 0x20, 0x48, 0x61, 0x75, 0x73, 0x0A]
      else
        Ascii("Tisch: #") + o.table
        + (match o.location
           case Indoor => Ascii(" (Drinnen)")
           case Outdoor => [0x20, 0x28, 0x44, 0x72, 0x61, 0x75, 0xC3, 0x9F, 0x65, 0x6E, 0x29]
           case Elsewhere => [])
        + [0x0A]
  }

  function Euros(x: real): seq<Byte> { Ascii(Fixed2(x)) + [0x20, 0xE2, 0x82, 0xAC] }

  function HeadParts(o: Order): Parts {
    [[0x1B, 0x40], [0x1B, 0x74, 19], [0x1B, 0x61, 0x01],
     Line(Repeat(0x3D, 48)), [0x1D, 0x21, 0x11], Line(TitleText(o)), [0x1D, 0x21, 0x00], Line(Repeat(0x3D, 48)),
     [0x1B, 0x61, 0x00], Line(TimeText(o) + [0x0A]), Line(ShortId(o) + [0x0A]),
     [0x1D, 0x21, 0x01], Line(PlaceText(o)), [0x1D, 0x21, 0x00], Line(Repeat(0x2D, 48)),
     [0x1B, 0x45, 0x01],
     Line(Row(Ascii("Anz"), Ascii("Produkt"), [0x5A, 0x75, 0x73, 0xC3, 0xA4, 0x74, 0x7A, 0x65], Ascii("Preis"))),
     [0x1B, 0x45, 0x00], Line(Repeat(0x2D, 48))]
  }

  function ExtraParts(extras: seq<Option<seq<Byte>>>): Parts {
    if extras == [] then []
    else match extras[0]
      case None => ExtraParts(extras[1..])
      case Some(name) => (if name == [] then [] else [Line([0x20, 0x20, 0x2B, 0x20] + name)]) + ExtraParts(extras[1..])
  }

  function Charge(it: Item, n: int): real
    requires it.Item?
  {
    n as real * it.unitPrice
  }

  /** The row of an item charged for n units. */
  function BlockRow(it: Item, n: int): seq<Byte>
    requires it.Item?
  {
    Row(Ascii(Decimal.Print(n) + "x"), it.name, [], Euros(Charge(it, n)))
  }

  function BlockParts(it: Item, n: int): Parts
    requires it.Item?
  {
    [Line(Repeat(0x2D, 48)), Line(BlockRow(it, n))] + ExtraParts(it.extras)
  }

  function ItemsParts(items: seq<Item>, counts: seq<int>): Parts
    requires |counts| == |items|
  {
    if items == [] then []
    else (if items[0].Item? then BlockParts(items[0], counts[0]) else []) + ItemsParts(items[1..], counts[1..])
  }

  function TailParts(o: Order, counts: seq<int>): Parts
    requires |counts| == |o.items|
  {
    [[0x1D, 0x21, 0x10], Line(Ascii("TOTAL: ") + Euros(Bill(o.items, counts))), [0x1D, 0x21, 0x00]]
    + (if o.footer == [] then [] else [Line([0x0A] + o.footer)])
    + [[0x1B, 0x64, 6], [0x1D, 0x56, 0x00]]
  }

  function OrderParts(o: Order, counts: seq<int>): Parts
    requires |counts| == |o.items|
  {
    HeadParts(o) + ItemsParts(o.items, counts) + TailParts(o, counts)
  }

  lemma Umlauts()
    ensures Ascii("Au") + [0xC3, 0x9F] + Ascii("er Haus") + [0x0A] == [0x41, 0x75, 0xC3, 0x9F, 0x65, 0x72, 0x20, 0x48, 0x61, 0x75, 0x73, 0x0A]
    ensures Ascii(" (Drau") + [0xC3, 0x9F] + Ascii("en)") == [0x20, 0x28, 0x44, 0x72, 0x61, 0x75, 0xC3, 0x9F, 0x65, 0x6E, 0x29]
    ensures Ascii("K") + [0xC3, 0xBC] + Ascii("che ") == [0x4B, 0xC3, 0xBC, 0x63, 0x68, 0x65, 0x20]
    ensures Ascii("Zus") + [0xC3, 0xA4] + Ascii("tze") == [0x5A, 0x75, 0x73, 0xC3, 0xA4, 0x74, 0x7A, 0x65]
    ensures Ascii("  + ") == [0x20, 0x20, 0x2B, 0x20]
  {
  }

  lemma TextsAre(o: Order)
    ensures Title(o) == TitleText(o) && Created(o) == TimeText(o) && TableLine(o) == PlaceText(o)
  {
    assert |Ascii("BESTELLUNG")| == 10;
    hide TrimSpace, Ascii;
    Umlauts();
    assert o.createdAt != [] && |o.createdAt| == 19 ==> o.createdAt[..19] == o.createdAt;
    assert [] + TableText(o) == TableText(o);
    var kitchen := Ascii("K") + [0xC3, 0xBC] + Ascii("che ") + o.correlation + NEWLINE;
    assert TableText(o) == if o.takeaway then [0x41, 0x75, 0xC3, 0x9F, 0x65, 0x72, 0x20, 0x48, 0x61, 0x75, 0x73, 0x0A]
      else Ascii("Tisch: #") + o.table + (match o.location
           case Indoor => Ascii(" (Drinnen)")
           case Outdoor => [0x20, 0x28, 0x44, 0x72, 0x61, 0x75, 0xC3, 0x9F, 0x65, 0x6E, 0x29]
           case Elsewhere => []) + [0x0A];
  }

  lemma HeadBytes(o: Order)
    ensures Bytes(HeadCmds(o)) == Concat(HeadParts(o))
  {
    hide Line, Ascii, Repeat, Concat, Bytes, Title, TitleText, Created, TimeText, TableLine, PlaceText, ShortId, Row;
    Umlauts();
    TextsAre(o);
    assert HeaderRow() == Row(Ascii("Anz"), Ascii("Produkt"), [0x5A, 0x75, 0x73, 0xC3, 0xA4, 0x74, 0x7A, 0x65], Ascii("Preis"));
    BytesOfParts(HeadCmds(o), HeadParts(o));
  }

  lemma SaidBytes(texts: seq<seq<Byte>>, parts: Parts)
    requires |parts| == |texts| && forall i :: 0 <= i < |texts| ==> parts[i] == Line(texts[i])
    ensures Bytes(SayAll(texts)) == Concat(parts)
  {
    hide Line, Bytes, Concat;
    BytesOfParts(SayAll(texts), parts);
  }

  /** The lines of these texts. */
  predicate LinesOf(texts: seq<seq<Byte>>, parts: Parts) {
    |parts| == |texts| && forall i :: 0 <= i < |texts| ==> parts[i] == Line(texts[i])
  }

  lemma LinesConcat(a: seq<seq<Byte>>, b: seq<seq<Byte>>, p: Parts, q: Parts)
    requires LinesOf(a, p) && LinesOf(b, q)
    ensures LinesOf(a + b, p + q)
  {
    hide Line;
  }

  lemma {:induction false} ExtraLines(extras: seq<Option<seq<Byte>>>)
    ensures LinesOf(ExtraTexts(extras), ExtraParts(extras))
  {
    hide Line, Ascii;
    Umlauts();
    if extras != [] {
      ExtraLines(extras[1..]);
      if extras[0].Some? && extras[0].value != [] {
        LinesConcat([ExtraText(extras[0].value)], ExtraTexts(extras[1..]), [Line([0x20, 0x20, 0x2B, 0x20] + extras[0].value)], ExtraParts(extras[1..]));
      } else {
        assert ExtraTexts(extras) == ExtraTexts(extras[1..]) && ExtraParts(extras) == ExtraParts(extras[1..]);
      }
    }
  }

  lemma PriceIs(x: real)
    ensures PriceText(x) == Euros(x)
  {
    hide Ascii, Fixed2;
  }

  lemma ChargeIs(it: Item, n: int)
    requires it.Item? && IsWholePart(n, it.quantity)
    ensures Trunc(it.quantity) == n && ItemTotal(it) == Charge(it, n)
  {
    WholePartIs(it.quantity);
  }

  lemma BlockRowIs(it: Item, n: int)
    requires it.Item? && IsWholePart(n, it.quantity)
    ensures ItemRow(it) == BlockRow(it, n)
  {
    hide Row, Fixed2, PriceText, Euros, Trunc, IsWholePart, Ascii, Charge, ItemTotal;
    ChargeIs(it, n);
    PriceIs(Charge(it, n));
  }

  lemma BlockLines(it: Item, n: int)
    requires it.Item? && IsWholePart(n, it.quantity)
    ensures LinesOf(ItemTexts(it), BlockParts(it, n))
  {
    hide Line, Ascii, Row, Fixed2, PriceText, Euros, Trunc, IsWholePart, ExtraTexts, ExtraParts;
    BlockRowIs(it, n);
    ExtraLines(it.extras);
    var two := [Line(Repeat(0x2D, 48)), Line(BlockRow(it, n))];
    LinesConcat([DASHES, ItemRow(it)], ExtraTexts(it.extras), two, ExtraParts(it.extras));
    assert BlockParts(it, n) == two + ExtraParts(it.extras);
    assert ItemTexts(it) == [DASHES, ItemRow(it)] + ExtraTexts(it.extras);
  }

  lemma {:induction false} ItemsLines(items: seq<Item>, counts: seq<int>)
    requires Counts(items, counts)
    ensures LinesOf(ItemsTexts(items), ItemsParts(items, counts))
  {
    hide ItemTexts, BlockParts, IsWholePart, LinesOf;
    if items == [] {
      assert LinesOf([], []) by { NoLines(); }
    } else {
      ItemsLines(items[1..], counts[1..]);
      if items[0].Item? {
        BlockLines(items[0], counts[0]);
        LinesConcat(ItemTexts(items[0]), ItemsTexts(items[1..]), BlockParts(items[0], counts[0]), ItemsParts(items[1..], counts[1..]));
      } else {
        SkippedTexts(items[0]);
        assert ItemsTexts(items) == ItemsTexts(items[1..]) && ItemsParts(items, counts) == ItemsParts(items[1..], counts[1..]);
      }
    }
  }

  lemma SkippedTexts(it: Item)
    requires it.Skipped?
    ensures ItemTexts(it) == []
  {
  }

  lemma NoLines()
    ensures LinesOf([], [])
  {
  }

  lemma TailBytes(o: Order, counts: seq<int>)
    requires Counts(o.items, counts)
    ensures Bytes(TailCmds(o)) == Concat(TailParts(o, counts))
  {
    hide Line, Ascii, Repeat, Concat, Bytes, Bill, Sum, Euros, PriceText, IsWholePart;
    SumIsBill(o.items, counts);
    PriceIs(Sum(o.items));
    BytesOfParts(TailCmds(o), TailParts(o, counts));
  }

  /**
   * The octets of an order: head, one block for each item that is a map, the total over exactly those blocks, in counts
   * (quantities without their fractions) times unit prices, footer, feed and cut.
   */
  lemma OrderBytes(o: Order, counts: seq<int>)
    requires Counts(o.items, counts)
    ensures Bytes(OrderCmds(o)) == Concat(OrderParts(o, counts))
  {
    hide Line, Concat, Bytes, HeadCmds, HeadParts, TailCmds, TailParts, ItemsTexts, ItemsParts, SayAll, IsWholePart;
    HeadBytes(o);
    ItemsLines(o.items, counts);
    SaidBytes(ItemsTexts(o.items), ItemsParts(o.items, counts));
    TailBytes(o, counts);
    var items := SayAll(ItemsTexts(o.items));
    BytesConcat(HeadCmds(o) + items, TailCmds(o));
    BytesConcat(HeadCmds(o), items);
    ConcatAppend(HeadParts(o) + ItemsParts(o.items, counts), TailParts(o, counts));
    ConcatAppend(HeadParts(o), ItemsParts(o.items, counts));
  }

  /**
   * The octets of each kind of message. An order is printed under its own tenant name, unless that is blank; only a
   * message of the kitchen kind prints the kitchen's number.
   */
  lemma MessageBytes(msg: Message, now: seq<Byte>, counts: seq<int>)
    requires (msg.OrderLike? || msg.PosReceipt?) && msg.receipt.Some? ==> Counts(msg.receipt.value.items, counts)
    ensures match msg
      case TestPrint => MessageCmds(msg, now).Some? && Bytes(MessageCmds(msg, now).value) == Concat(TestParts(now))
      case ServiceCall(table, payment) =>
        MessageCmds(msg, now).Some? && Bytes(MessageCmds(msg, now).value) == Concat(ServiceParts(table, payment, now))
      case OrderLike(kitchen, tenant, Some(o)) =>
        var named := o.(kitchen := kitchen, tenant := if TrimSpace(o.tenant) == [] then tenant else o.tenant);
        MessageCmds(msg, now).Some? && Bytes(MessageCmds(msg, now).value) == Concat(OrderParts(named, counts))
      case PosReceipt(Missing, Some(o)) =>
        MessageCmds(msg, now).Some? && Bytes(MessageCmds(msg, now).value) == Concat(OrderParts(o.(kitchen := false), counts))
      case _ => MessageCmds(msg, now).None?
  {
    hide Bytes, Concat, TestCmds, TestParts, ServiceCmds, ServiceParts, OrderCmds, OrderParts, TrimSpace, Counts;
    match msg
    case TestPrint => TestBytes(now);
    case ServiceCall(table, payment) => ServiceBytes(table, payment, now);
    case OrderLike(kitchen, tenant, Some(o)) =>
      OrderBytes(o.(kitchen := kitchen, tenant := if TrimSpace(o.tenant) == [] then tenant else o.tenant), counts);
    case PosReceipt(Missing, Some(o)) => OrderBytes(o.(kitchen := false), counts);
    case _ =>
  }
}
