/** internal/escpos/render.go: the builders, and what their receipts look like on paper. */
module Receipts {
  import opened Basics
  import opened Cells
  import opened EscPos
  import opened Money

  // ----- inputs -----

  datatype Location = Indoor | Outdoor | Elsewhere

  /**
   * A receipt map with its fields read. `createdLocal` is created_at as a local time stamp, when it parses as one,
   * `printedAt` the current time in the same form, `table` the "%v" text of the table number, `upperId` what
   * strings.ToUpper gives for the shortened order id when that is not ASCII.
   */
  datatype Order = Order(
    kitchen: bool,
    tenant: seq<Byte>,
    createdAt: seq<Byte>,
    createdLocal: Option<seq<Byte>>,
    printedAt: seq<Byte>,
    orderId: seq<Byte>,
    upperId: seq<Byte>,
    takeaway: bool,
    table: seq<Byte>,
    location: Location,
    correlation: seq<Byte>,
    items: seq<Item>,
    footer: seq<Byte>)

  datatype Message =
    | TestPrint
    | ServiceCall(table: seq<Byte>, payment: bool)
    | OrderLike(kitchen: bool, tenant: seq<Byte>, receipt: Option<Order>)
    | PosReceipt(raw: Base64, receipt: Option<Order>)
    | LogoProvision(image: Base64, prelude: Base64)
    | UnknownKind

  // ----- texts -----

  const RULE: seq<Byte> := Repeat(0x3D, RECEIPT_WIDTH)
  const DASHES: seq<Byte> := Repeat(0x2D, RECEIPT_WIDTH)
  const SHORT_DASHES: seq<Byte> := Repeat(0x2D, 32)
  const NEWLINE: seq<Byte> := [LF]
  const EURO_SIGN: seq<Byte> := [0xE2, 0x82, 0xAC]

  function TrimLeft(s: seq<Byte>): seq<Byte> {
    if s == [] || !IsSpace(Utf8.First(s)) then s else TrimLeft(s[Utf8.Size(s)..])
  }

  function TrimRight(s: seq<Byte>): seq<Byte> {
    if s == [] then []
    else
      var rest := TrimRight(s[Utf8.Size(s)..]);
      if rest == [] && IsSpace(Utf8.First(s)) then [] else s[..Utf8.Size(s)] + rest
  }

  /** strings.TrimSpace. */
  function TrimSpace(s: seq<Byte>): seq<Byte> { TrimRight(TrimLeft(s)) }

  /** ASCII other than white space at both ends, anything in ASCII between. */
  predicate Trimmed(s: seq<Byte>) {
    (forall i :: 0 <= i < |s| ==> s[i] < 0x80) && (s != [] ==> 0x20 < s[0] && 0x20 < s[|s| - 1])
  }

  lemma {:induction false} TrimRightIs(s: seq<Byte>, n: nat)
    requires (forall i :: 0 <= i < |s| ==> s[i] < 0x80) && (s != [] ==> 0x20 < s[|s| - 1])
    ensures TrimRight(s + Repeat(0x20, n)) == s
    decreases |s|, n
  {
    var t := s + Repeat(0x20, n);
    if s != [] {
      assert Utf8.Size(t) == 1 && t[1..] == s[1..] + Repeat(0x20, n) && t[..1] == [s[0]];
      TrimRightIs(s[1..], n);
      assert |s| == 1 ==> !IsSpace(Utf8.First(t));
    } else if n > 0 {
      assert t == Repeat(0x20, n) && Utf8.Size(t) == 1 && Utf8.First(t) == Utf8.Good(0x20);
      assert t[1..] == s + Repeat(0x20, n - 1);
      TrimRightIs(s, n - 1);
      assert TrimRight(t[1..]) == [] && IsSpace(Utf8.First(t));
    }
  }

  lemma {:induction false} TrimLeftIs(m: nat, s: seq<Byte>)
    requires s != [] ==> 0x20 < s[0] < 0x80
    ensures TrimLeft(Repeat(0x20, m) + s) == s
    decreases m
  {
    var t := Repeat(0x20, m) + s;
    if m > 0 {
      assert Utf8.Size(t) == 1 && Utf8.First(t) == Utf8.Good(0x20) && t[1..] == Repeat(0x20, m - 1) + s;
      TrimLeftIs(m - 1, s);
    } else {
      assert t == s;
      assert s != [] ==> Utf8.First(s) == Utf8.Good(s[0]);
    }
  }

  /** Blanks around a text are dropped, and nothing else. */
  lemma TrimSpaceIs(m: nat, s: seq<Byte>, n: nat)
    requires Trimmed(s)
    ensures TrimSpace(Repeat(0x20, m) + s + Repeat(0x20, n)) == s
  {
    var left, right := Repeat(0x20, m), Repeat(0x20, n);
    AppendAssociates(left, s, right);
    if s == [] {
      assert left + (s + right) == Repeat(0x20, m + n) + s;
      TrimLeftIs(m + n, s);
      NothingToTrim(s);
    } else {
      TrimLeftIs(m, s + right);
      TrimRightIs(s, n);
    }
    assert TrimLeft(left + (s + right)) == if s == [] then s else s + right;
  }

  lemma NothingToTrim(s: seq<Byte>)
    requires s == []
    ensures TrimRight(s) == s
  {
  }

  function Title(o: Order): seq<Byte> {
    var cafe := TrimSpace(o.tenant);
    Cut(if cafe == [] then Ascii("BESTELLUNG") else cafe, RECEIPT_WIDTH / 2)
  }

  /** formatCreated. */
  function Created(o: Order): seq<Byte> {
    if o.createdAt == [] then o.printedAt
    else if o.createdLocal.Some? then o.createdLocal.value
    else Cut(o.createdAt, 19)
  }

  /** strings.ReplaceAll(s, "-", ""). */
  function Undashed(s: seq<Byte>): seq<Byte> {
    if s == [] then [] else Undashed(s[..|s| - 1]) + if s[|s| - 1] == 0x2D then [] else [s[|s| - 1]]
  }

  predicate IsAscii(s: seq<Byte>) { forall i :: 0 <= i < |s| ==> s[i] < 0x80 }

  function UpperOctet(b: Byte): Byte { if 0x61 <= b <= 0x7A then b - 32 else b }

  function Upper(s: seq<Byte>, other: seq<Byte>): seq<Byte> {
    if IsAscii(s) then seq(|s|, i requires 0 <= i < |s| => UpperOctet(s[i])) else other
  }

  function ShortId(o: Order): seq<Byte> {
    Ascii("#") + if o.orderId == [] then Ascii("?") else Upper(Cut(Undashed(o.orderId), 8), o.upperId)
  }

  /** Octet by octet and in order, dashes go and everything else stays. */
  lemma {:induction false} UndashedKeeps(a: seq<Byte>, b: seq<Byte>, c: Byte)
    ensures Undashed(a + b) == Undashed(a) + Undashed(b)
    ensures Undashed([c]) == if c == 0x2D then [] else [c]
  {
    assert [c][..0] == [];
    if b == [] {
      assert a + b == a;
    } else {
      UndashedKeeps(a, b[..|b| - 1], c);
      assert (a + b)[..|a + b| - 1] == a + b[..|b| - 1];
    }
  }

  lemma {:induction false} UndashedIs(s: seq<Byte>)
    ensures |Undashed(s)| <= |s|
    ensures forall i :: 0 <= i < |Undashed(s)| ==> Undashed(s)[i] != 0x2D && Undashed(s)[i] in s
  {
    if s != [] {
      UndashedIs(s[..|s| - 1]);
    }
  }

  /** Small letters become the capital ones at the same place in the alphabet; nothing else changes. */
  lemma CapitalOf(i: nat, b: Byte)
    requires i < 26
    ensures UpperOctet("abcdefghijklmnopqrstuvwxyz"[i] as int) == "ABCDEFGHIJKLMNOPQRSTUVWXYZ"[i] as int
    ensures b < 0x61 || b > 0x7A ==> UpperOctet(b) == b
  {
    assert forall k :: 0 <= k < 26 ==> "abcdefghijklmnopqrstuvwxyz"[k] as int == 0x61 + k;
    assert forall k :: 0 <= k < 26 ==> "ABCDEFGHIJKLMNOPQRSTUVWXYZ"[k] as int == 0x41 + k;
  }

  /** An order without an id is shown as #?. */
  lemma NoId(o: Order)
    requires o.orderId == []
    ensures ShortId(o) == [0x23, 0x3F]
  {
  }

  lemma UpperShape(s: seq<Byte>, other: seq<Byte>)
    requires IsAscii(s)
    ensures |Upper(s, other)| == |s|
    ensures forall i :: 0 <= i < |s| ==> Upper(s, other)[i] == UpperOctet(s[i])
  {
  }

  /** An ASCII order id is shown as a hash sign and at most eight octets without dashes or small letters. */
  lemma ShortIdShape(o: Order)
    requires o.orderId != [] && IsAscii(o.orderId)
    ensures |ShortId(o)| <= 9 && ShortId(o)[0] == 0x23
    ensures |ShortId(o)| == 1 + if |Undashed(o.orderId)| < 8 then |Undashed(o.orderId)| else 8
    ensures forall i :: 1 <= i < |ShortId(o)| ==> ShortId(o)[i] == UpperOctet(Undashed(o.orderId)[i - 1])
    ensures forall i :: 0 <= i < |ShortId(o)| ==> ShortId(o)[i] != 0x2D && !(0x61 <= ShortId(o)[i] <= 0x7A)
  {
    hide Undashed, Upper;
    UndashedIs(o.orderId);
    var s := Cut(Undashed(o.orderId), 8);
    forall i | 0 <= i < |s|
      ensures s[i] < 0x80 && s[i] != 0x2D
    {
      assert Undashed(o.orderId)[i] in o.orderId;
    }
    UpperShape(s, o.upperId);
    assert Ascii("#") == [0x23];
  }

  function TableText(o: Order): seq<Byte> {
    if o.takeaway then Ascii("Au") + [0xC3, 0x9F] + Ascii("er Haus") + NEWLINE
    else
      Ascii("Tisch: #") + o.table
      + (match o.location
         case Indoor => Ascii(" (Drinnen)")
         case Outdoor => Ascii(" (Drau") + [0xC3, 0x9F] + Ascii("en)")
         case Elsewhere => [])
      + NEWLINE
  }

  function TableLine(o: Order): seq<Byte> {
    if o.kitchen && o.correlation != [] then
      Ascii("K") + [0xC3, 0xBC] + Ascii("che ") + o.correlation + NEWLINE + TableText(o)
    else TableText(o)
  }

  function HeaderRow(): seq<Byte> {
    Row(Ascii("Anz"), Ascii("Produkt"), Ascii("Zus") + [0xC3, 0xA4] + Ascii("tze"), Ascii("Preis"))
  }

  function PriceText(x: real): seq<Byte> { Ascii(Fixed2(x)) + ([0x20] + EURO_SIGN) }

  function ItemRow(it: Item): seq<Byte>
    requires it.Item?
  {
    Row(Ascii(Decimal.Print(Trunc(it.quantity)) + "x"), it.name, [], PriceText(ItemTotal(it)))
  }

  function ExtraText(name: seq<Byte>): seq<Byte> { Ascii("  + ") + name }

  /** The extras that get a line: maps with a non-empty name. */
  function ExtraTexts(extras: seq<Option<seq<Byte>>>): seq<seq<Byte>> {
    if extras == [] then []
    else (if extras[0].None? || extras[0].value == [] then [] else [ExtraText(extras[0].value)]) + ExtraTexts(extras[1..])
  }

  function ItemTexts(it: Item): seq<seq<Byte>> {
    if it.Skipped? then [] else [DASHES, ItemRow(it)] + ExtraTexts(it.extras)
  }

  function ItemsTexts(items: seq<Item>): seq<seq<Byte>> {
    if items == [] then [] else ItemTexts(items[0]) + ItemsTexts(items[1..])
  }

  function TotalText(o: Order): seq<Byte> { Ascii("TOTAL: ") + PriceText(Sum(o.items)) }

  // ----- the command streams -----

  function SayAll(texts: seq<seq<Byte>>): seq<Cmd> {
    seq(|texts|, i requires 0 <= i < |texts| => Say(texts[i]))
  }

  function TestCmds(now: seq<Byte>): seq<Cmd> {
    [Init, SelectPage, Align(1), Bold(true)]
    + [Say(Ascii("OrderPy Testdruck")), Bold(false), Say(Ascii("Testseite")), Align(0)]
    + [Raw([]), Raw(SHORT_DASHES)]
    + SayAll([Ascii("Datum/Zeit: ") + now, Ascii("Drucker-Status: OK"), Ascii("Verbindung erfolgreich.")])
    + [Raw([]), Raw(SHORT_DASHES), FeedLines, CutPaper]
  }

  function ServiceCmds(table: seq<Byte>, payment: bool, now: seq<Byte>): seq<Cmd> {
    [Init, SelectPage, Align(1), Say(RULE)]
    + [Size(0x11), Say(Ascii("KELLNER RUFEN")), Size(0), Say(RULE)]
    + [Align(0), Say([]), Bold(true)]
    + SayAll([Ascii("Tisch: ") + table, Ascii("Grund: ") + if payment then Ascii("Bezahlung") else Ascii("Sonstiges")])
    + [Bold(false)]
    + SayAll([[], now, [], DASHES])
    + [FeedLines, CutPaper]
  }

  function HeadCmds(o: Order): seq<Cmd> {
    [Init, SelectPage, Align(1), Say(RULE)]
    + [Size(0x11), Say(Title(o)), Size(0), Say(RULE)]
    + [Align(0), Say(Created(o) + NEWLINE), Say(ShortId(o) + NEWLINE)]
    + [Size(0x01), Say(TableLine(o)), Size(0), Say(DASHES)]
    + [Bold(true), Say(HeaderRow()), Bold(false), Say(DASHES)]
  }

  function TailCmds(o: Order): seq<Cmd> {
    [Size(0x10), Say(TotalText(o)), Size(0)]
    + SayAll(if o.footer == [] then [] else [NEWLINE + o.footer])
    + [FeedLines, CutPaper]
  }

  function OrderCmds(o: Order): seq<Cmd> {
    HeadCmds(o) + SayAll(ItemsTexts(o.items)) + TailCmds(o)
  }

  /** The order a message prints; the receipt's own tenant name wins over the message's unless it is blank. */
  function OrderOf(msg: Message): Option<Order> {
    match msg
    case OrderLike(kitchen, tenant, Some(o)) =>
      Some(o.(kitchen := kitchen, tenant := if TrimSpace(o.tenant) != [] then o.tenant else tenant))
    case PosReceipt(Missing, Some(o)) => Some(o.(kitchen := false))
    case _ => None
  }

  /** The bytes a message brings along. */
  function RawBytes(msg: Message): Option<seq<Byte>> {
    match msg
    case PosReceipt(Decoded(bytes), _) => Some(bytes)
    case LogoProvision(Decoded(bytes), _) => Some(bytes)
    case LogoProvision(Missing, Decoded(bytes)) => Some(bytes)
    case _ => None
  }

  function MessageCmds(msg: Message, now: seq<Byte>): Option<seq<Cmd>> {
    match msg
    case TestPrint => Some(TestCmds(now))
    case ServiceCall(table, payment) => Some(ServiceCmds(table, payment, now))
    case _ => match OrderOf(msg) case Some(o) => Some(OrderCmds(o)) case None => None
  }

  // ----- the builders -----

  class Buffer {
    var bytes: seq<Byte>
    /** The commands whose bytes the buffer holds. */
    ghost var cmds: seq<Cmd>

    ghost predicate Valid()
      reads this
    {
      bytes == Bytes(cmds)
    }

    constructor ()
      ensures Valid() && cmds == []
    {
      bytes, cmds := [], [];
    }

    method Append(c: Cmd)
      requires Valid()
      modifies this
      ensures Valid() && cmds == old(cmds) + [c]
    {
      BytesConcat(cmds, [c]);
      assert [c][1..] == [];
      bytes := bytes + CmdBytes(c);
      cmds := cmds + [c];
    }

    method AppendAll(cs: seq<Cmd>)
      requires Valid()
      modifies this
      ensures Valid() && cmds == old(cmds) + cs
    {
      hide Bytes;
      for i := 0 to |cs|
        invariant Valid() && cmds == old(cmds) + cs[..i]
      {
        Append(cs[i]);
      }
    }
  }

  lemma SayAllConcat(a: seq<seq<Byte>>, b: seq<seq<Byte>>)
    ensures SayAll(a + b) == SayAll(a) + SayAll(b)
  {
  }

  lemma {:induction false} ExtraTextsAppend(a: seq<Option<seq<Byte>>>, x: Option<seq<Byte>>)
    ensures ExtraTexts(a + [x]) == ExtraTexts(a) + if x.None? || x.value == [] then [] else [ExtraText(x.value)]
  {
    if a == [] {
      assert a + [x] == [x] && [x][1..] == [];
    } else {
      assert (a + [x])[1..] == a[1..] + [x] && (a + [x])[0] == a[0];
      ExtraTextsAppend(a[1..], x);
    }
  }

  method AppendItemBlock(b: Buffer, it: Item)
    requires b.Valid() && it.Item?
    modifies b
    ensures b.Valid() && b.cmds == old(b.cmds) + SayAll(ItemTexts(it))
  {
    hide ItemRow, Bytes, ExtraText;
    b.Append(Say(DASHES));
    b.Append(Say(ItemRow(it)));
    ghost var front := [DASHES, ItemRow(it)];
    assert b.cmds == old(b.cmds) + SayAll(front);
    var i := 0;
    while i < |it.extras|
      invariant b.Valid() && 0 <= i <= |it.extras|
      invariant b.cmds == old(b.cmds) + SayAll(front + ExtraTexts(it.extras[..i]))
    {
      ghost var said := front + ExtraTexts(it.extras[..i]);
      var x := it.extras[i];
      ExtraTextsAppend(it.extras[..i], x);
      assert it.extras[..i + 1] == it.extras[..i] + [x];
      i := i + 1;
      if x.None? || x.value == [] {
        continue;
      }
      SayAllConcat(said, [ExtraText(x.value)]);
      assert said + [ExtraText(x.value)] == front + ExtraTexts(it.extras[..i]);
      b.Append(Say(ExtraText(x.value)));
    }
    assert it.extras[..i] == it.extras;
  }

  lemma {:induction false} ItemsTextsAppend(a: seq<Item>, it: Item)
    ensures ItemsTexts(a + [it]) == ItemsTexts(a) + ItemTexts(it)
  {
    hide ItemTexts;
    if a == [] {
      assert a + [it] == [it] && [it][1..] == [];
    } else {
      assert (a + [it])[1..] == a[1..] + [it] && (a + [it])[0] == a[0];
      ItemsTextsAppend(a[1..], it);
    }
  }

  method AppendHead(b: Buffer, o: Order)
    requires b.Valid() && b.cmds == []
    modifies b
    ensures b.Valid() && b.cmds == HeadCmds(o)
  {
    hide Row, Bytes, Title, TableLine, ShortId, Created;
    b.AppendAll([Init, SelectPage, Align(1), Say(RULE)]);
    b.AppendAll([Size(0x11), Say(Title(o)), Size(0), Say(RULE)]);
    b.AppendAll([Align(0), Say(Created(o) + NEWLINE), Say(ShortId(o) + NEWLINE)]);
    b.AppendAll([Size(0x01), Say(TableLine(o)), Size(0), Say(DASHES)]);
    b.AppendAll([Bold(true), Say(HeaderRow()), Bold(false), Say(DASHES)]);
  }

  method BuildOrderLike(kitchen: bool, tenant: seq<Byte>, receipt: Option<Order>) returns (r: Option<seq<Byte>>)
    ensures r == if receipt.None? then None else Some(Bytes(OrderCmds(receipt.value.(kitchen := kitchen, tenant := tenant))))
  {
    hide Row, Bytes, HeadCmds, ItemTotal, TotalText, PriceText, ItemTexts;
    if receipt.None? {
      return None;
    }
    var o := receipt.value.(kitchen := kitchen, tenant := tenant);
    var b := new Buffer();
    AppendHead(b, o);
    var total := 0.0;
    var i := 0;
    while i < |o.items|
      invariant b.Valid() && 0 <= i <= |o.items|
      invariant total == Sum(o.items[..i])
      invariant b.cmds == HeadCmds(o) + SayAll(ItemsTexts(o.items[..i]))
    {
      var it := o.items[i];
      assert o.items[..i + 1] == o.items[..i] + [it];
      SumAppend(o.items[..i], it);
      ItemsTextsAppend(o.items[..i], it);
      SayAllConcat(ItemsTexts(o.items[..i]), ItemTexts(it));
      i := i + 1;
      if it.Skipped? {
        assert SayAll(ItemTexts(it)) == [] by { SkippedSilent(it); }
        continue;
      }
      total := total + ItemTotal(it);
      AppendItemBlock(b, it);
    }
    assert o.items[..i] == o.items;
    ghost var sofar := b.cmds;
    b.AppendAll([Size(0x10), Say(Ascii("TOTAL: ") + PriceText(total)), Size(0)]);
    assert Ascii("TOTAL: ") + PriceText(total) == TotalText(o) by { TotalTextIs(o); }
    if o.footer != [] {
      b.Append(Say(NEWLINE + o.footer));
    }
    b.AppendAll([FeedLines, CutPaper]);
    assert b.cmds == sofar + TailCmds(o);
    r := Some(b.bytes);
  }

  lemma TotalTextIs(o: Order)
    ensures TotalText(o) == Ascii("TOTAL: ") + PriceText(Sum(o.items))
  {
  }

  lemma SkippedSilent(it: Item)
    requires it.Skipped?
    ensures SayAll(ItemTexts(it)) == []
  {
  }

  /** The items that get a printed block. */
  function Blocks(items: seq<Item>): seq<Item> {
    if items == [] then [] else (if items[0].Item? then [items[0]] else []) + Blocks(items[1..])
  }

  /** The total is the sum over exactly the items that got a printed block. */
  lemma {:induction false} TotalCountsBlocks(items: seq<Item>)
    ensures forall i :: 0 <= i < |Blocks(items)| ==> Blocks(items)[i].Item?
    ensures ItemsTexts(items) == ItemsTexts(Blocks(items))
    ensures Sum(items) == Sum(Blocks(items)) && Money.Printed(items) == |Blocks(items)|
  {
    hide ItemRow, ItemTotal, ExtraTexts;
    if items != [] {
      TotalCountsBlocks(items[1..]);
      if items[0].Item? {
        assert Blocks(items)[1..] == Blocks(items[1..]);
      } else {
        assert Blocks(items) == Blocks(items[1..]);
      }
    }
  }

  method BuildTestPrint(now: seq<Byte>) returns (r: seq<Byte>)
    ensures r == Bytes(TestCmds(now))
  {
    hide Bytes, Ascii;
    var b := new Buffer();
    b.AppendAll([Init, SelectPage, Align(1), Bold(true)]);
    b.AppendAll([Say(Ascii("OrderPy Testdruck")), Bold(false), Say(Ascii("Testseite")), Align(0)]);
    b.AppendAll([Raw([]), Raw(SHORT_DASHES)]);
    b.AppendAll(SayAll([Ascii("Datum/Zeit: ") + now, Ascii("Drucker-Status: OK"), Ascii("Verbindung erfolgreich.")]));
    b.AppendAll([Raw([]), Raw(SHORT_DASHES), FeedLines, CutPaper]);
    assert b.cmds == TestCmds(now);
    r := b.bytes;
  }

  method BuildServiceCall(table: seq<Byte>, payment: bool, now: seq<Byte>) returns (r: seq<Byte>)
    ensures r == Bytes(ServiceCmds(table, payment, now))
  {
    hide Bytes, Ascii;
    var reason := Ascii("Sonstiges");
    if payment {
      reason := Ascii("Bezahlung");
    }
    var b := new Buffer();
    b.AppendAll([Init, SelectPage, Align(1), Say(RULE)]);
    b.AppendAll([Size(0x11), Say(Ascii("KELLNER RUFEN")), Size(0), Say(RULE)]);
    b.AppendAll([Align(0), Say([]), Bold(true)]);
    b.AppendAll(SayAll([Ascii("Tisch: ") + table, Ascii("Grund: ") + reason]));
    b.AppendAll([Bold(false)]);
    b.AppendAll(SayAll([[], now, [], DASHES]));
    b.AppendAll([FeedLines, CutPaper]);
    assert b.cmds == ServiceCmds(table, payment, now);
    r := b.bytes;
  }

  method BuildPosReceipt(raw: Base64, receipt: Option<Order>) returns (r: Option<seq<Byte>>)
    ensures r == match raw
      case Decoded(bytes) => Some(bytes)
      case Undecodable => None
      case Missing => if receipt.None? then None else Some(Bytes(OrderCmds(receipt.value.(kitchen := false))))
  {
    hide Bytes, OrderCmds;
    match raw
    case Decoded(bytes) =>
      r := Some(bytes);
    case Undecodable =>
      r := None;
    case Missing =>
      r := BuildOrderLike(false, if receipt.Some? then receipt.value.tenant else [], receipt);
  }

  method BuildLogoProvision(image: Base64, prelude: Base64) returns (r: Option<seq<Byte>>)
    ensures r == match image
      case Decoded(bytes) => Some(bytes)
      case Undecodable => None
      case Missing => if prelude.Decoded? then Some(prelude.bytes) else None
  {
    var raw := image;
    if raw.Missing? {
      raw := prelude;
    }
    r := if raw.Decoded? then Some(raw.bytes) else None;
  }

  /** The bytes the message brings along, or else those of its commands; otherwise an error. */
  method Render(msg: Message, now: seq<Byte>) returns (r: Option<seq<Byte>>)
    ensures r ==
      if RawBytes(msg).Some? then RawBytes(msg)
      else match MessageCmds(msg, now) case Some(cmds) => Some(Bytes(cmds)) case None => None
    ensures r == match msg
      case TestPrint => Some(Bytes(TestCmds(now)))
      case ServiceCall(table, payment) => Some(Bytes(ServiceCmds(table, payment, now)))
      case OrderLike(kitchen, tenant, Some(o)) =>
        Some(Bytes(OrderCmds(o.(kitchen := kitchen, tenant := if TrimSpace(o.tenant) == [] then tenant else o.tenant))))
      case PosReceipt(Decoded(bytes), _) => Some(bytes)
      case PosReceipt(Missing, Some(o)) => Some(Bytes(OrderCmds(o.(kitchen := false))))
      case LogoProvision(Decoded(bytes), _) => Some(bytes)
      case LogoProvision(Missing, Decoded(bytes)) => Some(bytes)
      case _ => None
  {
    hide Bytes, TestCmds, ServiceCmds, OrderCmds, TrimSpace;
    match msg
    case TestPrint =>
      var bytes := BuildTestPrint(now);
      r := Some(bytes);
    case ServiceCall(table, payment) =>
      var bytes := BuildServiceCall(table, payment, now);
      r := Some(bytes);
    case OrderLike(kitchen, tenant, receipt) =>
      var tn := tenant;
      if receipt.Some? && TrimSpace(receipt.value.tenant) != [] {
        tn := receipt.value.tenant;
      }
      r := BuildOrderLike(kitchen, tn, receipt);
    case PosReceipt(raw, receipt) =>
      r := BuildPosReceipt(raw, receipt);
    case LogoProvision(image, prelude) =>
      r := BuildLogoProvision(image, prelude);
    case UnknownKind =>
      r := None;
  }
}
