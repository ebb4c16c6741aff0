/**
 * What a receipt looks like on paper, line by line and independently of any command, and the proof that a printer that
 * runs the rendered bytes prints exactly that.
 */
module ReceiptPaper {
  import opened Basics
  import opened Utf8
  import opened CodePage858
  import opened Cells
  import opened EscPos
  import opened Money
  import opened Receipts

  // ----- the layouts -----

  const LEFT: Byte := 0
  const CENTRE: Byte := 1
  const NORMAL: Byte := 0
  const TALL: Byte := 0x01
  const WIDE: Byte := 0x10
  const DOUBLE: Byte := 0x11

  function Text(align: Byte, bold: bool, size: Byte, s: seq<Byte>): Styled {
    Styled(align, bold, size, Visible(s))
  }

  function Texts(align: Byte, bold: bool, size: Byte, texts: seq<seq<Byte>>): seq<Styled> {
    seq(|texts|, i requires 0 <= i < |texts| => Text(align, bold, size, texts[i]))
  }

  const DASHED: Styled := Styled(LEFT, false, NORMAL, Repeat(0x2D, 32))
  const EMPTY: Styled := Styled(LEFT, false, NORMAL, [])

  function TestLayout(now: seq<Byte>): seq<Styled> {
    [Text(CENTRE, true, NORMAL, Ascii("OrderPy Testdruck")), Text(CENTRE, false, NORMAL, Ascii("Testseite"))]
    + [EMPTY, DASHED]
    + Texts(LEFT, false, NORMAL, [Ascii("Datum/Zeit: ") + now, Ascii("Drucker-Status: OK"), Ascii("Verbindung erfolgreich.")])
    + [EMPTY, DASHED]
  }

  function ServiceLayout(table: seq<Byte>, payment: bool, now: seq<Byte>): seq<Styled> {
    [Text(CENTRE, false, NORMAL, RULE)]
    + [Text(CENTRE, false, DOUBLE, Ascii("KELLNER RUFEN")), Text(CENTRE, false, NORMAL, RULE)]
    + [Text(LEFT, false, NORMAL, [])]
    + Texts(LEFT, true, NORMAL, [Ascii("Tisch: ") + table, Ascii("Grund: ") + if payment then Ascii("Bezahlung") else Ascii("Sonstiges")])
    + Texts(LEFT, false, NORMAL, [[], now, [], DASHES])
  }

  function HeadLayout(o: Order): seq<Styled> {
    [Text(CENTRE, false, NORMAL, RULE)]
    + [Text(CENTRE, false, DOUBLE, Title(o)), Text(CENTRE, false, NORMAL, RULE)]
    + [Text(LEFT, false, NORMAL, Created(o) + NEWLINE), Text(LEFT, false, NORMAL, ShortId(o) + NEWLINE)]
    + [Text(LEFT, false, TALL, TableLine(o)), Text(LEFT, false, NORMAL, DASHES)]
    + [Text(LEFT, true, NORMAL, HeaderRow()), Text(LEFT, false, NORMAL, DASHES)]
  }

  function OrderLayout(o: Order): seq<Styled> {
    HeadLayout(o)
    + Texts(LEFT, false, NORMAL, ItemsTexts(o.items))
    + [Text(LEFT, false, WIDE, TotalText(o))]
    + Texts(LEFT, false, NORMAL, if o.footer == [] then [] else [NEWLINE + o.footer])
  }

  function MessageLayout(msg: Message, now: seq<Byte>): seq<Styled>
    requires MessageCmds(msg, now).Some?
  {
    match msg
    case TestPrint => TestLayout(now)
    case ServiceCall(table, payment) => ServiceLayout(table, payment, now)
    case _ => OrderLayout(OrderOf(msg).value)
  }

  /** The printer after a receipt: left-aligned, not bold, normal size, nothing pending, six lines fed, paper cut. */
  function After(p: Printer, layout: seq<Styled>): Printer {
    Printer(LEFT, false, NORMAL, PAGE_858, [], p.paper + Paper(layout) + [Fed(6), CutHere])
  }

  // ----- inputs without control characters -----

  predicate CleanItem(it: Item) {
    it.Item? ==> Clean(Squeeze(it.name)) && forall i :: 0 <= i < |it.extras| && it.extras[i].Some? ==> Clean(it.extras[i].value)
  }

  predicate CleanOrder(o: Order) {
    && Clean(TrimSpace(o.tenant)) && Clean(Created(o)) && Clean(ShortId(o)) && Clean(o.table) && Clean(o.correlation)
    && Clean(o.footer) && forall i :: 0 <= i < |o.items| ==> CleanItem(o.items[i])
  }

  predicate CleanMessage(msg: Message, now: seq<Byte>) {
    Clean(now) && match msg
      case ServiceCall(table, _) => Clean(table)
      case _ => OrderOf(msg).Some? ==> CleanOrder(OrderOf(msg).value)
  }

  // ----- what short command lists do -----

  /** The commands take the printer from p to q and print the layout. */
  ghost predicate Prints(p: Printer, cmds: seq<Cmd>, layout: seq<Styled>, q: Printer) {
    ApplyAll(p, cmds) == q && q.paper == p.paper + Paper(layout) && q.pending == [] && q.page == PAGE_858
  }

  lemma Compose(p: Printer, c1: seq<Cmd>, l1: seq<Styled>, q: Printer, c2: seq<Cmd>, l2: seq<Styled>, r: Printer)
    requires Prints(p, c1, l1, q) && Prints(q, c2, l2, r)
    ensures Prints(p, c1 + c2, l1 + l2, r)
  {
    hide ApplyAll, Paper;
    ApplyConcat(p, c1, c2);
    PaperConcat(l1, l2);
    AppendAssociates(p.paper, Paper(l1), Paper(l2));
  }

  /** A printer in a style, with some paper out. */
  function In(align: Byte, bold: bool, size: Byte, paper: seq<PaperItem>): Printer {
    Printer(align, bold, size, PAGE_858, [], paper)
  }

  lemma PaperOfOne(st: Styled)
    ensures Paper([st]) == PaperFor(st)
  {
    assert [st][1..] == [];
  }

  lemma ApplyOne(p: Printer, c: Cmd)
    ensures ApplyAll(p, [c]) == Apply(p, c)
  {
    assert [c][1..] == [];
  }

  /** A command that only sets the style. */
  lemma SetPrints(p: Printer, c: Cmd)
    requires p.pending == [] && p.page == PAGE_858 && (c.Align? || c.Bold? || c.Size?)
    ensures Prints(p, [c], [], Apply(p, c))
  {
    ApplyOne(p, c);
  }

  lemma SayPrintsOne(p: Printer, text: seq<Byte>)
    requires p.pending == [] && p.page == PAGE_858
    ensures var st := Text(p.align, p.bold, p.size, text);
      Prints(p, [Say(text)], [st], p.(paper := p.paper + PaperFor(st)))
  {
    hide Apply, PaperFor, Visible;
    ApplyOne(p, Say(text));
    SayPrints(p, text);
    PaperOfOne(Text(p.align, p.bold, p.size, text));
  }

  /** Set a style, then say a text in it. */
  lemma SetAndSay(p: Printer, c: Cmd, text: seq<Byte>)
    requires p.pending == [] && p.page == PAGE_858 && (c.Align? || c.Bold? || c.Size?)
    ensures var q := Apply(p, c); var st := Text(q.align, q.bold, q.size, text);
      Prints(p, [c, Say(text)], [st], q.(paper := q.paper + PaperFor(st)))
  {
    hide PaperFor, Visible, ApplyAll;
    var q := Apply(p, c);
    var st := Text(q.align, q.bold, q.size, text);
    SetPrints(p, c);
    SayPrintsOne(q, text);
    Compose(p, [c], [], q, [Say(text)], [st], q.(paper := q.paper + PaperFor(st)));
    assert [c] + [Say(text)] == [c, Say(text)];
    assert [] + [st] == [st];
  }

  /** Any state, as ESC @ leaves it, with the code page selected. */
  lemma StartPrints(p: Printer)
    ensures Prints(p, [Init, SelectPage], [], In(LEFT, false, NORMAL, p.paper))
  {
    var q := Apply(p, Init);
    ApplyOne(q, SelectPage);
    assert [Init, SelectPage][1..] == [SelectPage];
  }

  lemma {:induction false} SayAllPrints(p: Printer, texts: seq<seq<Byte>>)
    requires p.pending == [] && p.page == PAGE_858
    ensures var layout := Texts(p.align, p.bold, p.size, texts);
      Prints(p, SayAll(texts), layout, p.(paper := p.paper + Paper(layout)))
    decreases |texts|
  {
    hide ApplyAll, PaperFor, Visible;
    if texts == [] {
      NothingPrints(p);
      assert SayAll(texts) == [] && Texts(p.align, p.bold, p.size, texts) == [];
    } else {
      var st := Text(p.align, p.bold, p.size, texts[0]);
      var q := p.(paper := p.paper + PaperFor(st));
      var rest := Texts(p.align, p.bold, p.size, texts[1..]);
      SayPrintsOne(p, texts[0]);
      SayAllPrints(q, texts[1..]);
      Compose(p, [Say(texts[0])], [st], q, SayAll(texts[1..]), rest, q.(paper := q.paper + Paper(rest)));
      assert [Say(texts[0])] + SayAll(texts[1..]) == SayAll(texts);
      assert [st] + rest == Texts(p.align, p.bold, p.size, texts);
      PaperConcat([st], rest);
    }
  }

  lemma NothingPrints(p: Printer)
    requires p.pending == [] && p.page == PAGE_858
    ensures Prints(p, [], [], p)
  {
    assert p.paper + [] == p.paper;
  }

  /** In ASCII the octets are the runes. */
  lemma RawPrints(p: Printer, bytes: seq<Byte>)
    requires p.pending == [] && p.page == PAGE_858
    requires forall i :: 0 <= i < |bytes| ==> 0x20 <= bytes[i] < 0x80
    ensures var st := Styled(p.align, p.bold, p.size, bytes); Prints(p, [Raw(bytes)], [st], p.(paper := p.paper + PaperFor(st)))
  {
    hide PutAll;
    var st := Styled(p.align, p.bold, p.size, bytes);
    ApplyOne(p, Raw(bytes));
    PutLines(p, st, [], bytes, bytes);
    PaperOfOne(st);
  }

  lemma EndApplies(p: Printer)
    requires p.pending == []
    ensures ApplyAll(p, [FeedLines, CutPaper]) == p.(paper := p.paper + [Fed(6), CutHere])
  {
    var q := Apply(p, FeedLines);
    assert [FeedLines, CutPaper][1..] == [CutPaper];
    ApplyOne(q, CutPaper);
    assert q.paper + [CutHere] == p.paper + [Fed(6), CutHere];
  }

  /** A body that prints a layout and comes back to the plain style, followed by feed and cut. */
  lemma EndPrints(p: Printer, body: seq<Cmd>, layout: seq<Styled>, q: Printer)
    requires Prints(p, body, layout, q) && q == In(LEFT, false, NORMAL, q.paper)
    ensures ApplyAll(p, body + [FeedLines, CutPaper]) == After(p, layout)
  {
    hide ApplyAll, Paper;
    ApplyConcat(p, body, [FeedLines, CutPaper]);
    EndApplies(q);
  }

  // ----- the three receipts -----

  lemma TestPrints(p: Printer, now: seq<Byte>)
    ensures ApplyAll(p, TestCmds(now)) == After(p, TestLayout(now))
  {
    hide ApplyAll, Paper, PaperFor, Visible, Ascii, Prints;
    var texts := [Ascii("Datum/Zeit: ") + now, Ascii("Drucker-Status: OK"), Ascii("Verbindung erfolgreich.")];
    var t1, t2 := Text(CENTRE, true, NORMAL, Ascii("OrderPy Testdruck")), Text(CENTRE, false, NORMAL, Ascii("Testseite"));
    var p1, q1 := StartCentred(p, Bold(true), Ascii("OrderPy Testdruck"));
    var q2 := q1.(bold := false, paper := q1.paper + PaperFor(t2));
    SetAndSay(q1, Bold(false), Ascii("Testseite"));
    Compose(p, p1, [t1], q1, [Bold(false), Say(Ascii("Testseite"))], [t2], q2);
    var c2 := p1 + [Bold(false), Say(Ascii("Testseite"))];
    var q3 := q2.(align := LEFT);
    SetPrints(q2, Align(LEFT));
    Compose(p, c2, [t1] + [t2], q2, [Align(LEFT)], [], q3);
    var c3 := c2 + [Align(LEFT)];
    var q4 := RulesPrint(q3);
    Compose(p, c3, [t1] + [t2] + [], q3, [Raw([]), Raw(SHORT_DASHES)], [EMPTY, DASHED], q4);
    var c4, l4 := c3 + [Raw([]), Raw(SHORT_DASHES)], [t1] + [t2] + [] + [EMPTY, DASHED];
    SayAllPrints(q4, texts);
    var l5 := Texts(LEFT, false, NORMAL, texts);
    var q5 := q4.(paper := q4.paper + Paper(l5));
    Compose(p, c4, l4, q4, SayAll(texts), l5, q5);
    var q6 := RulesPrint(q5);
    Compose(p, c4 + SayAll(texts), l4 + l5, q5, [Raw([]), Raw(SHORT_DASHES)], [EMPTY, DASHED], q6);
    var body := c4 + SayAll(texts) + [Raw([]), Raw(SHORT_DASHES)];
    EndPrints(p, body, l4 + l5 + [EMPTY, DASHED], q6);
    assert body + [FeedLines, CutPaper] == TestCmds(now);
    assert l4 + l5 + [EMPTY, DASHED] == TestLayout(now);
  }

  /** The common start: reset, code page, centred, then one more setting and a text. */
  lemma StartCentred(p: Printer, c: Cmd, text: seq<Byte>) returns (cmds: seq<Cmd>, q: Printer)
    requires c.Bold? || c.Size?
    ensures var st := Text(CENTRE, c == Bold(true), if c.Size? then c.n else NORMAL, text);
      && cmds == [Init, SelectPage, Align(CENTRE), c, Say(text)]
      && q == In(CENTRE, st.bold, st.size, p.paper + PaperFor(st))
      && Prints(p, cmds, [st], q)
  {
    hide ApplyAll, Paper, PaperFor, Visible;
    var p1 := In(LEFT, false, NORMAL, p.paper);
    var p2 := p1.(align := CENTRE);
    var st := Text(CENTRE, c == Bold(true), if c.Size? then c.n else NORMAL, text);
    StartPrints(p);
    SetPrints(p1, Align(CENTRE));
    Compose(p, [Init, SelectPage], [], p1, [Align(CENTRE)], [], p2);
    SetAndSay(p2, c, text);
    q := In(CENTRE, st.bold, st.size, p.paper + PaperFor(st));
    Compose(p, [Init, SelectPage] + [Align(CENTRE)], [] + [], p2, [c, Say(text)], [st], q);
    cmds := [Init, SelectPage] + [Align(CENTRE)] + [c, Say(text)];
    assert [] + [] + [st] == [st];
  }

  lemma RulesPrint(p: Printer) returns (q: Printer)
    requires p == In(LEFT, false, NORMAL, p.paper)
    ensures Prints(p, [Raw([]), Raw(SHORT_DASHES)], [EMPTY, DASHED], q)
    ensures q == In(LEFT, false, NORMAL, q.paper)
  {
    hide ApplyAll, Paper, PaperFor;
    var p1 := p.(paper := p.paper + PaperFor(EMPTY));
    RawPrints(p, []);
    RawPrints(p1, SHORT_DASHES);
    q := p1.(paper := p1.paper + PaperFor(DASHED));
    assert Styled(LEFT, false, NORMAL, SHORT_DASHES) == DASHED by { assert SHORT_DASHES == Repeat(0x2D, 32); }
    Compose(p, [Raw([])], [EMPTY], p1, [Raw(SHORT_DASHES)], [DASHED], q);
    assert [Raw([])] + [Raw(SHORT_DASHES)] == [Raw([]), Raw(SHORT_DASHES)];
    assert [EMPTY] + [DASHED] == [EMPTY, DASHED];
  }

  /** The framed title that starts a service call and an order. */
  lemma FramedTitle(p: Printer, title: seq<Byte>) returns (q: Printer)
    ensures Prints(p, [Init, SelectPage, Align(1), Say(RULE)] + [Size(0x11), Say(title), Size(0), Say(RULE)],
                   [Text(CENTRE, false, NORMAL, RULE)] + [Text(CENTRE, false, DOUBLE, title), Text(CENTRE, false, NORMAL, RULE)], q)
    ensures q == In(CENTRE, false, NORMAL, q.paper)
  {
    hide ApplyAll, Paper, PaperFor, Visible, Repeat;
    var p1 := In(LEFT, false, NORMAL, p.paper);
    StartPrints(p);
    var rule, big := Text(CENTRE, false, NORMAL, RULE), Text(CENTRE, false, DOUBLE, title);
    var p2 := In(CENTRE, false, NORMAL, p1.paper + PaperFor(rule));
    SetAndSay(p1, Align(1), RULE);
    Compose(p, [Init, SelectPage], [], p1, [Align(1), Say(RULE)], [rule], p2);
    var p3 := In(CENTRE, false, DOUBLE, p2.paper + PaperFor(big));
    SetAndSay(p2, Size(0x11), title);
    q := In(CENTRE, false, NORMAL, p3.paper + PaperFor(rule));
    SetAndSay(p3, Size(0), RULE);
    Compose(p2, [Size(0x11), Say(title)], [big], p3, [Size(0), Say(RULE)], [rule], q);
    assert [Size(0x11), Say(title)] + [Size(0), Say(RULE)] == [Size(0x11), Say(title), Size(0), Say(RULE)];
    assert [big] + [rule] == [big, rule];
    assert [Init, SelectPage] + [Align(1), Say(RULE)] == [Init, SelectPage, Align(1), Say(RULE)];
    assert [] + [rule] == [rule];
    Compose(p, [Init, SelectPage, Align(1), Say(RULE)], [rule], p2, [Size(0x11), Say(title), Size(0), Say(RULE)], [big, rule], q);
  }

  lemma ServicePrints(p: Printer, table: seq<Byte>, payment: bool, now: seq<Byte>)
    ensures ApplyAll(p, ServiceCmds(table, payment, now)) == After(p, ServiceLayout(table, payment, now))
  {
    hide ApplyAll, Paper, PaperFor, Visible, Ascii, Repeat, Prints, Text, Texts, SayAll;
    var title := Ascii("KELLNER RUFEN");
    var bold := [Ascii("Tisch: ") + table, Ascii("Grund: ") + if payment then Ascii("Bezahlung") else Ascii("Sonstiges")];
    var plain := [[], now, [], DASHES];
    var c1 := [Init, SelectPage, Align(1), Say(RULE)] + [Size(0x11), Say(title), Size(0), Say(RULE)];
    var l1 := [Text(CENTRE, false, NORMAL, RULE)] + [Text(CENTRE, false, DOUBLE, title), Text(CENTRE, false, NORMAL, RULE)];
    var q1 := FramedTitle(p, title);
    var empty := Text(LEFT, false, NORMAL, []);
    var q2 := In(LEFT, false, NORMAL, q1.paper + PaperFor(empty));
    SetAndSay(q1, Align(0), []);
    Compose(p, c1, l1, q1, [Align(0), Say([])], [empty], q2);
    var q3 := q2.(bold := true);
    SetPrints(q2, Bold(true));
    Compose(p, c1 + [Align(0), Say([])], l1 + [empty], q2, [Bold(true)], [], q3);
    var c3, l3 := c1 + [Align(0), Say([])] + [Bold(true)], l1 + [empty] + [];
    SayAllPrints(q3, bold);
    var q4 := q3.(paper := q3.paper + Paper(Texts(LEFT, true, NORMAL, bold)));
    Compose(p, c3, l3, q3, SayAll(bold), Texts(LEFT, true, NORMAL, bold), q4);
    var c4, l4 := c3 + SayAll(bold), l3 + Texts(LEFT, true, NORMAL, bold);
    var q5 := q4.(bold := false);
    SetPrints(q4, Bold(false));
    Compose(p, c4, l4, q4, [Bold(false)], [], q5);
    SayAllPrints(q5, plain);
    var q6 := q5.(paper := q5.paper + Paper(Texts(LEFT, false, NORMAL, plain)));
    Compose(p, c4 + [Bold(false)], l4 + [], q5, SayAll(plain), Texts(LEFT, false, NORMAL, plain), q6);
    var body, layout := c4 + [Bold(false)] + SayAll(plain), l4 + [] + Texts(LEFT, false, NORMAL, plain);
    EndPrints(p, body, layout, q6);
    assert body + [FeedLines, CutPaper] == ServiceCmds(table, payment, now);
    assert layout == ServiceLayout(table, payment, now);
  }

  lemma HeadPrints(p: Printer, o: Order) returns (q: Printer)
    ensures Prints(p, HeadCmds(o), HeadLayout(o), q) && q == In(LEFT, false, NORMAL, q.paper)
  {
    hide ApplyAll, Paper, PaperFor, Visible, Ascii, Repeat, Prints, Text, Title, TableLine, ShortId, Created, Row;
    var c1 := [Init, SelectPage, Align(1), Say(RULE)] + [Size(0x11), Say(Title(o)), Size(0), Say(RULE)];
    var l1 := [Text(CENTRE, false, NORMAL, RULE)] + [Text(CENTRE, false, DOUBLE, Title(o)), Text(CENTRE, false, NORMAL, RULE)];
    var q1 := FramedTitle(p, Title(o));
    var q2 := TwoTexts(q1, Align(0), Created(o) + NEWLINE, ShortId(o) + NEWLINE);
    var c2 := [Align(0), Say(Created(o) + NEWLINE), Say(ShortId(o) + NEWLINE)];
    var l2 := [Text(LEFT, false, NORMAL, Created(o) + NEWLINE), Text(LEFT, false, NORMAL, ShortId(o) + NEWLINE)];
    Compose(p, c1, l1, q1, c2, l2, q2);
    var q3 := SetSaySetSay(q2, Size(0x01), TableLine(o), Size(0), DASHES);
    var c3 := [Size(0x01), Say(TableLine(o)), Size(0), Say(DASHES)];
    var l3 := [Text(LEFT, false, TALL, TableLine(o)), Text(LEFT, false, NORMAL, DASHES)];
    Compose(p, c1 + c2, l1 + l2, q2, c3, l3, q3);
    q := SetSaySetSay(q3, Bold(true), HeaderRow(), Bold(false), DASHES);
    var c4 := [Bold(true), Say(HeaderRow()), Bold(false), Say(DASHES)];
    var l4 := [Text(LEFT, true, NORMAL, HeaderRow()), Text(LEFT, false, NORMAL, DASHES)];
    Compose(p, c1 + c2 + c3, l1 + l2 + l3, q3, c4, l4, q);
  }

  lemma TwoTexts(p: Printer, c: Cmd, s: seq<Byte>, t: seq<Byte>) returns (q: Printer)
    requires p.pending == [] && p.page == PAGE_858 && c.Align?
    ensures Prints(p, [c, Say(s), Say(t)], [Text(c.a, p.bold, p.size, s), Text(c.a, p.bold, p.size, t)], q)
    ensures q == In(c.a, p.bold, p.size, q.paper)
  {
    hide ApplyAll, Paper, PaperFor, Visible;
    var st, tt := Text(c.a, p.bold, p.size, s), Text(c.a, p.bold, p.size, t);
    var p1 := In(c.a, p.bold, p.size, p.paper + PaperFor(st));
    SetAndSay(p, c, s);
    SayPrintsOne(p1, t);
    q := In(c.a, p.bold, p.size, p1.paper + PaperFor(tt));
    Compose(p, [c, Say(s)], [st], p1, [Say(t)], [tt], q);
    assert [c, Say(s)] + [Say(t)] == [c, Say(s), Say(t)] && [st] + [tt] == [st, tt];
  }

  lemma SetSaySetSay(p: Printer, c: Cmd, s: seq<Byte>, d: Cmd, t: seq<Byte>) returns (q: Printer)
    requires p.pending == [] && p.page == PAGE_858 && (c.Bold? || c.Size?) && (d.Bold? || d.Size?)
    ensures var p1, p2 := Apply(p, c), Apply(Apply(p, c), d);
      && Prints(p, [c, Say(s), d, Say(t)], [Text(p1.align, p1.bold, p1.size, s), Text(p2.align, p2.bold, p2.size, t)], q)
      && q == In(p2.align, p2.bold, p2.size, q.paper)
  {
    hide ApplyAll, Paper, PaperFor, Visible;
    var p1, p2 := Apply(p, c), Apply(Apply(p, c), d);
    var st, tt := Text(p1.align, p1.bold, p1.size, s), Text(p2.align, p2.bold, p2.size, t);
    var r := p1.(paper := p1.paper + PaperFor(st));
    SetAndSay(p, c, s);
    SetAndSay(r, d, t);
    q := In(p2.align, p2.bold, p2.size, r.paper + PaperFor(tt));
    Compose(p, [c, Say(s)], [st], r, [d, Say(t)], [tt], q);
    assert [c, Say(s)] + [d, Say(t)] == [c, Say(s), d, Say(t)] && [st] + [tt] == [st, tt];
  }

  lemma OrderPrints(p: Printer, o: Order)
    ensures ApplyAll(p, OrderCmds(o)) == After(p, OrderLayout(o))
  {
    hide ApplyAll, Paper, PaperFor, Visible, Ascii, Prints, Text, Texts, SayAll, HeadCmds, HeadLayout, ItemsTexts, TotalText;
    var items, footer := ItemsTexts(o.items), if o.footer == [] then [] else [NEWLINE + o.footer];
    var q1 := HeadPrints(p, o);
    SayAllPrints(q1, items);
    var q2 := q1.(paper := q1.paper + Paper(Texts(LEFT, false, NORMAL, items)));
    Compose(p, HeadCmds(o), HeadLayout(o), q1, SayAll(items), Texts(LEFT, false, NORMAL, items), q2);
    var c2, l2 := HeadCmds(o) + SayAll(items), HeadLayout(o) + Texts(LEFT, false, NORMAL, items);
    var total := Text(LEFT, false, WIDE, TotalText(o));
    var q3 := In(LEFT, false, WIDE, q2.paper + PaperFor(total));
    SetAndSay(q2, Size(0x10), TotalText(o));
    Compose(p, c2, l2, q2, [Size(0x10), Say(TotalText(o))], [total], q3);
    var c3, l3 := c2 + [Size(0x10), Say(TotalText(o))], l2 + [total];
    var q4 := q3.(size := NORMAL);
    SetPrints(q3, Size(0));
    Compose(p, c3, l3, q3, [Size(0)], [], q4);
    SayAllPrints(q4, footer);
    var q5 := q4.(paper := q4.paper + Paper(Texts(LEFT, false, NORMAL, footer)));
    Compose(p, c3 + [Size(0)], l3 + [], q4, SayAll(footer), Texts(LEFT, false, NORMAL, footer), q5);
    var body, layout := c3 + [Size(0)] + SayAll(footer), l3 + [] + Texts(LEFT, false, NORMAL, footer);
    EndPrints(p, body, layout, q5);
    assert body + [FeedLines, CutPaper] == OrderCmds(o);
    assert layout == OrderLayout(o);
  }

  // ----- clean inputs make clean commands -----

  lemma CleanConcat(a: seq<Byte>, b: seq<Byte>)
    requires Clean(a) && Clean(b)
    ensures Clean(a + b)
  {
  }

  lemma CleanAscii(s: string)
    requires forall i :: 0 <= i < |s| ==> ' ' <= s[i] <= '~'
    ensures Clean(Ascii(s))
  {
  }

  lemma CleanLiterals()
    ensures Clean(RULE) && Clean(DASHES) && Clean(SHORT_DASHES) && Clean(NEWLINE) && Clean([0x20] + EURO_SIGN)
    ensures Clean(Ascii("BESTELLUNG")) && Clean(Ascii("#")) && Clean(Ascii("?"))
    ensures Clean(Ascii("Au")) && Clean(Ascii("er Haus")) && Clean(Ascii("Tisch: #")) && Clean(Ascii("K")) && Clean(Ascii("che "))
    ensures Clean(Ascii(" (Drinnen)")) && Clean(Ascii(" (Drau")) && Clean(Ascii("en)"))
    ensures Clean([0xC3, 0x9F]) && Clean([0xC3, 0xBC]) && Clean([0xC3, 0xA4])
  {
    CleanAscii("BESTELLUNG");
    CleanAscii("#");
    CleanAscii("?");
    CleanAscii("Au");
    CleanAscii("er Haus");
    CleanAscii("Tisch: #");
    CleanAscii("K");
    CleanAscii("che ");
    CleanAscii(" (Drinnen)");
    CleanAscii(" (Drau");
    CleanAscii("en)");
  }

  lemma CleanMoreLiterals()
    ensures Clean(Ascii("OrderPy Testdruck")) && Clean(Ascii("Testseite")) && Clean(Ascii("Datum/Zeit: "))
    ensures Clean(Ascii("Drucker-Status: OK")) && Clean(Ascii("Verbindung erfolgreich."))
    ensures Clean(Ascii("KELLNER RUFEN")) && Clean(Ascii("Tisch: ")) && Clean(Ascii("Grund: "))
    ensures Clean(Ascii("Bezahlung")) && Clean(Ascii("Sonstiges")) && Clean(Ascii("TOTAL: ")) && Clean(Ascii("  + "))
    ensures Clean(Ascii("Anz")) && Clean(Ascii("Produkt")) && Clean(Ascii("Zus")) && Clean(Ascii("tze")) && Clean(Ascii("Preis"))
  {
    hide Clean, Ascii;
    CleanAscii("OrderPy Testdruck");
    CleanAscii("Testseite");
    CleanAscii("Datum/Zeit: ");
    CleanAscii("Drucker-Status: OK");
    CleanAscii("Verbindung erfolgreich.");
    CleanAscii("KELLNER RUFEN");
    CleanAscii("Tisch: ");
    CleanAscii("Grund: ");
    CleanAscii("Bezahlung");
    CleanAscii("Sonstiges");
    CleanAscii("TOTAL: ");
    CleanAscii("  + ");
    CleanAscii("Anz");
    CleanAscii("Produkt");
    CleanAscii("Zus");
    CleanAscii("tze");
    CleanAscii("Preis");
  }

  lemma {:induction false} FieldsClean(s: seq<Byte>, field: seq<Byte>)
    requires Clean(s) && Clean(field)
    ensures forall i :: 0 <= i < |Fields(s, field)| ==> Clean(Fields(s, field)[i])
  {
    if s != [] {
      var n := Utf8.Size(s);
      CleanConcat(field, s[..n]);
      FieldsClean(s[n..], if IsSpace(First(s)) then [] else field + s[..n]);
    }
  }

  lemma {:induction false} JoinClean(fields: seq<seq<Byte>>)
    requires forall i :: 0 <= i < |fields| ==> Clean(fields[i])
    ensures Clean(Join(fields))
  {
    if |fields| > 1 {
      assert Clean(fields[0]);
      JoinClean(fields[1..]);
    }
  }

  lemma SqueezeClean(s: seq<Byte>)
    requires Clean(s)
    ensures Clean(Squeeze(s))
  {
    FieldsClean(s, []);
    JoinClean(Fields(s, []));
  }

  lemma CellClean(s: seq<Byte>, width: nat, leftAlign: bool)
    requires Clean(Squeeze(s))
    ensures Clean(Cell(s, width, leftAlign))
  {
    hide Squeeze, Decode;
  }

  lemma RowClean(count: seq<Byte>, product: seq<Byte>, extras: seq<Byte>, price: seq<Byte>)
    requires Clean(Squeeze(count)) && Clean(Squeeze(product)) && Clean(Squeeze(extras)) && Clean(Squeeze(price))
    ensures Clean(Row(count, product, extras, price))
  {
    hide Squeeze, Cell;
    CellClean(count, COL_COUNT, false);
    CellClean(product, COL_PRODUCT, true);
    CellClean(extras, COL_EXTRAS, true);
    CellClean(price, COL_PRICE, false);
  }

  lemma PriceClean(x: real)
    ensures Clean(PriceText(x))
  {
    CleanLiterals();
    CleanAscii(Fixed2(x));
  }

  lemma ItemTextsClean(it: Item)
    requires CleanItem(it)
    ensures forall i :: 0 <= i < |ItemTexts(it)| ==> Clean(ItemTexts(it)[i])
  {
    hide Row, Squeeze, Clean, PriceText;
    CleanLiterals();
    if it.Item? {
      CountClean(Trunc(it.quantity));
      PriceClean(ItemTotal(it));
      SqueezeClean(PriceText(ItemTotal(it)));
      EmptyClean();
      RowClean(Ascii(Decimal.Print(Trunc(it.quantity)) + "x"), it.name, [], PriceText(ItemTotal(it)));
      ExtrasClean(it.extras);
    }
  }

  lemma EmptyClean()
    ensures Clean(Squeeze([]))
  {
  }

  lemma CountClean(n: int)
    ensures Clean(Squeeze(Ascii(Decimal.Print(n) + "x")))
  {
    CleanAscii(Decimal.Print(n) + "x");
    SqueezeClean(Ascii(Decimal.Print(n) + "x"));
  }

  lemma {:induction false} ExtrasClean(extras: seq<Option<seq<Byte>>>)
    requires forall i :: 0 <= i < |extras| && extras[i].Some? ==> Clean(extras[i].value)
    ensures forall i :: 0 <= i < |ExtraTexts(extras)| ==> Clean(ExtraTexts(extras)[i])
  {
    if extras != [] {
      ExtrasClean(extras[1..]);
      if extras[0].Some? {
        assert Clean(extras[0].value);
        CleanMoreLiterals();
        CleanConcat(Ascii("  + "), extras[0].value);
      }
    }
  }

  lemma {:induction false} ItemsClean(items: seq<Item>)
    requires forall i :: 0 <= i < |items| ==> CleanItem(items[i])
    ensures forall i :: 0 <= i < |ItemsTexts(items)| ==> Clean(ItemsTexts(items)[i])
  {
    hide ItemTexts, Clean;
    if items != [] {
      assert CleanItem(items[0]);
      ItemTextsClean(items[0]);
      ItemsClean(items[1..]);
    }
  }

  ghost predicate CleanCmds(cmds: seq<Cmd>) {
    forall i :: 0 <= i < |cmds| ==> CleanCmd(cmds[i])
  }

  lemma CleanSayAll(texts: seq<seq<Byte>>)
    requires forall i :: 0 <= i < |texts| ==> Clean(texts[i])
    ensures CleanCmds(SayAll(texts))
  {
  }

  lemma HeaderClean()
    ensures Clean(HeaderRow())
  {
    hide Ascii, Row, Squeeze, Clean;
    CleanLiterals();
    CleanMoreLiterals();
    SqueezeClean(Ascii("Anz"));
    SqueezeClean(Ascii("Produkt"));
    CleanConcat(Ascii("Zus"), [0xC3, 0xA4]);
    CleanConcat(Ascii("Zus") + [0xC3, 0xA4], Ascii("tze"));
    SqueezeClean(Ascii("Zus") + [0xC3, 0xA4] + Ascii("tze"));
    SqueezeClean(Ascii("Preis"));
    RowClean(Ascii("Anz"), Ascii("Produkt"), Ascii("Zus") + [0xC3, 0xA4] + Ascii("tze"), Ascii("Preis"));
  }

  lemma TitleClean(o: Order)
    requires CleanOrder(o)
    ensures Clean(Title(o))
  {
    hide Ascii, TrimSpace, ShortId, Created;
    CleanLiterals();
  }

  lemma TableClean(o: Order)
    requires CleanOrder(o)
    ensures Clean(TableLine(o))
  {
    hide Ascii, TrimSpace, ShortId, Created;
    CleanLiterals();
  }

  lemma HeadTextsClean(o: Order)
    requires CleanOrder(o)
    ensures Clean(Title(o)) && Clean(ShortId(o) + NEWLINE) && Clean(TableLine(o)) && Clean(HeaderRow())
  {
    hide Ascii, Clean, TrimSpace, ShortId, Created, Title, TableLine, HeaderRow;
    CleanLiterals();
    CleanConcat(ShortId(o), NEWLINE);
    TitleClean(o);
    TableClean(o);
    HeaderClean();
  }

  lemma OrderCmdsClean(o: Order)
    requires CleanOrder(o)
    ensures CleanCmds(OrderCmds(o))
  {
    hide Ascii, Row, Clean, Title, TableLine, ShortId, Created, ItemsTexts, SayAll, Repeat;
    HeadTextsClean(o);
    CleanLiterals();
    CleanMoreLiterals();
    CleanConcat(Created(o), NEWLINE);
    ItemsClean(o.items);
    CleanSayAll(ItemsTexts(o.items));
    PriceClean(Sum(o.items));
    CleanConcat(Ascii("TOTAL: "), PriceText(Sum(o.items)));
    CleanConcat(NEWLINE, o.footer);
    CleanSayAll(if o.footer == [] then [] else [NEWLINE + o.footer]);
    assert CleanCmds(HeadCmds(o));
    assert CleanCmds(TailCmds(o));
  }

  lemma MessageCmdsClean(msg: Message, now: seq<Byte>)
    requires CleanMessage(msg, now) && MessageCmds(msg, now).Some?
    ensures CleanCmds(MessageCmds(msg, now).value)
  {
    hide Ascii, Clean, OrderCmds, SayAll, Repeat, OrderOf;
    CleanLiterals();
    CleanMoreLiterals();
    assert Clean([]) by { NothingClean(); }
    match msg
    case TestPrint =>
      CleanConcat(Ascii("Datum/Zeit: "), now);
      CleanSayAll([Ascii("Datum/Zeit: ") + now, Ascii("Drucker-Status: OK"), Ascii("Verbindung erfolgreich.")]);
    case ServiceCall(table, payment) =>
      CleanConcat(Ascii("Tisch: "), table);
      CleanConcat(Ascii("Grund: "), if payment then Ascii("Bezahlung") else Ascii("Sonstiges"));
      CleanSayAll([Ascii("Tisch: ") + table, Ascii("Grund: ") + if payment then Ascii("Bezahlung") else Ascii("Sonstiges")]);
      CleanSayAll([[], now, [], DASHES]);
    case _ =>
      OrderCmdsClean(OrderOf(msg).value);
  }

  lemma NothingClean()
    ensures Clean([])
  {
  }

  // ----- the round trip -----

  /**
   * A printer in any state that runs a rendered receipt prints its layout, feeds six lines and cuts, and ends
   * left-aligned, not bold and at normal size; what follows the receipt is run from there.
   */
  lemma RenderRoundTrip(msg: Message, now: seq<Byte>, p: Printer, rest: seq<Byte>)
    requires CleanMessage(msg, now) && MessageCmds(msg, now).Some?
    ensures Exec(p, Bytes(MessageCmds(msg, now).value) + rest) == Exec(After(p, MessageLayout(msg, now)), rest)
  {
    hide Exec, Bytes, CleanMessage, CleanCmd, After, ApplyAll, TestCmds, ServiceCmds, OrderCmds, TestLayout, ServiceLayout, OrderLayout,
      OrderOf;
    var cmds := MessageCmds(msg, now).value;
    MessageCmdsClean(msg, now);
    ExecCmds(p, cmds, rest);
    match msg
    case TestPrint => TestPrints(p, now);
    case ServiceCall(table, payment) => ServicePrints(p, table, payment, now);
    case _ => OrderPrints(p, OrderOf(msg).value);
  }

  const FRESH: Printer := Printer(LEFT, false, NORMAL, 0, [], [])

  /** The paper that comes out when the printer runs the bytes. */
  function Output(p: Printer, s: seq<Byte>): Option<seq<PaperItem>> {
    match Exec(p, s) case Some(q) => Some(q.paper) case None => None
  }

  /** Two receipts sent one after the other to any printer come out as each would alone from a fresh one. */
  lemma ReceiptsAreIndependent(a: Message, b: Message, now: seq<Byte>, later: seq<Byte>, p: Printer)
    requires CleanMessage(a, now) && MessageCmds(a, now).Some?
    requires CleanMessage(b, later) && MessageCmds(b, later).Some?
    ensures var first, second := Bytes(MessageCmds(a, now).value), Bytes(MessageCmds(b, later).value);
      && Output(FRESH, first).Some? && Output(FRESH, second).Some?
      && Output(p, first + second) == Some(p.paper + Output(FRESH, first).value + Output(FRESH, second).value)
  {
    hide Bytes, Paper, CleanMessage, MessageCmds, MessageLayout, Exec;
    var first, second := Bytes(MessageCmds(a, now).value), Bytes(MessageCmds(b, later).value);
    var one, two := MessageLayout(a, now), MessageLayout(b, later);
    RenderRoundTrip(a, now, p, second);
    RenderRoundTrip(b, later, After(p, one), []);
    RenderRoundTrip(a, now, FRESH, []);
    RenderRoundTrip(b, later, FRESH, []);
    assert first + [] == first && second + [] == second;
    NothingRuns(After(After(p, one), two));
    NothingRuns(After(FRESH, one));
    NothingRuns(After(FRESH, two));
    assert [] + Paper(one) + [Fed(6), CutHere] == Paper(one) + [Fed(6), CutHere];
    assert [] + Paper(two) + [Fed(6), CutHere] == Paper(two) + [Fed(6), CutHere];
    assert Output(FRESH, first) == Some(Paper(one) + [Fed(6), CutHere]);
    assert Output(FRESH, second) == Some(Paper(two) + [Fed(6), CutHere]);
    assert Output(p, first + second) == Some(p.paper + Paper(one) + [Fed(6), CutHere] + Paper(two) + [Fed(6), CutHere]);
    AppendAssociates(p.paper, Paper(one), [Fed(6), CutHere]);
    AppendAssociates(p.paper + (Paper(one) + [Fed(6), CutHere]), Paper(two), [Fed(6), CutHere]);
  }

  lemma NothingRuns(p: Printer)
    ensures Exec(p, []) == Some(p)
  {
  }

  /** What the paper shows of an encodable text is the text. */
  lemma VisibleIsText(s: seq<Byte>)
    requires Encodable(s)
    ensures |Visible(s)| == |Decode(s)| && forall i :: 0 <= i < |Decode(s)| ==> Decode(s)[i] == Good(Visible(s)[i])
    ensures Unlines(Lines(Visible(s))) == Visible(s)
    ensures forall i :: 0 <= i < |Lines(Visible(s))| ==> 0x0A !in Lines(Visible(s))[i]
  {
    hide Decode, Code;
    assert forall i :: 0 <= i < |Decode(s)| ==> EncodableSym(Decode(s)[i]);
    LinesSplit([], Visible(s));
    assert [] + Visible(s) == Visible(s);
  }
}
