/**
 * A receipt printer that understands the ESC/POS commands the renderer uses, and the commands themselves. Running the
 * printer on the bytes of a command list does what the commands say, one by one.
 */
module EscPos {
  import opened Basics
  import opened Utf8
  import opened CodePage858
  import opened Cells

  const ESC: Byte := 0x1B
  const GS: Byte := 0x1D
  const LF: Byte := 0x0A
  const PAGE_858: Byte := 19
  const FEED_BEFORE_CUT: Byte := 6

  // ----- the printer -----

  datatype Glyph = Glyph(rune: int, bold: bool, size: Byte)

  datatype PaperItem = Printed(align: Byte, glyphs: seq<Glyph>) | Fed(lines: Byte) | CutHere

  datatype Printer = Printer(align: Byte, bold: bool, size: Byte, page: Byte, pending: seq<Glyph>, paper: seq<PaperItem>)

  /** The rune shown for an octet under the selected code page; other pages are not described here. */
  function GlyphOf(p: Printer, b: Byte): Glyph {
    Glyph(if p.page == PAGE_858 then Shown(b) else b, p.bold, p.size)
  }

  /** One octet of text or a line feed. */
  function Put(p: Printer, b: Byte): Printer {
    if b == LF then p.(pending := [], paper := p.paper + [Printed(p.align, p.pending)])
    else p.(pending := p.pending + [GlyphOf(p, b)])
  }

  function Feed(p: Printer, n: Byte): Printer {
    p.(pending := [], paper := p.paper + (if p.pending == [] then [] else [Printed(p.align, p.pending)]) + [Fed(n)])
  }

  /** Runs the printer; None when the bytes hold a command that is unknown or incomplete. */
  function Exec(p: Printer, s: seq<Byte>): Option<Printer>
    decreases |s|
  {
    if s == [] then Some(p)
    else if s[0] == ESC then
      if |s| >= 2 && s[1] == 0x40 then Exec(p.(align := 0, bold := false, size := 0, page := 0, pending := []), s[2..])
      else if |s| < 3 then None
      else if s[1] == 0x74 then Exec(p.(page := s[2]), s[3..])
      else if s[1] == 0x45 then Exec(p.(bold := s[2] % 2 == 1), s[3..])
      else if s[1] == 0x61 then Exec(p.(align := s[2]), s[3..])
      else if s[1] == 0x64 then Exec(Feed(p, s[2]), s[3..])
      else None
    else if s[0] == GS then
      if |s| < 3 then None
      else if s[1] == 0x21 then Exec(p.(size := s[2]), s[3..])
      else if s[1] == 0x56 && s[2] == 0 then Exec(p.(paper := p.paper + [CutHere]), s[3..])
      else None
    else if s[0] < 0x20 && s[0] != LF then None
    else Exec(Put(p, s[0]), s[1..])
  }

  // ----- the commands -----

  datatype Cmd =
    | Init
    | SelectPage
    | Align(a: Byte)
    | Bold(on: bool)
    | Size(n: Byte)
    | Say(text: seq<Byte>)   // line(text)
    | Raw(bytes: seq<Byte>)  // bytes and a line feed, not encoded
    | FeedLines
    | CutPaper

  function CmdBytes(c: Cmd): seq<Byte> {
    match c
    case Init => [ESC, 0x40]
    case SelectPage => [ESC, 0x74, PAGE_858]
    case Align(a) => [ESC, 0x61, a]
    case Bold(on) => [ESC, 0x45, if on then 1 else 0]
    case Size(n) => [GS, 0x21, n]
    case Say(text) => Line(text)
    case Raw(bytes) => bytes + [LF]
    case FeedLines => [ESC, 0x64, FEED_BEFORE_CUT]
    case CutPaper => [GS, 0x56, 0]
  }

  function Bytes(cmds: seq<Cmd>): seq<Byte> {
    if cmds == [] then [] else CmdBytes(cmds[0]) + Bytes(cmds[1..])
  }

  function PutAll(p: Printer, s: seq<Byte>): Printer
    decreases |s|
  {
    if s == [] then p else PutAll(Put(p, s[0]), s[1..])
  }

  /** What a command means. */
  function Apply(p: Printer, c: Cmd): Printer {
    match c
    case Init => p.(align := 0, bold := false, size := 0, page := 0, pending := [])
    case SelectPage => p.(page := PAGE_858)
    case Align(a) => p.(align := a)
    case Bold(on) => p.(bold := on)
    case Size(n) => p.(size := n)
    case Say(text) => PutAll(p, Line(text))
    case Raw(bytes) => PutAll(p, bytes + [LF])
    case FeedLines => Feed(p, FEED_BEFORE_CUT)
    case CutPaper => p.(paper := p.paper + [CutHere])
  }

  function ApplyAll(p: Printer, cmds: seq<Cmd>): Printer
    decreases |cmds|
  {
    if cmds == [] then p else ApplyAll(Apply(p, cmds[0]), cmds[1..])
  }

  lemma {:induction false} ApplyConcat(p: Printer, a: seq<Cmd>, b: seq<Cmd>)
    ensures ApplyAll(p, a + b) == ApplyAll(ApplyAll(p, a), b)
    decreases |a|
  {
    hide Apply;
    if a == [] {
      assert a + b == b;
    } else {
      assert (a + b)[1..] == a[1..] + b && (a + b)[0] == a[0];
      ApplyConcat(Apply(p, a[0]), a[1..], b);
    }
  }

  lemma {:induction false} BytesConcat(a: seq<Cmd>, b: seq<Cmd>)
    ensures Bytes(a + b) == Bytes(a) + Bytes(b)
  {
    hide CmdBytes;
    if a == [] {
      assert a + b == b;
    } else {
      assert (a + b)[1..] == a[1..] + b && (a + b)[0] == a[0];
      BytesConcat(a[1..], b);
    }
  }

  // ----- clean text stays text -----

  /** No control characters except line feeds. */
  predicate Clean(s: seq<Byte>) {
    forall i :: 0 <= i < |s| ==> s[i] >= 0x20 || s[i] == LF
  }

  lemma {:induction false} EncodeClean(s: seq<Byte>)
    requires Clean(s)
    ensures Encode(s).Some? ==> Clean(Encode(s).value)
  {
    hide Code;
    if s != [] && EncodableSym(First(s)) {
      EncodeClean(s[Utf8.Size(s)..]);
      ShownCode(First(s).rune);
      assert First(s).rune >= 0x20 || First(s).rune == 0x0A by {
        if s[0] >= 0x80 { HighRune(s); }
      }
    }
  }

  lemma HighRune(s: seq<Byte>)
    requires s != [] && s[0] >= 0x80 && Complete(s)
    ensures RuneAt(s) >= 0x80
  {
  }

  lemma {:induction false} ToValidClean(s: seq<Byte>, invalid: bool)
    requires Clean(s)
    ensures Clean(ToValid(s, invalid))
  {
    if s != [] {
      if Complete(s) {
        ToValidClean(s[Utf8.Size(s)..], false);
      } else {
        ToValidClean(s[1..], true);
      }
    }
  }

  lemma Encode858Clean(s: seq<Byte>)
    requires Clean(s)
    ensures Clean(Encode858(s))
  {
    EncodeClean(s);
    ToValidClean(s, false);
    EncodeClean(ToValid(s, false));
  }

  lemma {:induction false} ExecText(p: Printer, text: seq<Byte>, rest: seq<Byte>)
    requires Clean(text)
    ensures Exec(p, text + rest) == Exec(PutAll(p, text), rest)
    decreases |text|
  {
    hide Put;
    if text == [] {
      assert text + rest == rest;
    } else {
      assert (text + rest)[1..] == text[1..] + rest && (text + rest)[0] == text[0];
      ExecText(Put(p, text[0]), text[1..], rest);
    }
  }

  predicate CleanCmd(c: Cmd) {
    (c.Say? ==> Clean(c.text)) && (c.Raw? ==> Clean(c.bytes))
  }

  lemma ExecCmd(p: Printer, c: Cmd, rest: seq<Byte>)
    requires CleanCmd(c)
    ensures Exec(p, CmdBytes(c) + rest) == Exec(Apply(p, c), rest)
  {
    hide Encode858, PutAll;
    var s := CmdBytes(c) + rest;
    match c
    case Say(text) =>
      Encode858Clean(text);
      ExecText(p, Line(text), rest);
    case Raw(bytes) =>
      ExecText(p, bytes + [LF], rest);
    case Init =>
      assert s[2..] == rest;
    case _ =>
      assert s[3..] == rest;
  }

  /** Running the bytes of clean commands does what the commands mean, and leaves what follows them untouched. */
  lemma {:induction false} ExecCmds(p: Printer, cmds: seq<Cmd>, rest: seq<Byte>)
    requires forall i :: 0 <= i < |cmds| ==> CleanCmd(cmds[i])
    ensures Exec(p, Bytes(cmds) + rest) == Exec(ApplyAll(p, cmds), rest)
    decreases |cmds|
  {
    hide CmdBytes, Apply, Exec;
    if cmds == [] {
      assert Bytes(cmds) + rest == rest;
    } else {
      assert CleanCmd(cmds[0]);
      ExecCmd(p, cmds[0], Bytes(cmds[1..]) + rest);
      AppendAssociates(CmdBytes(cmds[0]), Bytes(cmds[1..]), rest);
      ExecCmds(Apply(p, cmds[0]), cmds[1..], rest);
    }
  }

  // ----- lines of text -----

  /** The runes a text shows on paper: its own when the code page has them all. */
  function Visible(s: seq<Byte>): seq<int> {
    Runes(if Encodable(s) then Decode(s) else if GoodOnesEncodable(Decode(s)) then Collapse(Decode(s), false) else [])
  }

  function Runes(ys: seq<Sym>): seq<int> {
    seq(|ys|, i requires 0 <= i < |ys| => if ys[i].Good? then ys[i].rune else 0x3F)
  }

  /** Splits at line feeds, with the runes of the line being collected. */
  function LinesFrom(cur: seq<int>, runes: seq<int>): seq<seq<int>>
    decreases |runes|
  {
    if runes == [] then [cur]
    else if runes[0] == 0x0A then [cur] + LinesFrom([], runes[1..])
    else LinesFrom(cur + [runes[0]], runes[1..])
  }

  function Lines(runes: seq<int>): seq<seq<int>> { LinesFrom([], runes) }

  function Unlines(lines: seq<seq<int>>): seq<int> {
    if lines == [] then [] else if |lines| == 1 then lines[0] else lines[0] + [0x0A] + Unlines(lines[1..])
  }

  /** The pieces hold no line feed, and joined by line feeds they are the text. */
  lemma {:induction false} LinesSplit(cur: seq<int>, runes: seq<int>)
    requires 0x0A !in cur
    ensures LinesFrom(cur, runes) != [] && Unlines(LinesFrom(cur, runes)) == cur + runes
    ensures forall i :: 0 <= i < |LinesFrom(cur, runes)| ==> 0x0A !in LinesFrom(cur, runes)[i]
    decreases |runes|
  {
    if runes != [] {
      if runes[0] == 0x0A {
        LinesSplit([], runes[1..]);
        assert LinesFrom(cur, runes)[1..] == LinesFrom([], runes[1..]);
        assert cur + runes == cur + [0x0A] + ([] + runes[1..]);
      } else {
        LinesSplit(cur + [runes[0]], runes[1..]);
        assert cur + runes == cur + [runes[0]] + runes[1..];
      }
    }
  }

  /** A text and how all of it is printed. */
  datatype Styled = Styled(align: Byte, bold: bool, size: Byte, runes: seq<int>)

  function GlyphsOf(st: Styled, runes: seq<int>): seq<Glyph> {
    seq(|runes|, i requires 0 <= i < |runes| => Glyph(runes[i], st.bold, st.size))
  }

  function PrintLines(st: Styled, lines: seq<seq<int>>): seq<PaperItem> {
    seq(|lines|, i requires 0 <= i < |lines| => Printed(st.align, GlyphsOf(st, lines[i])))
  }

  /** The paper a styled text comes out as. */
  function PaperFor(st: Styled): seq<PaperItem> { PrintLines(st, Lines(st.runes)) }

  function Paper(layout: seq<Styled>): seq<PaperItem> {
    if layout == [] then [] else PaperFor(layout[0]) + Paper(layout[1..])
  }

  lemma {:induction false} PaperConcat(a: seq<Styled>, b: seq<Styled>)
    ensures Paper(a + b) == Paper(a) + Paper(b)
  {
    hide PaperFor;
    if a == [] {
      assert a + b == b;
    } else {
      assert (a + b)[1..] == a[1..] + b && (a + b)[0] == a[0];
      PaperConcat(a[1..], b);
    }
  }

  /** The printer is set to the style of the text. */
  predicate SetTo(p: Printer, st: Styled) {
    p.align == st.align && p.bold == st.bold && p.size == st.size && p.page == PAGE_858
  }

  lemma {:induction false} PutLines(p: Printer, st: Styled, cur: seq<int>, s: seq<Byte>, runes: seq<int>)
    requires SetTo(p, st) && p.pending == GlyphsOf(st, cur)
    requires |s| == |runes| && forall i :: 0 <= i < |s| ==> runes[i] == Shown(s[i]) && (runes[i] == 0x0A <==> s[i] == LF)
    ensures PutAll(p, s + [LF]) == p.(pending := [], paper := p.paper + PrintLines(st, LinesFrom(cur, runes)))
    decreases |s|
  {
    hide Shown;
    var all := s + [LF];
    if s == [] {
      assert all == [LF] && all[1..] == [];
      assert PutAll(p, all) == Put(p, LF);
      assert PrintLines(st, [cur]) == [Printed(st.align, GlyphsOf(st, cur))];
    } else {
      assert all[1..] == s[1..] + [LF] && all[0] == s[0];
      var p' := Put(p, s[0]);
      if s[0] == LF {
        PutLines(p', st, [], s[1..], runes[1..]);
        var rest := LinesFrom([], runes[1..]);
        assert PrintLines(st, [cur] + rest) == [Printed(st.align, GlyphsOf(st, cur))] + PrintLines(st, rest);
        AppendAssociates(p.paper, [Printed(st.align, GlyphsOf(st, cur))], PrintLines(st, rest));
      } else {
        assert GlyphsOf(st, cur + [runes[0]]) == GlyphsOf(st, cur) + [GlyphOf(p, s[0])];
        PutLines(p', st, cur + [runes[0]], s[1..], runes[1..]);
      }
    }
  }

  /** The printer shows, octet by octet, what is visible of the text. */
  lemma EncodedShows(s: seq<Byte>)
    ensures |Encode858(s)| == |Visible(s)|
    ensures forall i :: 0 <= i < |Visible(s)| ==>
      Visible(s)[i] == Shown(Encode858(s)[i]) && (Visible(s)[i] == 0x0A <==> Encode858(s)[i] == LF)
  {
    hide Encode, Decode, ToValid, Code, Shown, Collapse;
    EncodeShows(s);
    EncodeShows(ToValid(s, false));
    DecodeToValid(s, false);
    ReplacedEncodable(s);
  }

  /** Saying a text prints its visible lines in the current style. */
  lemma SayPrints(p: Printer, text: seq<Byte>)
    requires p.page == PAGE_858 && p.pending == []
    ensures Apply(p, Say(text)) == p.(paper := p.paper + PaperFor(Styled(p.align, p.bold, p.size, Visible(text))))
  {
    hide Encode858, Visible, Shown;
    var st := Styled(p.align, p.bold, p.size, Visible(text));
    EncodedShows(text);
    PutLines(p, st, [], Encode858(text), Visible(text));
  }
}
