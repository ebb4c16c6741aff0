/** What comes out of the printers when all goroutines print receipts. */
module PrintedPaper {
  import opened Basics
  import opened Ops
  import opened Tasks
  import Interleaving
  import SharedPrinters
  import E = EscPos
  import R = Receipts
  import P = ReceiptPaper

  /** A message rendered at some time, to commands made of clean texts. */
  datatype Rendered = Rendered(msg: R.Message, now: seq<Byte>)

  ghost predicate Clean(r: Rendered) {
    P.CleanMessage(r.msg, r.now) && R.MessageCmds(r.msg, r.now).Some?
  }

  function BytesOf(r: Rendered): seq<Byte>
    requires R.MessageCmds(r.msg, r.now).Some?
  {
    E.Bytes(R.MessageCmds(r.msg, r.now).value)
  }

  function PaperOf(r: Rendered): seq<E.PaperItem>
    requires R.MessageCmds(r.msg, r.now).Some?
  {
    E.Paper(P.MessageLayout(r.msg, r.now)) + [E.Fed(6), E.CutHere]
  }

  ghost predicate AllClean(rs: seq<Rendered>) {
    forall i :: 0 <= i < |rs| ==> Clean(rs[i])
  }

  function Stream(rs: seq<Rendered>): seq<Byte>
    requires forall i :: 0 <= i < |rs| ==> R.MessageCmds(rs[i].msg, rs[i].now).Some?
  {
    if rs == [] then [] else BytesOf(rs[0]) + Stream(rs[1..])
  }

  function AllPaper(rs: seq<Rendered>): seq<E.PaperItem>
    requires forall i :: 0 <= i < |rs| ==> R.MessageCmds(rs[i].msg, rs[i].now).Some?
  {
    if rs == [] then [] else PaperOf(rs[0]) + AllPaper(rs[1..])
  }

  /** Left-aligned, not bold, normal size, on the right code page, nothing pending: as every receipt leaves a printer. */
  function Plain(paper: seq<E.PaperItem>): E.Printer {
    E.Printer(P.LEFT, false, P.NORMAL, E.PAGE_858, [], paper)
  }

  /** The printer after some receipts. */
  function AfterAll(p: E.Printer, rs: seq<Rendered>): E.Printer
    requires forall i :: 0 <= i < |rs| ==> R.MessageCmds(rs[i].msg, rs[i].now).Some?
  {
    if rs == [] then p else Plain(p.paper + AllPaper(rs))
  }

  /** Any number of receipts in a row come out one after the other, and what follows them is run from a plain printer. */
  lemma {:induction false} ReceiptsInARow(rs: seq<Rendered>, p: E.Printer, rest: seq<Byte>)
    requires AllClean(rs)
    ensures E.Exec(p, Stream(rs) + rest) == E.Exec(AfterAll(p, rs), rest)
    decreases |rs|
  {
    hide E.Exec, BytesOf, E.Paper, P.MessageLayout, R.MessageCmds, P.CleanMessage;
    if rs == [] {
      assert Stream(rs) + rest == rest;
    } else {
      var first, more := rs[0], rs[1..];
      assert Clean(first);
      var q := P.After(p, P.MessageLayout(first.msg, first.now));
      assert q == Plain(p.paper + PaperOf(first)) by { AppendAssociates(p.paper, E.Paper(P.MessageLayout(first.msg, first.now)), [E.Fed(6), E.CutHere]); }
      OneReceipt(first, p, Stream(more) + rest);
      assert Stream(rs) + rest == BytesOf(first) + (Stream(more) + rest);
      ReceiptsInARow(more, q, rest);
      AppendAssociates(p.paper, PaperOf(first), AllPaper(more));
      assert p.paper + PaperOf(first) + [] == p.paper + PaperOf(first) && PaperOf(first) + [] == PaperOf(first);
    }
  }

  lemma OneReceipt(r: Rendered, p: E.Printer, rest: seq<Byte>)
    requires Clean(r)
    ensures E.Exec(p, BytesOf(r) + rest) == E.Exec(P.After(p, P.MessageLayout(r.msg, r.now)), rest)
  {
    P.RenderRoundTrip(r.msg, r.now, p, rest);
  }

  /** The sends carry these receipts, and all of them succeed. */
  ghost predicate Carry(sends: seq<Task>, rs: seq<Rendered>) {
    |sends| == |rs| && forall i :: 0 <= i < |sends| ==>
      && sends[i].Send? && R.MessageCmds(rs[i].msg, rs[i].now).Some? && sends[i].payload.bytes == BytesOf(rs[i])
      && Transport.SendOk(sends[i].e, sends[i].payload.bytes, sends[i].net)
  }

  lemma {:induction false} WholeStream(sends: seq<Task>, rs: seq<Rendered>)
    requires Carry(sends, rs)
    requires forall i :: 0 <= i < |sends| ==> SharedPrinters.GetsThrough(sends[i], SharedPrinters.Got(sends[i]))
    ensures Concat(SharedPrinters.Contributions(sends)) == Stream(rs)
  {
    hide BytesOf, R.MessageCmds, Transport.SendOk, SharedPrinters.Got;
    if sends != [] {
      assert SharedPrinters.GetsThrough(sends[0], SharedPrinters.Got(sends[0])) && sends[0].payload.bytes == BytesOf(rs[0]);
      WholeStream(sends[1..], rs[1..]);
      assert SharedPrinters.Contributions(sends)[1..] == SharedPrinters.Contributions(sends[1..]);
    }
  }

  /**
   * In every reachable state, whoever sent what in whatever order: when the sends a printer has served carry clean
   * receipts and succeed, the printer has printed exactly those receipts, each whole, in the order they took its lock,
   * and is running the first part of the one that holds the lock, if any, from a plain state.
   */
  lemma PaperInLockOrder(s: Interleaving.System, key: string, rs: seq<Rendered>, p: E.Printer)
    returns (whole: nat, partial: seq<Byte>)
    requires Interleaving.Inv(s) && Carry(Interleaving.At(s.served, key), rs) && AllClean(rs)
    ensures whole <= |rs| && E.Exec(p, Interleaving.At(s.wire, key)) == E.Exec(AfterAll(p, rs[..whole]), partial)
    ensures if EndpointLock(key) !in s.owner then whole == |rs| && partial == []
      else whole == |rs| - 1 && partial <= BytesOf(rs[whole])
  {
    hide Interleaving.Inv, BytesOf, R.MessageCmds, E.Exec, AfterAll, Clean, Transport.SendOk, SharedPrinters.Got,
      SharedPrinters.Contributions;
    var served := Interleaving.At(s.served, key);
    var sends, rest := SharedPrinters.SendsAreAtomic(s, key);
    whole, partial := |sends|, rest;
    assert sends == served[..whole];
    assert Carry(sends, rs[..whole]);
    WholeStream(sends, rs[..whole]);
    ReceiptsInARow(rs[..whole], p, partial);
  }

  /** Between sends: exactly the receipts, one after the other. */
  lemma PaperWhenFree(s: Interleaving.System, key: string, rs: seq<Rendered>, p: E.Printer)
    requires Interleaving.Inv(s) && Carry(Interleaving.At(s.served, key), rs) && AllClean(rs)
    requires EndpointLock(key) !in s.owner
    ensures P.Output(p, Interleaving.At(s.wire, key)) == Some(p.paper + AllPaper(rs))
  {
    hide Interleaving.Inv, Clean, R.MessageCmds, BytesOf, PaperOf;
    var whole, partial := PaperInLockOrder(s, key, rs, p);
    assert rs[..whole] == rs;
    P.NothingRuns(AfterAll(p, rs));
    assert p.paper + [] == p.paper;
  }
}
