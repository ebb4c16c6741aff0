/** The session's own prints (internal/cloud/client.go): they go straight to printer.SendBytes, past the spooler. */
module CloudPrints {
  import opened Basics
  import opened Keys
  import opened Ops
  import opened Transport
  import opened Tasks
  import opened Registry

  /** A print_order or print_service_call message; `data` is None when there are no bytes or they do not decode. */
  datatype Order = Order(printerId: string, data: Option<seq<Byte>>)

  /** What is reported about an order. */
  datatype PrintReport = PrintReport(action: string, orderId: string)

  function EndpointOf(p: Printer): Endpoint { Endpoint(p.addr, p.port) }

  function SendTo(p: Printer, data: seq<Byte>, net: Net): Task { Send(EndpointOf(p), Raw(data), net) }

  /** One send after the other; the n-th one meets nets(n). */
  function SendAll(list: seq<Printer>, data: seq<Byte>, nets: nat -> Net): seq<Task> {
    if list == [] then []
    else SendAll(list[..|list| - 1], data, nets) + [SendTo(list[|list| - 1], data, nets(|list| - 1))]
  }

  function Targets(list: seq<Printer>, id: string): seq<Printer> {
    if id == "" then list else Filter(list, id)
  }

  function OrderTasks(list: seq<Printer>, order: Order, nets: nat -> Net): seq<Task> {
    if order.data.None? then []
    else if Targets(list, order.printerId) == [] then [Copy]
    else [Copy] + SendAll(Targets(list, order.printerId), order.data.value, nets) + [Tell]
  }

  /** What is reported once the sends are done. */
  function ReportOf(orderId: string): PrintReport {
    PrintReport(if orderId == "" then "order_print_failed" else "order_printed", orderId)
  }

  /** handleLegacyPrintOrder. The report says printed whenever the order has an id, whatever became of the sends. */
  method HandlePrintOrder(printers: PrinterList, order: Order, orderId: string, nets: nat -> Net)
    returns (tasks: seq<Task>, report: Option<PrintReport>)
    requires printers.Valid()
    ensures tasks == OrderTasks(printers.Contents(), order, nets)
    ensures report.Some? <==> tasks != [] && tasks[|tasks| - 1] == Tell
    ensures report.Some? <==> order.data.Some? && Targets(printers.Contents(), order.printerId) != []
    ensures report.Some? ==> report.value == ReportOf(orderId)
    ensures report.Some? ==>
      report.value.orderId == orderId && report.value.action == if orderId != "" then "order_printed" else "order_print_failed"
  {
    tasks, report := [], None;
    if order.data.None? {
      return;
    }
    tasks := [Copy];
    var list := printers.Snapshot();
    var targets := FilterPrinters(list, order.printerId);
    if |targets| == 0 {
      return;
    }
    for i := 0 to |targets|
      invariant tasks == [Copy] + SendAll(targets[..i], order.data.value, nets)
    {
      assert targets[..i + 1][..i] == targets[..i];
      tasks := tasks + [SendTo(targets[i], order.data.value, nets(i))];
    }
    assert targets[..|targets|] == targets;
    tasks := tasks + [Tell];
    var action := "order_print_failed";
    if orderId != "" {
      action := "order_printed";
    }
    report := Some(PrintReport(action, orderId));
  }

  /** handleServiceCall: to every printer, and no report. */
  method HandleServiceCall(printers: PrinterList, order: Order, nets: nat -> Net) returns (tasks: seq<Task>)
    requires printers.Valid()
    ensures tasks == if order.data.None? then [] else [Copy] + SendAll(printers.Contents(), order.data.value, nets)
  {
    tasks := [];
    if order.data.None? {
      return;
    }
    tasks := [Copy];
    var list := printers.Snapshot();
    for i := 0 to list.Length
      invariant tasks == [Copy] + SendAll(list[..i], order.data.value, nets)
    {
      assert list[..i + 1][..i] == list[..i];
      tasks := tasks + [SendTo(list[i], order.data.value, nets(i))];
    }
    assert list[..list.Length] == list[..];
  }

  /** handlePrintTest. */
  method HandlePrintTest(addr: string, port: int, data: Option<seq<Byte>>, net: Net) returns (tasks: seq<Task>, ok: bool)
    ensures var e := Endpoint(addr, port);
      tasks == (if ValidEndpoint(e) && data.Some? then [Send(e, Raw(data.value), net)] else []) + [Tell]
    ensures ok == (data.Some? && SendOk(Endpoint(addr, port), data.value, net))
  {
    tasks, ok := [], false;
    if addr != "" && port >= 1 && port <= 65535 && data.Some? {
      tasks := [Send(Endpoint(addr, port), Raw(data.value), net)];
      ok := SendOk(Endpoint(addr, port), data.value, net);
    }
    tasks := tasks + [Tell];
  }

  // ----- who gets the bytes -----

  /** What the printers of the list at this key receive, in list order. */
  function Shares(key: string, list: seq<Printer>, data: seq<Byte>, nets: nat -> Net): seq<Byte> {
    if list == [] then []
    else
      var p := list[|list| - 1];
      Shares(key, list[..|list| - 1], data, nets)
      + if EndpointKey(EndpointOf(p)) == key then Contribution(EndpointOf(p), data, nets(|list| - 1)) else []
  }

  lemma {:induction false} SendAllDelivers(key: string, list: seq<Printer>, data: seq<Byte>, nets: nat -> Net)
    ensures Delivered(key, OpsOf(SendAll(list, data, nets))) == Shares(key, list, data, nets)
  {
    hide EndpointKey, SendOps, Delivered, Contribution;
    if list == [] {
      QuietDelivers(key, []);
    } else {
      var n := |list| - 1;
      var most, t := SendAll(list[..n], data, nets), SendTo(list[n], data, nets(n));
      SendAllDelivers(key, list[..n], data, nets);
      OpsOfSnoc(most, t);
      DeliveredConcat(key, OpsOf(most), TaskOps(t));
      LastShare(key, list[n], data, nets(n));
    }
  }

  lemma LastShare(key: string, p: Printer, data: seq<Byte>, net: Net)
    ensures Delivered(key, TaskOps(SendTo(p, data, net)))
         == if EndpointKey(EndpointOf(p)) == key then Contribution(EndpointOf(p), data, net) else []
  {
    hide EndpointKey, SendOps, Delivered;
    if EndpointKey(EndpointOf(p)) != key {
      ElsewhereQuiet(key, EndpointOf(p), data, net);
    }
  }

  lemma OrderShares(key: string, list: seq<Printer>, order: Order, nets: nat -> Net)
    requires order.data.Some?
    ensures Delivered(key, OpsOf(OrderTasks(list, order, nets))) == Shares(key, Targets(list, order.printerId), order.data.value, nets)
  {
    hide EndpointKey, Contribution, SendOps, Targets, Delivered, Shares;
    var targets := Targets(list, order.printerId);
    var sends := SendAll(targets, order.data.value, nets);
    SendAllDelivers(key, targets, order.data.value, nets);
    OpsOfOne(Copy);
    if targets == [] {
      assert sends == [] && OpsOf(sends) == [];
      QuietDelivers(key, OpsOf([Copy]));
      QuietDelivers(key, OpsOf(sends));
    } else {
      OpsOfSnoc([Copy] + sends, Tell);
      OpsOfConcat([Copy], sends);
      QuietAround(key, TaskOps(Copy), OpsOf(sends), TaskOps(Tell));
    }
  }

  /**
   * With distinct ids, an order for a named printer reaches the place registered under that name, with all of its bytes
   * when the send succeeds, and no other printer gets a byte of it.
   */
  lemma OrderReachesItsPrinter(list: seq<Printer>, order: Order, nets: nat -> Net, e: Endpoint)
    requires Distinct(list) && order.printerId != "" && order.data.Some?
    ensures var got := Delivered(EndpointKey(e), OpsOf(OrderTasks(list, order, nets)));
      if order.printerId in Table(list) && e == Endpoint(Table(list)[order.printerId].addr, Table(list)[order.printerId].port)
      then got <= order.data.value && (SendOk(e, order.data.value, nets(0)) ==> got == order.data.value)
      else got == []
  {
    hide EndpointKey, Contribution, SendOk, Distinct, Table, OrderTasks, Delivered;
    OrderShares(EndpointKey(e), list, order, nets);
    FilterIsLookup(list, order.printerId);
    var targets := Filter(list, order.printerId);
    if targets != [] {
      assert targets[..0] == [];
      EndpointKeyInjective(EndpointOf(targets[0]), e);
      SendDelivers(e, order.data.value, nets(0));
    }
  }

  /**
   * An order for no printer in particular reaches every printer of the list whose place no other one has, with all of
   * its bytes when its send succeeds.
   */
  lemma OrderReachesAll(list: seq<Printer>, order: Order, nets: nat -> Net, k: nat)
    requires order.printerId == "" && order.data.Some? && k < |list|
    requires forall i :: 0 <= i < |list| && i != k ==> list[i].addr != list[k].addr || list[i].port != list[k].port
    ensures var e := Endpoint(list[k].addr, list[k].port);
      var got := Delivered(EndpointKey(e), OpsOf(OrderTasks(list, order, nets)));
      got <= order.data.value && (SendOk(e, order.data.value, nets(k)) ==> got == order.data.value)
  {
    hide EndpointKey, Contribution, SendOk, OrderTasks, Delivered, Shares;
    var e := Endpoint(list[k].addr, list[k].port);
    OrderShares(EndpointKey(e), list, order, nets);
    OneShare(list, order.data.value, nets, k);
    SendDelivers(e, order.data.value, nets(k));
  }

  /** So does a service call. */
  lemma ServiceCallReachesAll(list: seq<Printer>, data: seq<Byte>, nets: nat -> Net, k: nat)
    requires k < |list|
    requires forall i :: 0 <= i < |list| && i != k ==> list[i].addr != list[k].addr || list[i].port != list[k].port
    ensures var e := Endpoint(list[k].addr, list[k].port);
      var got := Delivered(EndpointKey(e), OpsOf([Copy] + SendAll(list, data, nets)));
      got <= data && (SendOk(e, data, nets(k)) ==> got == data)
  {
    hide EndpointKey, Contribution, SendOk, Delivered, Shares, SendAll;
    var e := Endpoint(list[k].addr, list[k].port);
    var key := EndpointKey(e);
    OpsOfConcat([Copy], SendAll(list, data, nets));
    OpsOfOne(Copy);
    DeliveredConcat(key, OpsOf([Copy]), OpsOf(SendAll(list, data, nets)));
    QuietDelivers(key, OpsOf([Copy]));
    SendAllDelivers(key, list, data, nets);
    OneShare(list, data, nets, k);
    SendDelivers(e, data, nets(k));
  }

  lemma {:induction false} OneShare(list: seq<Printer>, data: seq<Byte>, nets: nat -> Net, k: nat)
    requires k < |list|
    requires forall i :: 0 <= i < |list| && i != k ==> list[i].addr != list[k].addr || list[i].port != list[k].port
    ensures var e := Endpoint(list[k].addr, list[k].port); Shares(EndpointKey(e), list, data, nets) == Contribution(e, data, nets(k))
  {
    hide EndpointKey, Contribution;
    var e, n := Endpoint(list[k].addr, list[k].port), |list| - 1;
    EndpointKeyInjective(EndpointOf(list[n]), e);
    if n > k {
      OneShare(list[..n], data, nets, k);
    } else {
      NoShare(list[..n], data, nets, e);
    }
  }

  lemma {:induction false} NoShare(list: seq<Printer>, data: seq<Byte>, nets: nat -> Net, e: Endpoint)
    requires forall i :: 0 <= i < |list| ==> list[i].addr != e.addr || list[i].port != e.port
    ensures Shares(EndpointKey(e), list, data, nets) == []
  {
    hide EndpointKey, Contribution;
    if list != [] {
      var n := |list| - 1;
      EndpointKeyInjective(EndpointOf(list[n]), e);
      NoShare(list[..n], data, nets, e);
    }
  }

  // ----- whether the report is right -----

  predicate AllSent(targets: seq<Printer>, data: seq<Byte>, nets: nat -> Net) {
    forall i :: 0 <= i < |targets| ==> SendOk(EndpointOf(targets[i]), data, nets(i))
  }

  /** Every target was given the whole receipt. */
  predicate AllGot(targets: seq<Printer>, data: seq<Byte>, nets: nat -> Net) {
    forall i :: 0 <= i < |targets| ==> Contribution(EndpointOf(targets[i]), data, nets(i)) == data
  }

  predicate SaysPrinted(report: PrintReport) { report.action == "order_printed" }

  /**
   * The report is right about an order with an id if and only if every send succeeded, and about one without if and only
   * if some send failed.
   */
  lemma ReportRight(targets: seq<Printer>, orderId: string, data: seq<Byte>, nets: nat -> Net)
    ensures var sent := AllSent(targets, data, nets);
      (SaysPrinted(ReportOf(orderId)) <==> sent) <==> if orderId != "" then sent else !sent
    ensures data != [] ==> (AllSent(targets, data, nets) <==> AllGot(targets, data, nets))
  {
    hide SendOk, Contribution;
    assert |"order_print_failed"| != |"order_printed"|;
    forall i | 0 <= i < |targets|
      ensures data != [] ==>
        (SendOk(EndpointOf(targets[i]), data, nets(i)) <==> Contribution(EndpointOf(targets[i]), data, nets(i)) == data)
    {
      SendDelivers(EndpointOf(targets[i]), data, nets(i));
    }
  }

  /** An order with an id whose printers all refuse the connection is reported as printed, and no printer gets a byte. */
  lemma PrintedWithoutPrinting(list: seq<Printer>, order: Order, orderId: string, key: string)
    requires order.data.Some? && Targets(list, order.printerId) != [] && orderId != ""
    ensures SaysPrinted(ReportOf(orderId))
    ensures Delivered(key, OpsOf(OrderTasks(list, order, RefuseAll))) == []
  {
    hide Delivered, OpsOf, OrderTasks, Shares;
    OrderShares(key, list, order, RefuseAll);
    NoShares(key, Targets(list, order.printerId), order.data.value);
  }

  function RefuseAll(n: nat): Net { Net(false, false, None) }

  lemma {:induction false} NoShares(key: string, list: seq<Printer>, data: seq<Byte>)
    ensures Shares(key, list, data, RefuseAll) == []
  {
    hide EndpointKey, Contribution;
    if list != [] {
      var p := list[|list| - 1];
      NoShares(key, list[..|list| - 1], data);
      SendDelivers(EndpointOf(p), data, RefuseAll(|list| - 1));
    }
  }
}
