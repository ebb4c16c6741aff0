/** The session's printer list (internal/cloud/client.go): a slice that config messages overwrite in place. */
module Registry {
  import opened Basics

  datatype Printer = Printer(id: string, addr: string, port: int)

  const DEFAULT_PORT := 9100

  /** An object of a "printers" array; texts that are missing or not texts are empty, a port may be missing. */
  datatype Entry = Entry(id: string, address: string, port: Option<int>)

  /** The elements of such an array; None is one that is not an object. */
  type Raw = seq<Option<Entry>>

  function PrinterOf(e: Entry): Printer {
    Printer(e.id, e.address, if e.port.Some? then e.port.value else DEFAULT_PORT)
  }

  function Parsed(raw: Raw): seq<Printer> {
    if raw == [] then []
    else Parsed(raw[..|raw| - 1]) + if raw[|raw| - 1].Some? then [PrinterOf(raw[|raw| - 1].value)] else []
  }

  /** Element by element and in order: objects keep id, address and port, 9100 by default; anything else is skipped. */
  lemma {:induction false} ParsedIs(a: Raw, b: Raw, e: Entry)
    ensures Parsed(a + b) == Parsed(a) + Parsed(b)
    ensures Parsed([None]) == []
    ensures Parsed([Some(e)]) == [Printer(e.id, e.address, match e.port case Some(port) => port case None => 9100)]
  {
    var none: Raw, one: Raw := [None], [Some(e)];
    assert none[..0] == [] && one[..0] == [];
    if b == [] {
      assert a + b == a;
    } else {
      ParsedIs(a, b[..|b| - 1], e);
      assert (a + b)[..|a + b| - 1] == a + b[..|b| - 1];
    }
  }

  // ----- the list -----

  predicate Registrable(p: Printer) { p.id != "" && p.addr != "" }

  /** One element of a config_update message. */
  function Upsert(list: seq<Printer>, p: Printer): seq<Printer> {
    if list == [] then if Registrable(p) then [p] else []
    else if list[0].id == p.id then [p] + list[1..]
    else [list[0]] + Upsert(list[1..], p)
  }

  function UpsertAll(list: seq<Printer>, entries: seq<Printer>): seq<Printer> {
    if entries == [] then list else Upsert(UpsertAll(list, entries[..|entries| - 1]), entries[|entries| - 1])
  }

  function Filter(list: seq<Printer>, id: string): seq<Printer> {
    if list == [] then []
    else Filter(list[..|list| - 1], id) + if list[|list| - 1].id == id then [list[|list| - 1]] else []
  }

  function Ids(list: seq<Printer>): (r: seq<string>)
    ensures |r| == |list| && forall i :: 0 <= i < |list| ==> r[i] == list[i].id
  {
    seq(|list|, i requires 0 <= i < |list| => list[i].id)
  }

  ghost predicate Distinct(list: seq<Printer>) {
    forall i, j :: 0 <= i < j < |list| ==> list[i].id != list[j].id
  }

  // ----- the map it stands for -----

  datatype Place = Place(addr: string, port: int)

  /** The first entry of each id. */
  function Table(list: seq<Printer>): map<string, Place> {
    if list == [] then map[] else Table(list[1..])[list[0].id := Place(list[0].addr, list[0].port)]
  }

  function Override(m: map<string, Place>, p: Printer): map<string, Place> {
    if p.id in m || (p.id != "" && p.addr != "") then m[p.id := Place(p.addr, p.port)] else m
  }

  function OverrideAll(m: map<string, Place>, entries: seq<Printer>): map<string, Place>
    decreases |entries|
  {
    if entries == [] then m else Override(OverrideAll(m, entries[..|entries| - 1]), entries[|entries| - 1])
  }

  lemma {:induction false} UpsertOverrides(list: seq<Printer>, p: Printer)
    ensures Table(Upsert(list, p)) == Override(Table(list), p)
  {
    if list != [] && list[0].id != p.id {
      UpsertOverrides(list[1..], p);
      assert Upsert(list, p)[1..] == Upsert(list[1..], p);
    } else if list != [] {
      assert Upsert(list, p)[1..] == list[1..];
    } else if Registrable(p) {
      assert Upsert(list, p)[1..] == [];
    }
  }

  /** Entries keep their positions; a new one goes last, and only under an id not listed yet. */
  lemma {:induction false} UpsertKeepsOrder(list: seq<Printer>, p: Printer)
    ensures Ids(Upsert(list, p)) == if p.id !in Ids(list) && Registrable(p) then Ids(list) + [p.id] else Ids(list)
  {
    hide Ids, Registrable;
    if list == [] {
      IdsNone([]);
      IdsCons(p, []);
      assert [p] + [] == [p] && [p.id] + [] == [p.id] && [] + [p.id] == [p.id];
    } else {
      var first, rest := list[0], list[1..];
      assert list == [first] + rest;
      IdsCons(first, rest);
      IdsCons(p, rest);
      if first.id != p.id {
        UpsertKeepsOrder(rest, p);
        IdsCons(first, Upsert(rest, p));
        AppendAssociates([first.id], Ids(rest), [p.id]);
      }
    }
  }

  lemma IdsNone(list: seq<Printer>)
    requires list == []
    ensures Ids(list) == []
  {
  }

  lemma IdsCons(p: Printer, rest: seq<Printer>)
    ensures Ids([p] + rest) == [p.id] + Ids(rest)
  {
  }

  lemma UpsertKeepsDistinct(list: seq<Printer>, p: Printer)
    requires Distinct(list)
    ensures Distinct(Upsert(list, p))
  {
    UpsertKeepsOrder(list, p);
    var after := Upsert(list, p);
    forall i, j | 0 <= i < j < |after|
      ensures after[i].id != after[j].id
    {
      assert after[i].id == Ids(after)[i] && after[j].id == Ids(after)[j];
      assert i < |list| && Ids(list)[i] == list[i].id;
    }
  }

  /**
   * Any sequence of config_update elements acts on the list as sequential override acts on the map. Ids stay distinct,
   * and the order of the ids already listed does not change.
   */
  lemma {:induction false} RefinesMap(list: seq<Printer>, entries: seq<Printer>)
    ensures Table(UpsertAll(list, entries)) == OverrideAll(Table(list), entries)
    ensures Ids(list) <= Ids(UpsertAll(list, entries))
    ensures Distinct(list) ==> Distinct(UpsertAll(list, entries))
    decreases |entries|
  {
    hide Distinct, Upsert, Table, Override;
    if entries != [] {
      var most, last := entries[..|entries| - 1], entries[|entries| - 1];
      RefinesMap(list, most);
      UpsertOverrides(UpsertAll(list, most), last);
      UpsertKeepsOrder(UpsertAll(list, most), last);
      if Distinct(list) {
        UpsertKeepsDistinct(UpsertAll(list, most), last);
      }
    }
  }

  /** With distinct ids a print order for a named printer goes where the map says, once, or nowhere. */
  lemma {:induction false} FilterIsLookup(list: seq<Printer>, id: string)
    requires Distinct(list)
    ensures Filter(list, id) == if id in Table(list) then [Printer(id, Table(list)[id].addr, Table(list)[id].port)] else []
  {
    if list != [] {
      var n := |list| - 1;
      FilterIsLookup(list[..n], id);
      TableSnoc(list[..n], list[n]);
      assert list == list[..n] + [list[n]];
      if list[n].id == id {
        TableKeys(list[..n], id);
      }
    }
  }

  lemma {:induction false} TableKeys(list: seq<Printer>, id: string)
    ensures id in Table(list) <==> exists i :: 0 <= i < |list| && list[i].id == id
  {
    if list != [] {
      TableKeys(list[1..], id);
      assert forall i :: 1 <= i < |list| ==> list[i] == list[1..][i - 1];
    }
  }

  lemma {:induction false} TableSnoc(list: seq<Printer>, p: Printer)
    ensures Table(list + [p]) == if p.id in Table(list) then Table(list) else Table(list)[p.id := Place(p.addr, p.port)]
  {
    if list == [] {
      assert (list + [p])[1..] == [];
    } else {
      TableSnoc(list[1..], p);
      assert (list + [p])[1..] == list[1..] + [p] && (list + [p])[0] == list[0];
    }
  }

  /** No order is sent to two printers under one name, exactly when no name is listed twice. */
  lemma NamedOnce(list: seq<Printer>)
    ensures (forall id: string :: |Filter(list, id)| <= 1) <==> Distinct(list)
  {
    if Distinct(list) {
      forall id: string
        ensures |Filter(list, id)| <= 1
      {
        FilterIsLookup(list, id);
      }
    } else {
      var i, j :| 0 <= i < j < |list| && list[i].id == list[j].id;
      FilterCounts(list, list[i].id, i, j);
    }
  }

  lemma {:induction false} FilterCounts(list: seq<Printer>, id: string, i: nat, j: nat)
    requires i < |list| && list[i].id == id
    ensures |Filter(list, id)| >= if i < j < |list| && list[j].id == id then 2 else 1
  {
    var n := |list| - 1;
    if i < n {
      FilterCounts(list[..n], id, i, if j < n then j else 0);
      assert list[..n][i] == list[i];
    }
  }

  // ----- messages -----

  datatype Update = Config(raw: Raw) | ConfigUpdate(raw: Raw) | Unpaired

  function Apply(list: seq<Printer>, u: Update): seq<Printer> {
    match u
    case Config(raw) => Parsed(raw)
    case ConfigUpdate(raw) => UpsertAll(list, Parsed(raw))
    case Unpaired => []
  }

  function ApplyAll(list: seq<Printer>, updates: seq<Update>): seq<Printer> {
    if updates == [] then list else Apply(ApplyAll(list, updates[..|updates| - 1]), updates[|updates| - 1])
  }

  /** A config message or an unpairing starts over: nothing that came before it shows in the list any more. */
  lemma {:induction false} StartsOver(list: seq<Printer>, before: seq<Update>, u: Update, after: seq<Update>)
    requires u.Config? || u.Unpaired?
    ensures ApplyAll(list, before + [u] + after) == ApplyAll(if u.Config? then Parsed(u.raw) else [], after)
  {
    hide Parsed, UpsertAll;
    var all := before + [u] + after;
    if after == [] {
      assert all[..|all| - 1] == before;
    } else {
      var n := |after| - 1;
      StartsOver(list, before, u, after[..n]);
      assert all[..|all| - 1] == before + [u] + after[..n];
    }
  }

  // ----- the slice -----

  class PrinterList {
    var backing: array<Printer>
    var len: nat
    /** The room the runtime leaves when it moves a slice of this length to a new array. */
    const spare: nat -> nat

    ghost predicate Valid()
      reads this
    {
      len <= backing.Length
    }

    ghost function Contents(): seq<Printer>
      reads this, backing
      requires Valid()
    {
      backing[..len]
    }

    constructor (spare: nat -> nat)
      ensures Valid() && fresh(backing) && Contents() == []
    {
      this.spare := spare;
      backing, len := new Printer[0], 0;
    }

    /** The built-in append: in place while there is room. */
    method Append(p: Printer)
      requires Valid()
      modifies this, backing
      ensures Valid() && Contents() == old(Contents()) + [p]
      ensures if old(len < backing.Length) then backing == old(backing) else fresh(backing)
    {
      if len == backing.Length {
        var bigger := new Printer[len + 1 + spare(len)];
        for i := 0 to len
          invariant backing == old(backing) && len == old(len) && backing[..] == old(backing[..])
          invariant bigger[..i] == backing[..i]
        {
          bigger[i] := backing[i];
        }
        backing := bigger;
      }
      backing[len] := p;
      len := len + 1;
    }

    method Configure(raw: Raw)
      requires Valid()
      modifies this, backing
      ensures Valid() && Contents() == Parsed(raw)
      ensures backing == old(backing) || fresh(backing)
      ensures |Parsed(raw)| <= old(backing.Length) ==> backing == old(backing)
    {
      len := 0;
      for i := 0 to |raw|
        invariant Valid() && Contents() == Parsed(raw[..i])
        invariant backing == old(backing) || fresh(backing)
        invariant |Parsed(raw[..i])| <= old(backing.Length) ==> backing == old(backing)
      {
        assert raw[..i + 1][..i] == raw[..i];
        if raw[i].Some? {
          var pm := raw[i].value;
          var port := DEFAULT_PORT;
          if pm.port.Some? {
            port := pm.port.value;
          }
          Append(Printer(pm.id, pm.address, port));
        }
      }
      assert raw[..|raw|] == raw;
    }

    /** The body of the config_update loop for one element. */
    method Put(p: Printer)
      requires Valid()
      modifies this, backing
      ensures Valid() && Contents() == Upsert(old(Contents()), p)
      ensures backing == old(backing) || fresh(backing)
    {
      var found := false;
      var i := 0;
      while i < len
        invariant 0 <= i <= len && len == old(len) && backing == old(backing) && Contents() == old(Contents())
        invariant forall k :: 0 <= k < i ==> backing[k].id != p.id
      {
        if backing[i].id == p.id {
          UpsertAt(Contents(), p, i);
          backing[i] := Printer(backing[i].id, p.addr, p.port);
          found := true;
          break;
        }
        i := i + 1;
      }
      if !found {
        UpsertNew(Contents(), p);
      }
      if !found && p.id != "" && p.addr != "" {
        Append(p);
      }
    }

    method ConfigureMore(raw: Raw)
      requires Valid()
      modifies this, backing
      ensures Valid() && Contents() == UpsertAll(old(Contents()), Parsed(raw))
      ensures backing == old(backing) || fresh(backing)
    {
      for i := 0 to |raw|
        invariant Valid() && Contents() == UpsertAll(old(Contents()), Parsed(raw[..i]))
        invariant backing == old(backing) || fresh(backing)
      {
        assert raw[..i + 1][..i] == raw[..i];
        if raw[i].None? {
          assert Parsed(raw[..i + 1]) == Parsed(raw[..i]);
        } else {
          var pm := raw[i].value;
          var port := DEFAULT_PORT;
          if pm.port.Some? {
            port := pm.port.value;
          }
          assert Parsed(raw[..i + 1]) == Parsed(raw[..i]) + [PrinterOf(pm)];
          assert Parsed(raw[..i + 1])[..|Parsed(raw[..i])|] == Parsed(raw[..i]);
          Put(Printer(pm.id, pm.address, port));
        }
      }
      assert raw[..|raw|] == raw;
    }

    method Unpair()
      requires Valid()
      modifies this
      ensures Valid() && Contents() == [] && fresh(backing)
    {
      backing, len := new Printer[0], 0;
    }

    /** The copy taken under the mutex. */
    method Snapshot() returns (list: array<Printer>)
      requires Valid()
      ensures fresh(list) && list[..] == Contents()
    {
      list := new Printer[len];
      for i := 0 to len
        invariant list[..i] == backing[..i]
      {
        list[i] := backing[i];
      }
    }

    method Receive(u: Update)
      requires Valid()
      modifies this, backing
      ensures Valid() && Contents() == Apply(old(Contents()), u)
      ensures Contents() == match u
        case Config(raw) => Parsed(raw)
        case ConfigUpdate(raw) => UpsertAll(old(Contents()), Parsed(raw))
        case Unpaired => []
      ensures backing == old(backing) || fresh(backing)
    {
      match u
      case Config(raw) => Configure(raw);
      case ConfigUpdate(raw) => ConfigureMore(raw);
      case Unpaired => Unpair();
    }

    /** A snapshot keeps its contents whatever messages follow, even those that overwrite the backing array in place. */
    method SnapshotThenUpdates(updates: seq<Update>) returns (list: array<Printer>)
      requires Valid()
      modifies this, backing
      ensures Valid() && list[..] == old(Contents()) && Contents() == ApplyAll(old(Contents()), updates)
    {
      list := Snapshot();
      for i := 0 to |updates|
        invariant Valid() && list != backing && list[..] == old(Contents())
        invariant backing == old(backing) || fresh(backing)
        invariant Contents() == ApplyAll(old(Contents()), updates[..i])
      {
        assert updates[..i + 1][..i] == updates[..i];
        Receive(updates[i]);
      }
      assert updates[..|updates|] == updates;
    }
  }

  lemma {:induction false} UpsertAt(list: seq<Printer>, p: Printer, i: nat)
    requires i < |list| && list[i].id == p.id && forall k :: 0 <= k < i ==> list[k].id != p.id
    ensures Upsert(list, p) == list[i := p]
  {
    if i > 0 {
      UpsertAt(list[1..], p, i - 1);
    }
  }

  lemma {:induction false} UpsertNew(list: seq<Printer>, p: Printer)
    requires forall k :: 0 <= k < |list| ==> list[k].id != p.id
    ensures Upsert(list, p) == if Registrable(p) then list + [p] else list
  {
    if list != [] {
      UpsertNew(list[1..], p);
    }
  }

  /** filterPrinters. */
  method FilterPrinters(list: array<Printer>, id: string) returns (out: seq<Printer>)
    ensures out == if id == "" then list[..] else Filter(list[..], id)
  {
    if id == "" {
      return list[..];
    }
    out := [];
    for i := 0 to list.Length
      invariant out == Filter(list[..i], id)
    {
      assert list[..i + 1][..i] == list[..i];
      if list[i].id == id {
        out := out + [list[i]];
      }
    }
    assert list[..list.Length] == list[..];
  }
}
