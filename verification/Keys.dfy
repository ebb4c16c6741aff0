/** The string keys of the endpoint locks and of the logo cache. */
module Keys {
  import Decimal

  datatype Endpoint = Endpoint(addr: string, port: int)
  datatype SlotId = SlotId(endpoint: Endpoint, slot: int)

  /** internal/printer/tcp.go: fmt.Sprintf("%s:%d", addr, port). */
  function EndpointKey(e: Endpoint): string {
    e.addr + ":" + Decimal.Print(e.port)
  }

  /** internal/spooler/spooler.go: fmt.Sprintf("%s:%d|%d", addr, port, slot). */
  function SlotKey(id: SlotId): string {
    EndpointKey(id.endpoint) + "|" + Decimal.Print(id.slot)
  }

  /** Position of the last occurrence of c, or |s| when there is none. */
  function LastIndex(s: string, c: char): (k: nat)
    ensures k <= |s|
    ensures k < |s| ==> s[k] == c
    ensures forall i :: k < i < |s| ==> s[i] != c
    ensures k == |s| ==> c !in s
  {
    if s == [] then 0
    else if s[|s| - 1] == c then |s| - 1
    else var k := LastIndex(s[..|s| - 1], c); if k == |s| - 1 then |s| else k
  }

  /** Splits at the last separator; the inverse of gluing text, separator and a number. */
  function SplitLast(s: string, c: char): (string, int) {
    var k := LastIndex(s, c);
    if k == |s| then (s, 0) else (s[..k], Decimal.Parse(s[k + 1..]))
  }

  function ParseEndpoint(key: string): Endpoint {
    var (addr, port) := SplitLast(key, ':');
    Endpoint(addr, port)
  }

  function ParseSlot(key: string): SlotId {
    var (endpoint, slot) := SplitLast(key, '|');
    SlotId(ParseEndpoint(endpoint), slot)
  }

  lemma SplitGlued(text: string, c: char, n: int)
    requires !Decimal.IsDigit(c) && c != '-'
    ensures SplitLast(text + [c] + Decimal.Print(n), c) == (text, n)
  {
    var s := text + [c] + Decimal.Print(n);
    var k := LastIndex(s, c);
    assert s[|text|] == c;
    forall i | |text| < i < |s|
      ensures s[i] != c
    {
      assert s[i] == Decimal.Print(n)[i - |text| - 1];
    }
    assert s[..k] == text;
    assert s[k + 1..] == Decimal.Print(n);
    Decimal.ParsePrint(n);
  }

  lemma ParseEndpointKey(e: Endpoint)
    ensures ParseEndpoint(EndpointKey(e)) == e
  {
    SplitGlued(e.addr, ':', e.port);
  }

  lemma ParseSlotKey(id: SlotId)
    ensures ParseSlot(SlotKey(id)) == id
  {
    SplitGlued(EndpointKey(id.endpoint), '|', id.slot);
    ParseEndpointKey(id.endpoint);
  }

  /** Two endpoints share a lock only when they are the same endpoint. */
  lemma EndpointKeyInjective(a: Endpoint, b: Endpoint)
    ensures EndpointKey(a) == EndpointKey(b) <==> a == b
  {
    ParseEndpointKey(a);
    ParseEndpointKey(b);
  }

  /** Two printer slots share a cache entry only when they are the same slot. */
  lemma SlotKeyInjective(a: SlotId, b: SlotId)
    ensures SlotKey(a) == SlotKey(b) <==> a == b
  {
    ParseSlotKey(a);
    ParseSlotKey(b);
  }

  /** The form of the keys. */
  lemma KeyForms(addr: string, port: int, slot: int)
    ensures EndpointKey(Endpoint(addr, port)) == addr + ":" + Decimal.Print(port)
    ensures SlotKey(SlotId(Endpoint(addr, port), slot)) == addr + ":" + Decimal.Print(port) + "|" + Decimal.Print(slot)
  {
  }
}
