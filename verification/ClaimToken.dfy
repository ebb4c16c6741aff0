/** internal/state/state.go: the claim token, and its life under interleaved HTTP and session steps. */
module ClaimToken {
  import opened Basics

  const TOKEN_BYTES := 32

  // ----- randomHex -----

  function HexDigit(n: nat): (r: Byte)
    requires n < 16
  {
    if n < 10 then 48 + n else 87 + n
  }

  function DigitValue(c: Byte): (n: nat)
    ensures n < 16
  {
    if 48 <= c < 58 then c - 48 else if 97 <= c < 103 then c - 87 else 0
  }

  function Hex(b: seq<Byte>): (r: seq<Byte>)
    ensures |r| == 2 * |b|
  {
    if b == [] then []
    else
      var v: int := b[|b| - 1];
      Hex(b[..|b| - 1]) + [HexDigit(v / 16), HexDigit(v % 16)]
  }

  /** The digits are the sixteen of the source, in order. */
  lemma HexAlphabet(n: nat)
    requires n < 16
    ensures HexDigit(n) == "0123456789abcdef"[n] as int
  {
  }

  /** Octet k is digits 2k and 2k + 1, the high one first. */
  lemma {:induction false} HexAt(b: seq<Byte>, k: nat)
    requires k < |b|
    ensures Hex(b)[2 * k] == "0123456789abcdef"[b[k] / 16] as int
    ensures Hex(b)[2 * k + 1] == "0123456789abcdef"[b[k] % 16] as int
  {
    var n := |b| - 1;
    var v: int := b[k];
    HexAlphabet(v / 16);
    HexAlphabet(v % 16);
    hide HexDigit;
    if k < n {
      HexAt(b[..n], k);
    }
  }

  /** Reads hexadecimal digits back in pairs. */
  function Unhex(s: seq<Byte>): seq<Byte>
    decreases |s|
  {
    if |s| < 2 then []
    else
      var v: int := 16 * DigitValue(s[|s| - 2]) + DigitValue(s[|s| - 1]);
      Unhex(s[..|s| - 2]) + [v]
  }

  lemma DigitRead(n: nat)
    requires n < 16
    ensures DigitValue(HexDigit(n)) == n
  {
  }

  /** One more pair of digits is one more octet. */
  lemma UnhexPair(s: seq<Byte>, v: Byte)
    ensures var n: int := v; Unhex(s + [HexDigit(n / 16), HexDigit(n % 16)]) == Unhex(s) + [v]
  {
    hide DigitValue, HexDigit;
    var n: int := v;
    DigitRead(n / 16);
    DigitRead(n % 16);
    var t := s + [HexDigit(n / 16), HexDigit(n % 16)];
    assert t[..|t| - 2] == s;
  }

  lemma {:induction false} UnhexHex(b: seq<Byte>)
    ensures Unhex(Hex(b)) == b
  {
    hide DigitValue, HexDigit, Unhex;
    if b == [] {
      UnhexNothing();
    } else {
      var n := |b| - 1;
      UnhexHex(b[..n]);
      UnhexPair(Hex(b[..n]), b[n]);
      assert b == b[..n] + [b[n]];
    }
  }

  lemma UnhexNothing()
    ensures Unhex([]) == []
  {
  }

  /** Different random bytes give different tokens. */
  lemma HexInjective(a: seq<Byte>, b: seq<Byte>)
    ensures Hex(a) == Hex(b) <==> a == b
  {
    UnhexHex(a);
    UnhexHex(b);
  }

  /** `random` is what crypto/rand filled the buffer with. */
  method RandomHex(random: seq<Byte>) returns (token: seq<Byte>)
    ensures token == Hex(random)
  {
    var out := new Byte[2 * |random|](_ => 0);
    for i := 0 to |random|
      invariant out[..2 * i] == Hex(random[..i])
    {
      assert random[..i + 1][..i] == random[..i];
      var v: int := random[i];
      out[2 * i] := HexDigit(v / 16);
      out[2 * i + 1] := HexDigit(v % 16);
    }
    assert random[..|random|] == random;
    token := out[..];
  }

  // ----- the guarded state -----

  datatype Claim = Claim(token: seq<Byte>, claimed: bool)

  const INITIAL: Claim := Claim([], false)

  datatype Move =
    | Get(random: seq<Byte>)
    | Rotate(random: seq<Byte>)
    | Unpair(random: seq<Byte>)
    | Invalidate
    | Check(offered: seq<Byte>)

  /** Whether the call draws random bytes. */
  predicate Draws(c: Claim, m: Move) {
    match m
    case Get(_) => !c.claimed && c.token == []
    case Rotate(_) => !c.claimed
    case Unpair(_) => true
    case Invalidate => false
    case Check(_) => false
  }

  function After(c: Claim, m: Move): Claim {
    if m.Invalidate? then Claim([], true)
    else if Draws(c, m) then Claim(Hex(m.random), false)
    else c
  }

  predicate Accepts(c: Claim, offered: seq<Byte>) {
    offered != [] && offered == c.token
  }

  class ClaimState {
    var claimToken: seq<Byte>
    var claimed: bool
    var tenantName: seq<Byte>

    function Value(): Claim
      reads this
    {
      Claim(claimToken, claimed)
    }

    constructor ()
      ensures Value() == INITIAL && tenantName == []
    {
      claimToken, claimed, tenantName := [], false, [];
    }

    method SetTenantName(name: seq<Byte>)
      modifies this`tenantName
      ensures tenantName == name
    {
      tenantName := name;
    }

    method GetClaimToken(random: seq<Byte>) returns (shown: seq<Byte>)
      modifies this`claimToken, this`claimed
      ensures Value() == After(old(Value()), Get(random))
      ensures claimed == old(claimed) && shown == if claimed then [] else claimToken
      ensures claimToken == if !claimed && old(claimToken) == [] then Hex(random) else old(claimToken)
    {
      if claimed {
        return [];
      }
      if claimToken == [] {
        claimToken := RandomHex(random);
      }
      shown := claimToken;
    }

    method RotateClaimToken(random: seq<Byte>) returns (shown: seq<Byte>)
      modifies this`claimToken, this`claimed
      ensures Value() == After(old(Value()), Rotate(random))
      ensures claimed == old(claimed) && shown == if claimed then [] else claimToken
      ensures claimToken == if claimed then old(claimToken) else Hex(random)
    {
      if claimed {
        return [];
      }
      claimToken := RandomHex(random);
      shown := claimToken;
    }

    method InvalidateClaimToken()
      modifies this`claimToken, this`claimed
      ensures Value() == After(old(Value()), Invalidate)
      ensures claimed && claimToken == []
    {
      claimToken := [];
      claimed := true;
    }

    method UnpairBridge(random: seq<Byte>) returns (shown: seq<Byte>)
      modifies this
      ensures Value() == After(old(Value()), Unpair(random)) && shown == claimToken && tenantName == []
      ensures !claimed && claimToken == Hex(random)
    {
      claimed := false;
      tenantName := [];
      claimToken := RandomHex(random);
      shown := claimToken;
    }

    method CheckToken(offered: seq<Byte>) returns (ok: bool)
      ensures ok == Accepts(Value(), offered)
      ensures ok <==> claimToken != [] && offered == claimToken
    {
      if claimToken == [] || offered == [] {
        return false;
      }
      ok := claimToken == offered;
    }
  }

  // ----- interleaved runs -----

  /** What happened to tokens, in order. Clearing an already empty token is not recorded. */
  datatype Note = Issued(token: seq<Byte>) | Accepted(token: seq<Byte>) | Cleared

  /**
   * `accepting`: the session goroutine is between CheckToken and InvalidateClaimToken of a verify_claim message, where
   * HTTP handlers can still run. `drawn`: the random bytes used so far.
   */
  datatype World = World(claim: Claim, accepting: bool, log: seq<Note>, drawn: set<seq<Byte>>)

  const START: World := World(INITIAL, false, [], {})

  /** HTTP handlers run at any time; the session does one thing at a time, and random bytes do not repeat. */
  predicate Enabled(w: World, m: Move) {
    && (w.accepting ==> m.Get? || m.Rotate? || m.Invalidate?)
    && (Draws(w.claim, m) ==> |m.random| == TOKEN_BYTES && m.random !in w.drawn)
  }

  function Next(w: World, m: Move): World {
    var c := After(w.claim, m);
    if Draws(w.claim, m) then
      World(c, w.accepting, w.log + [Issued(c.token)], w.drawn + {m.random})
    else if m.Check? && Accepts(w.claim, m.offered) then
      w.(accepting := true, log := w.log + [Accepted(m.offered)])
    else if m.Invalidate? then
      World(c, false, if w.claim.token == [] then w.log else w.log + [Cleared], w.drawn)
    else w
  }

  ghost predicate Run(w: World, moves: seq<Move>)
    decreases |moves|
  {
    moves == [] || (Enabled(w, moves[0]) && Run(Next(w, moves[0]), moves[1..]))
  }

  function End(w: World, moves: seq<Move>): World
    decreases |moves|
  {
    if moves == [] then w else End(Next(w, moves[0]), moves[1..])
  }

  /** The current token is the one in the last note. */
  ghost predicate Current(w: World) {
    && (w.claim.claimed ==> w.claim.token == [])
    && (w.claim.token == [] ==> w.log == [] || w.log[|w.log| - 1].Cleared?)
    && (w.claim.token != [] ==> w.log != [] && w.log[|w.log| - 1] in {Issued(w.claim.token), Accepted(w.claim.token)})
    && (w.log != [] && w.log[|w.log| - 1].Accepted? ==> w.accepting)
  }

  ghost predicate IssuedOnce(w: World) {
    && (forall i :: 0 <= i < |w.log| && w.log[i].Issued? ==> Unhex(w.log[i].token) in w.drawn)
    && (forall i, j :: 0 <= i < j < |w.log| && w.log[i].Issued? && w.log[j].Issued? ==> w.log[i].token != w.log[j].token)
  }

  /** A token is accepted right after it was issued: no other token was issued, accepted or cleared in between. */
  ghost predicate AcceptedWhileCurrent(log: seq<Note>) {
    forall i :: 0 <= i < |log| && log[i].Accepted? ==> i > 0 && log[i - 1] == Issued(log[i].token)
  }

  ghost predicate Inv(w: World) {
    Current(w) && IssuedOnce(w) && AcceptedWhileCurrent(w.log)
  }

  lemma CurrentKeeps(w: World, m: Move)
    requires Inv(w) && Enabled(w, m)
    ensures Current(Next(w, m))
  {
    hide Hex, IssuedOnce, AcceptedWhileCurrent;
    if Draws(w.claim, m) {
      assert |Hex(m.random)| == 2 * TOKEN_BYTES;
    }
  }

  lemma IssuedKeeps(w: World, m: Move)
    requires Inv(w) && Enabled(w, m)
    ensures IssuedOnce(Next(w, m))
  {
    hide Hex, Unhex, Current, AcceptedWhileCurrent;
    if Draws(w.claim, m) {
      UnhexHex(m.random);
    }
  }

  lemma AcceptedKeeps(w: World, m: Move)
    requires Inv(w) && Enabled(w, m)
    ensures AcceptedWhileCurrent(Next(w, m).log)
  {
    hide Hex, IssuedOnce;
  }

  lemma StepKeeps(w: World, m: Move)
    requires Inv(w) && Enabled(w, m)
    ensures Inv(Next(w, m))
  {
    CurrentKeeps(w, m);
    IssuedKeeps(w, m);
    AcceptedKeeps(w, m);
    hide Current, IssuedOnce, AcceptedWhileCurrent, Next;
  }

  lemma {:induction false} RunKeeps(w: World, moves: seq<Move>)
    requires Inv(w) && Run(w, moves)
    ensures Inv(End(w, moves))
    decreases |moves|
  {
    hide Inv, Enabled;
    if moves != [] {
      StepKeeps(w, moves[0]);
      RunKeeps(Next(w, moves[0]), moves[1..]);
    }
  }

  /**
   * In every reachable state a claimed bridge has no token, every accepted token was the current one, and no token is
   * accepted twice.
   */
  lemma ClaimTokenLife(moves: seq<Move>)
    requires Run(START, moves)
    ensures var w := End(START, moves);
      && (w.claim.claimed ==> w.claim.token == [])
      && AcceptedWhileCurrent(w.log)
      && (forall i, j :: 0 <= i < j < |w.log| && w.log[i].Accepted? && w.log[j].Accepted? ==> w.log[i].token != w.log[j].token)
  {
    RunKeeps(START, moves);
    var log := End(START, moves).log;
    forall i, j | 0 <= i < j < |log| && log[i].Accepted? && log[j].Accepted?
      ensures log[i].token != log[j].token
    {
      assert log[i - 1] == Issued(log[i].token) && log[j - 1] == Issued(log[j].token);
    }
  }

  // ----- claimed and unclaimed -----

  /** A claimed bridge stays claimed, issues nothing and accepts nothing, until it is unpaired. */
  lemma {:induction false} ClaimedStays(w: World, moves: seq<Move>)
    requires Run(w, moves) && w.claim == Claim([], true)
    requires forall i :: 0 <= i < |moves| ==> !moves[i].Unpair?
    ensures End(w, moves).claim == Claim([], true) && End(w, moves).log == w.log
    decreases |moves|
  {
    if moves != [] {
      assert !moves[0].Unpair?;
      ClaimedStays(Next(w, moves[0]), moves[1..]);
    }
  }

  /** From an invalidation to the next unpairing the bridge is claimed, and no token is issued or accepted. */
  lemma InvalidationClaims(w: World, moves: seq<Move>)
    requires Run(Next(w, Invalidate), moves)
    requires forall i :: 0 <= i < |moves| ==> !moves[i].Unpair?
    ensures var z := End(Next(w, Invalidate), moves);
      && z.claim.claimed && z.claim.token == []
      && (z.log == w.log || z.log == w.log + [Cleared])
      && forall offered :: !Accepts(z.claim, offered)
  {
    ClaimedStays(Next(w, Invalidate), moves);
  }

  /**
   * After an unpairing the bridge is not claimed and has a fresh token of 64 hexadecimal digits, which stays the same,
   * however often it is asked for, until it is rotated, invalidated or accepted.
   */
  lemma {:induction false} UnpairedHasToken(w: World, random: seq<Byte>, asked: seq<Move>)
    requires Enabled(w, Unpair(random)) && Run(Next(w, Unpair(random)), asked)
    requires forall i :: 0 <= i < |asked| ==> asked[i].Get?
    ensures var z := End(Next(w, Unpair(random)), asked);
      z.claim == Claim(Hex(random), false) && z.log == w.log + [Issued(Hex(random))] && |Hex(random)| == 64
    decreases |asked|
  {
    GetsChangeNothing(Next(w, Unpair(random)), asked);
  }

  lemma {:induction false} GetsChangeNothing(w: World, asked: seq<Move>)
    requires Run(w, asked) && !w.claim.claimed && w.claim.token != []
    requires forall i :: 0 <= i < |asked| ==> asked[i].Get?
    ensures End(w, asked) == w
    decreases |asked|
  {
    if asked != [] {
      assert asked[0].Get?;
      GetsChangeNothing(Next(w, asked[0]), asked[1..]);
    }
  }
}
