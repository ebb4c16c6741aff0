/** Go strings as octets: decoding runes (section 3 of RFC 3629, with Go's rule for invalid bytes) and counting them. */
module Utf8 {
  import opened Basics

  /** What a range loop sees: a rune, or one octet that starts no valid sequence. */
  datatype Sym = Good(rune: int) | Bad(octet: Byte)

  predicate Cont(b: Byte) { 0x80 <= b <= 0xBF }

  /** Bounds of the second octet: they keep out overlong forms, surrogates and runes above 0x10FFFF. */
  function SecondLow(b: Byte): int { if b == 0xE0 then 0xA0 else if b == 0xF0 then 0x90 else 0x80 }
  function SecondHigh(b: Byte): int { if b == 0xED then 0x9F else if b == 0xF4 then 0x8F else 0xBF }

  /** How many octets a leading octet announces; 0 when it cannot lead. */
  function Announced(b: Byte): nat {
    if b < 0x80 then 1
    else if 0xC2 <= b <= 0xDF then 2
    else if 0xE0 <= b <= 0xEF then 3
    else if 0xF0 <= b <= 0xF4 then 4
    else 0
  }

  /** The announced octets are there and continue the sequence. */
  predicate Complete(s: seq<Byte>)
    requires s != []
  {
    var n := Announced(s[0]);
    && 1 <= n <= |s|
    && (n >= 2 ==> SecondLow(s[0]) <= s[1] <= SecondHigh(s[0]))
    && (n >= 3 ==> Cont(s[2]))
    && (n >= 4 ==> Cont(s[3]))
  }

  /** Octets consumed by utf8.DecodeRune. */
  function Size(s: seq<Byte>): (n: nat)
    requires s != []
    ensures 1 <= n <= |s| && n <= 4
  {
    if Complete(s) then Announced(s[0]) else 1
  }

  /** An octet less its marker bits. */
  function Bits(b: Byte, marker: int): int { var n: int := b; n - marker }

  function RuneAt(s: seq<Byte>): int
    requires s != [] && Complete(s)
  {
    match Announced(s[0])
    case 1 => s[0]
    case 2 => Bits(s[0], 0xC0) * 64 + Bits(s[1], 0x80)
    case 3 => Bits(s[0], 0xE0) * 4096 + Bits(s[1], 0x80) * 64 + Bits(s[2], 0x80)
    case _ => Bits(s[0], 0xF0) * 262144 + Bits(s[1], 0x80) * 4096 + Bits(s[2], 0x80) * 64 + Bits(s[3], 0x80)
  }

  function First(s: seq<Byte>): Sym
    requires s != []
  {
    if Complete(s) then Good(RuneAt(s)) else Bad(s[0])
  }

  function Decode(s: seq<Byte>): (r: seq<Sym>)
    ensures |r| <= |s|
  {
    if s == [] then [] else [First(s)] + Decode(s[Size(s)..])
  }

  /** utf8.RuneCountInString. */
  function RuneCount(s: seq<Byte>): nat { |Decode(s)| }

  predicate Valid(s: seq<Byte>) {
    forall i :: 0 <= i < |Decode(s)| ==> Decode(s)[i].Good?
  }

  // ----- the encoder, as the reference for the decoder -----

  predicate Scalar(r: int) { 0 <= r < 0xD800 || 0xE000 <= r < 0x110000 }

  function EncodeRune(r: int): seq<Byte>
    requires Scalar(r)
  {
    if r < 0x80 then [r]
    else if r < 0x800 then [0xC0 + r / 64, 0x80 + r % 64]
    else if r < 0x10000 then [0xE0 + r / 4096, 0x80 + r / 64 % 64, 0x80 + r % 64]
    else [0xF0 + r / 262144, 0x80 + r / 4096 % 64, 0x80 + r / 64 % 64, 0x80 + r % 64]
  }

  /** Decoding goes one symbol at a time. */
  lemma DecodeStep(s: seq<Byte>)
    requires s != []
    ensures Decode(s) == [First(s)] + Decode(s[Size(s)..])
  {
  }

  lemma TwoOctets(r: int, rest: seq<Byte>)
    requires 0x80 <= r < 0x800
    ensures var s := EncodeRune(r) + rest; First(s) == Good(r) && Size(s) == 2
  {
    assert r == r / 64 * 64 + r % 64;
  }

  lemma ThreeOctets(r: int, rest: seq<Byte>)
    requires Scalar(r) && 0x800 <= r < 0x10000
    ensures var s := EncodeRune(r) + rest; First(s) == Good(r) && Size(s) == 3
  {
    assert r / 64 == r / 4096 * 64 + r / 64 % 64;
  }

  lemma FourOctets(r: int, rest: seq<Byte>)
    requires 0x10000 <= r < 0x110000
    ensures var s := EncodeRune(r) + rest; First(s) == Good(r) && Size(s) == 4
  {
    assert r / 64 == r / 4096 * 64 + r / 64 % 64;
    assert r / 4096 == r / 262144 * 64 + r / 4096 % 64;
  }

  lemma FirstEncoded(r: int, rest: seq<Byte>)
    requires Scalar(r)
    ensures var s := EncodeRune(r) + rest; First(s) == Good(r) && Size(s) == |EncodeRune(r)|
  {
    if 0x80 <= r < 0x800 {
      TwoOctets(r, rest);
    } else if 0x800 <= r < 0x10000 {
      ThreeOctets(r, rest);
    } else if r >= 0x10000 {
      FourOctets(r, rest);
    }
  }

  lemma DecodeEncoded(r: int, rest: seq<Byte>)
    requires 0 <= r < 0xD800 || 0xE000 <= r < 0x110000
    ensures var s := EncodeRune(r) + rest; First(s) == Good(r) && Size(s) == |EncodeRune(r)|
    ensures Decode(EncodeRune(r) + rest) == [Good(r)] + Decode(rest)
  {
    FirstEncoded(r, rest);
    hide First, Size, Complete, EncodeRune, Decode;
    var e := EncodeRune(r);
    DecodeStep(e + rest);
    assert (e + rest)[|e|..] == rest;
  }

  lemma Digits64(high: nat, low: nat)
    requires low < 64
    ensures (high * 64 + low) / 64 == high && (high * 64 + low) % 64 == low
  {
  }

  lemma ThreeRead(s: seq<Byte>)
    requires s != [] && Complete(s) && Announced(s[0]) == 3
    ensures Scalar(RuneAt(s)) && EncodeRune(RuneAt(s)) == s[..3]
  {
    var high := Bits(s[0], 0xE0) * 64 + Bits(s[1], 0x80);
    Digits64(Bits(s[0], 0xE0), Bits(s[1], 0x80));
    Digits64(high, Bits(s[2], 0x80));
    assert RuneAt(s) == high * 64 + Bits(s[2], 0x80);
  }

  lemma FourRead(s: seq<Byte>)
    requires s != [] && Complete(s) && Announced(s[0]) == 4
    ensures Scalar(RuneAt(s)) && EncodeRune(RuneAt(s)) == s[..4]
  {
    var top := Bits(s[0], 0xF0) * 64 + Bits(s[1], 0x80);
    var high := top * 64 + Bits(s[2], 0x80);
    Digits64(Bits(s[0], 0xF0), Bits(s[1], 0x80));
    Digits64(top, Bits(s[2], 0x80));
    Digits64(high, Bits(s[3], 0x80));
    assert RuneAt(s) == high * 64 + Bits(s[3], 0x80);
  }

  lemma EncodeDecoded(s: seq<Byte>)
    requires s != [] && Complete(s)
    ensures Scalar(RuneAt(s)) && EncodeRune(RuneAt(s)) == s[..Size(s)]
  {
    var n := Announced(s[0]);
    if n == 2 {
      Digits64(Bits(s[0], 0xC0), Bits(s[1], 0x80));
    } else if n == 3 {
      ThreeRead(s);
    } else if n == 4 {
      FourRead(s);
    }
  }

  /** A string starts with a rune if and only if it starts with the encoding of one, and then with that one. */
  lemma FirstIsEncoded(s: seq<Byte>, r: int)
    requires s != []
    ensures First(s) == Good(r) <==> (0 <= r < 0xD800 || 0xE000 <= r < 0x110000) && EncodeRune(r) <= s
  {
    hide Complete, RuneAt, EncodeRune;
    if Scalar(r) && EncodeRune(r) <= s {
      assert s == EncodeRune(r) + s[|EncodeRune(r)|..];
      DecodeEncoded(r, s[|EncodeRune(r)|..]);
    }
    if Complete(s) {
      EncodeDecoded(s);
      assert s[..Size(s)] <= s;
    }
  }

  /** The encodings of a letter, an umlaut, the euro sign and a picture. */
  lemma SomeEncodings()
    ensures EncodeRune(0x41) == [0x41] && EncodeRune(0xE4) == [0xC3, 0xA4]
    ensures EncodeRune(0x20AC) == [0xE2, 0x82, 0xAC] && EncodeRune(0x1F600) == [0xF0, 0x9F, 0x98, 0x80]
  {
  }

  // ----- decoding a concatenation -----

  predicate StartsAscii(s: seq<Byte>) { s == [] || s[0] < 0x80 }

  /** A string that starts with an ASCII octet is decoded apart from what comes before it. */
  lemma {:induction false} DecodeConcat(a: seq<Byte>, b: seq<Byte>)
    requires StartsAscii(b)
    ensures Decode(a + b) == Decode(a) + Decode(b)
    decreases |a|
  {
    hide First, Size, Complete, StartsAscii, Decode;
    if a == [] {
      assert a + b == b;
      DecodeNothing(a);
    } else {
      var n := Size(a);
      FirstOfConcat(a, b);
      DecodeStep(a);
      DecodeStep(a + b);
      assert (a + b)[n..] == a[n..] + b;
      DecodeConcat(a[n..], b);
      AppendAssociates([First(a)], Decode(a[n..]), Decode(b));
    }
  }

  lemma DecodeNothing(s: seq<Byte>)
    requires s == []
    ensures Decode(s) == []
  {
  }

  lemma FirstOfConcat(a: seq<Byte>, b: seq<Byte>)
    requires a != [] && StartsAscii(b)
    ensures First(a + b) == First(a) && Size(a + b) == Size(a)
  {
    assert Complete(a + b) == Complete(a);
  }

  lemma BlankFirst(rest: seq<Byte>)
    ensures var t := [0x20] + rest; First(t) == Good(0x20) && Size(t) == 1 && t[1..] == rest
  {
  }

  lemma {:induction false} DecodeSpaces(n: nat, s: seq<Byte>)
    ensures Decode(Repeat(0x20, n) + s) == Repeat(Good(0x20), n) + Decode(s)
  {
    hide First, Size, Complete, Decode;
    if n == 0 {
      assert Repeat(0x20, n) + s == s && Repeat(Good(0x20), n) == [];
    } else {
      DecodeSpaces(n - 1, s);
      var rest := Repeat(0x20, n - 1) + s;
      assert Repeat(0x20, n) + s == [0x20] + rest;
      BlankFirst(rest);
      DecodeStep([0x20] + rest);
      assert Repeat(Good(0x20), n) == [Good(0x20)] + Repeat(Good(0x20), n - 1);
      AppendAssociates([Good(0x20)], Repeat(Good(0x20), n - 1), Decode(s));
    }
  }
}
