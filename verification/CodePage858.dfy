/** The printer's code page and internal/escpos/render.go: encode858. */
module CodePage858 {
  import opened Basics
  import opened Utf8

  // The runes of code page 858 at 0x80 and above, sixteen to a row; below, it is ASCII.
  const ROW_8: seq<int> := [
    0x00C7, 0x00FC, 0x00E9, 0x00E2, 0x00E4, 0x00E0, 0x00E5, 0x00E7,
    0x00EA, 0x00EB, 0x00E8, 0x00EF, 0x00EE, 0x00EC, 0x00C4, 0x00C5
  ]
  const ROW_9: seq<int> := [
    0x00C9, 0x00E6, 0x00C6, 0x00F4, 0x00F6, 0x00F2, 0x00FB, 0x00F9,
    0x00FF, 0x00D6, 0x00DC, 0x00F8, 0x00A3, 0x00D8, 0x00D7, 0x0192
  ]
  const ROW_A: seq<int> := [
    0x00E1, 0x00ED, 0x00F3, 0x00FA, 0x00F1, 0x00D1, 0x00AA, 0x00BA,
    0x00BF, 0x00AE, 0x00AC, 0x00BD, 0x00BC, 0x00A1, 0x00AB, 0x00BB
  ]
  const ROW_B: seq<int> := [
    0x2591, 0x2592, 0x2593, 0x2502, 0x2524, 0x00C1, 0x00C2, 0x00C0,
    0x00A9, 0x2563, 0x2551, 0x2557, 0x255D, 0x00A2, 0x00A5, 0x2510
  ]
  const ROW_C: seq<int> := [
    0x2514, 0x2534, 0x252C, 0x251C, 0x2500, 0x253C, 0x00E3, 0x00C3,
    0x255A, 0x2554, 0x2569, 0x2566, 0x2560, 0x2550, 0x256C, 0x00A4
  ]
  const ROW_D: seq<int> := [
    0x00F0, 0x00D0, 0x00CA, 0x00CB, 0x00C8, 0x20AC, 0x00CD, 0x00CE,
    0x00CF, 0x2518, 0x250C, 0x2588, 0x2584, 0x00A6, 0x00CC, 0x2580
  ]
  const ROW_E: seq<int> := [
    0x00D3, 0x00DF, 0x00D4, 0x00D2, 0x00F5, 0x00D5, 0x00B5, 0x00FE,
    0x00DE, 0x00DA, 0x00DB, 0x00D9, 0x00FD, 0x00DD, 0x00AF, 0x00B4
  ]
  const ROW_F: seq<int> := [
    0x00AD, 0x00B1, 0x2017, 0x00BE, 0x00B6, 0x00A7, 0x00F7, 0x00B8,
    0x00B0, 0x00A8, 0x00B7, 0x00B9, 0x00B3, 0x00B2, 0x25A0, 0x00A0
  ]

  const TABLE: seq<int> := ((ROW_8 + ROW_9) + (ROW_A + ROW_B)) + ((ROW_C + ROW_D) + (ROW_E + ROW_F))

  function IndexOf(r: int, from: nat): Option<nat>
    requires from <= |TABLE|
    decreases |TABLE| - from
  {
    if from == |TABLE| then None else if TABLE[from] == r then Some(from) else IndexOf(r, from + 1)
  }

  /** The octet for a rune, if the code page has one. */
  function Code(r: int): Option<Byte> {
    if 0 <= r < 0x80 then Some(r)
    else match IndexOf(r, 0)
      case Some(i) => if i < 128 then Some(0x80 + i) else None
      case None => None
  }

  /** The rune the printer shows for an octet. */
  function Shown(b: Byte): int {
    if b < 0x80 || b - 0x80 >= |TABLE| then b else TABLE[b - 0x80]
  }

  lemma {:induction false} IndexOfFinds(r: int, from: nat)
    requires from <= |TABLE|
    ensures IndexOf(r, from).Some? ==> from <= IndexOf(r, from).value < |TABLE| && TABLE[IndexOf(r, from).value] == r
    decreases |TABLE| - from
  {
    if from < |TABLE| && TABLE[from] != r {
      IndexOfFinds(r, from + 1);
    }
  }

  /** The printer shows the rune that was encoded, and only runes from 0x80 on use octets from 0x80 on. */
  lemma ShownCode(r: int)
    requires Code(r).Some?
    ensures Shown(Code(r).value) == r
    ensures Code(r).value < 0x80 ==> Code(r).value == r
    ensures 0 <= r < 0x80 ==> Code(r).value == r
  {
    if !(0 <= r < 0x80) {
      IndexOfFinds(r, 0);
    }
  }

  function TableRow(i: nat): seq<int>
    requires i < 8
    ensures |TableRow(i)| == 16
  {
    match i
    case 0 => ROW_8
    case 1 => ROW_9
    case 2 => ROW_A
    case 3 => ROW_B
    case 4 => ROW_C
    case 5 => ROW_D
    case 6 => ROW_E
    case _ => ROW_F
  }

  lemma TableIsRows(k: nat)
    requires k < 128
    ensures |TABLE| == 128 && TABLE[k] == TableRow(k / 16)[k % 16]
  {
    hide ROW_8, ROW_9, ROW_A, ROW_B, ROW_C, ROW_D, ROW_E, ROW_F;
    RowLengths();
  }

  lemma RowLengths()
    ensures |ROW_8| == |ROW_9| == |ROW_A| == |ROW_B| == |ROW_C| == |ROW_D| == |ROW_E| == |ROW_F| == 16
  {
  }

  // The same the other way round: the octets of the runes from 0xA0 on, sixteen to a row.
  const LATIN_A: seq<Byte> := [
    0xFF, 0xAD, 0xBD, 0x9C, 0xCF, 0xBE, 0xDD, 0xF5,
    0xF9, 0xB8, 0xA6, 0xAE, 0xAA, 0xF0, 0xA9, 0xEE
  ]
  const LATIN_B: seq<Byte> := [
    0xF8, 0xF1, 0xFD, 0xFC, 0xEF, 0xE6, 0xF4, 0xFA,
    0xF7, 0xFB, 0xA7, 0xAF, 0xAC, 0xAB, 0xF3, 0xA8
  ]
  const LATIN_C: seq<Byte> := [
    0xB7, 0xB5, 0xB6, 0xC7, 0x8E, 0x8F, 0x92, 0x80,
    0xD4, 0x90, 0xD2, 0xD3, 0xDE, 0xD6, 0xD7, 0xD8
  ]
  const LATIN_D: seq<Byte> := [
    0xD1, 0xA5, 0xE3, 0xE0, 0xE2, 0xE5, 0x99, 0x9E,
    0x9D, 0xEB, 0xE9, 0xEA, 0x9A, 0xED, 0xE8, 0xE1
  ]
  const LATIN_E: seq<Byte> := [
    0x85, 0xA0, 0x83, 0xC6, 0x84, 0x86, 0x91, 0x87,
    0x8A, 0x82, 0x88, 0x89, 0x8D, 0xA1, 0x8C, 0x8B
  ]
  const LATIN_F: seq<Byte> := [
    0xD0, 0xA4, 0x95, 0xA2, 0x93, 0xE4, 0x94, 0xF6,
    0x9B, 0x97, 0xA3, 0x96, 0x81, 0xEC, 0xE7, 0x98
  ]

  function LatinRow(i: nat): seq<Byte>
    requires i < 6
    ensures |LatinRow(i)| == 16
  {
    match i
    case 0 => LATIN_A
    case 1 => LATIN_B
    case 2 => LATIN_C
    case 3 => LATIN_D
    case 4 => LATIN_E
    case _ => LATIN_F
  }

  /** The octets of the runes beyond Latin-1: a letter, two signs, lines, corners and shades. */
  function OtherOctet(r: int): Option<Byte> {
    match r
    case 0x0192 => Some(0x9F)
    case 0x2017 => Some(0xF2)
    case 0x20AC => Some(0xD5)
    case 0x2500 => Some(0xC4)
    case 0x2502 => Some(0xB3)
    case 0x250C => Some(0xDA)
    case 0x2510 => Some(0xBF)
    case 0x2514 => Some(0xC0)
    case 0x2518 => Some(0xD9)
    case 0x251C => Some(0xC3)
    case 0x2524 => Some(0xB4)
    case 0x252C => Some(0xC2)
    case 0x2534 => Some(0xC1)
    case 0x253C => Some(0xC5)
    case 0x2550 => Some(0xCD)
    case 0x2551 => Some(0xBA)
    case 0x2554 => Some(0xC9)
    case 0x2557 => Some(0xBB)
    case 0x255A => Some(0xC8)
    case 0x255D => Some(0xBC)
    case 0x2560 => Some(0xCC)
    case 0x2563 => Some(0xB9)
    case 0x2566 => Some(0xCB)
    case 0x2569 => Some(0xCA)
    case 0x256C => Some(0xCE)
    case 0x2580 => Some(0xDF)
    case 0x2584 => Some(0xDC)
    case 0x2588 => Some(0xDB)
    case 0x2591 => Some(0xB0)
    case 0x2592 => Some(0xB1)
    case 0x2593 => Some(0xB2)
    case 0x25A0 => Some(0xFE)
    case _ => None
  }

  /** The octet for a rune, by the table the other way round. */
  function OctetOf(r: int): Option<Byte> {
    if 0 <= r < 0x80 then Some(r)
    else if 0xA0 <= r < 0x100 then Some(LatinRow(r / 16 - 10)[r % 16])
    else OtherOctet(r)
  }

  lemma Row8Back(col: nat)
    requires col < 16
    ensures ROW_8[col] >= 0x80 && OctetOf(ROW_8[col]) == Some(0x80 + col)
  {
  }

  lemma Row9Back(col: nat)
    requires col < 16
    ensures ROW_9[col] >= 0x80 && OctetOf(ROW_9[col]) == Some(0x90 + col)
  {
  }

  lemma RowABack(col: nat)
    requires col < 16
    ensures ROW_A[col] >= 0x80 && OctetOf(ROW_A[col]) == Some(0xA0 + col)
  {
  }

  lemma RowBBack(col: nat)
    requires col < 16
    ensures ROW_B[col] >= 0x80 && OctetOf(ROW_B[col]) == Some(0xB0 + col)
  {
  }

  lemma RowCBack(col: nat)
    requires col < 16
    ensures ROW_C[col] >= 0x80 && OctetOf(ROW_C[col]) == Some(0xC0 + col)
  {
  }

  lemma RowDBack(col: nat)
    requires col < 16
    ensures ROW_D[col] >= 0x80 && OctetOf(ROW_D[col]) == Some(0xD0 + col)
  {
  }

  lemma RowEBack(col: nat)
    requires col < 16
    ensures ROW_E[col] >= 0x80 && OctetOf(ROW_E[col]) == Some(0xE0 + col)
  {
  }

  lemma RowFBack(col: nat)
    requires col < 16
    ensures ROW_F[col] >= 0x80 && OctetOf(ROW_F[col]) == Some(0xF0 + col)
  {
  }

  lemma RowBack(row: nat, col: nat)
    requires row < 8 && col < 16
    ensures TableRow(row)[col] >= 0x80 && OctetOf(TableRow(row)[col]) == Some(0x80 + 16 * row + col)
  {
    hide OctetOf;
    match row
    case 0 => Row8Back(col);
    case 1 => Row9Back(col);
    case 2 => RowABack(col);
    case 3 => RowBBack(col);
    case 4 => RowCBack(col);
    case 5 => RowDBack(col);
    case 6 => RowEBack(col);
    case _ => RowFBack(col);
  }

  lemma LatinAForth(col: nat)
    requires col < 16
    ensures LATIN_A[col] >= 0x80 && TableRow(LATIN_A[col] / 16 - 8)[LATIN_A[col] % 16] == 0xA0 + col
  {
  }

  lemma LatinBForth(col: nat)
    requires col < 16
    ensures LATIN_B[col] >= 0x80 && TableRow(LATIN_B[col] / 16 - 8)[LATIN_B[col] % 16] == 0xB0 + col
  {
  }

  lemma LatinCForth(col: nat)
    requires col < 16
    ensures LATIN_C[col] >= 0x80 && TableRow(LATIN_C[col] / 16 - 8)[LATIN_C[col] % 16] == 0xC0 + col
  {
  }

  lemma LatinDForth(col: nat)
    requires col < 16
    ensures LATIN_D[col] >= 0x80 && TableRow(LATIN_D[col] / 16 - 8)[LATIN_D[col] % 16] == 0xD0 + col
  {
  }

  lemma LatinEForth(col: nat)
    requires col < 16
    ensures LATIN_E[col] >= 0x80 && TableRow(LATIN_E[col] / 16 - 8)[LATIN_E[col] % 16] == 0xE0 + col
  {
  }

  lemma LatinFForth(col: nat)
    requires col < 16
    ensures LATIN_F[col] >= 0x80 && TableRow(LATIN_F[col] / 16 - 8)[LATIN_F[col] % 16] == 0xF0 + col
  {
  }

  lemma LatinForth(row: nat, col: nat)
    requires row < 6 && col < 16
    ensures LatinRow(row)[col] >= 0x80
    ensures TableRow(LatinRow(row)[col] / 16 - 8)[LatinRow(row)[col] % 16] == 0xA0 + 16 * row + col
  {
    hide TableRow;
    match row
    case 0 => LatinAForth(col);
    case 1 => LatinBForth(col);
    case 2 => LatinCForth(col);
    case 3 => LatinDForth(col);
    case 4 => LatinEForth(col);
    case _ => LatinFForth(col);
  }

  lemma OtherForth(r: int)
    requires OtherOctet(r).Some?
    ensures OtherOctet(r).value >= 0x80 && TableRow(OtherOctet(r).value / 16 - 8)[OtherOctet(r).value % 16] == r
  {
  }

  /** Where the other table has an octet, this table has the rune. */
  lemma Forth(r: int)
    requires r >= 0x80 && OctetOf(r).Some?
    ensures OctetOf(r).value >= 0x80 && TABLE[OctetOf(r).value - 0x80] == r
  {
    hide LatinRow, OtherOctet, TableRow, TABLE;
    if 0xA0 <= r < 0x100 {
      LatinForth(r / 16 - 10, r % 16);
    } else {
      OtherForth(r);
    }
    TableIsRows(OctetOf(r).value - 0x80);
  }

  lemma Back(k: nat)
    requires k < |TABLE|
    ensures k < 128 && TABLE[k] >= 0x80 && OctetOf(TABLE[k]) == Some(0x80 + k)
  {
    hide TABLE, TableRow, OctetOf;
    TableIsRows(0);
    TableIsRows(k);
    RowBack(k / 16, k % 16);
  }

  /** The search through the code page finds the octet of the other table, for every rune, or neither has one. */
  lemma CodeIs(r: int)
    ensures Code(r) == OctetOf(r)
  {
    if r >= 0x80 {
      hide TABLE, OctetOf;
      IndexOfFinds(r, 0);
      var found := IndexOf(r, 0);
      if found.Some? {
        Back(found.value);
      } else if OctetOf(r).Some? {
        Forth(r);
        AllSearched(r, 0, OctetOf(r).value - 0x80);
      }
    } else if r < 0 {
      NoNegative(r);
    }
  }

  lemma {:induction false} AllSearched(r: int, from: nat, at: nat)
    requires from <= at < |TABLE| && TABLE[at] == r
    ensures IndexOf(r, from).Some?
    decreases at - from
  {
    hide TABLE;
    if from < at && TABLE[from] != r {
      AllSearched(r, from + 1, at);
    }
  }

  lemma NoNegative(r: int)
    requires r < 0
    ensures Code(r) == None && OctetOf(r) == None
  {
    hide TABLE, OctetOf;
    IndexOfFinds(r, 0);
    if IndexOf(r, 0).Some? {
      Back(IndexOf(r, 0).value);
    }
    assert OctetOf(r) == None by { NegativeOctet(r); }
  }

  lemma NegativeOctet(r: int)
    requires r < 0
    ensures OctetOf(r) == None
  {
  }

  /** The octets of the letters and the sign that German receipts need beyond ASCII. */
  lemma GermanCodes()
    ensures Code(0xE4) == Some(0x84) && Code(0xF6) == Some(0x94) && Code(0xFC) == Some(0x81)
    ensures Code(0xC4) == Some(0x8E) && Code(0xD6) == Some(0x99) && Code(0xDC) == Some(0x9A)
    ensures Code(0xDF) == Some(0xE1) && Code(0x20AC) == Some(0xD5)
  {
    hide Code;
    CodeIs(0xE4);
    CodeIs(0xF6);
    CodeIs(0xFC);
    CodeIs(0xC4);
    CodeIs(0xD6);
    CodeIs(0xDC);
    CodeIs(0xDF);
    CodeIs(0x20AC);
  }

  // ----- encoding -----

  predicate EncodableSym(y: Sym) { y.Good? && Code(y.rune).Some? }

  predicate Encodable(s: seq<Byte>) {
    forall i :: 0 <= i < |Decode(s)| ==> EncodableSym(Decode(s)[i])
  }

  /** Encoder.Bytes: all octets, or an error at the first invalid octet or rune the code page lacks. */
  function Encode(s: seq<Byte>): Option<seq<Byte>> {
    if s == [] then Some([])
    else if !EncodableSym(First(s)) then None
    else match Encode(s[Size(s)..])
      case Some(rest) => Some([Code(First(s).rune).value] + rest)
      case None => None
  }

  /** strings.ToValidUTF8(s, "?"): each run of invalid octets becomes one question mark. */
  function ToValid(s: seq<Byte>, invalid: bool): seq<Byte> {
    if s == [] then []
    else if Complete(s) then s[..Size(s)] + ToValid(s[Size(s)..], false)
    else (if invalid then [] else [0x3F]) + ToValid(s[1..], true)
  }

  /** The bytes sent for a string: empty when it has a rune the code page lacks. */
  function Encode858(s: seq<Byte>): seq<Byte> {
    match Encode(s)
    case Some(out) => out
    case None => match Encode(ToValid(s, false)) case Some(out) => out case None => []
  }

  // ----- the same on decoded strings -----

  function Collapse(ys: seq<Sym>, invalid: bool): seq<Sym> {
    if ys == [] then []
    else if ys[0].Good? then [ys[0]] + Collapse(ys[1..], false)
    else (if invalid then [] else [Good(0x3F)]) + Collapse(ys[1..], true)
  }

  lemma {:induction false} DecodeToValid(s: seq<Byte>, invalid: bool)
    ensures Decode(ToValid(s, invalid)) == Collapse(Decode(s), invalid)
  {
    if s != [] {
      var n := Size(s);
      var rest := ToValid(s[n..], !Complete(s));
      DecodeToValid(s[n..], !Complete(s));
      assert Decode(s)[1..] == Decode(s[n..]) && Decode(s)[0] == First(s);
      if Complete(s) {
        var t := s[..n] + rest;
        assert Complete(t) && Size(t) == n && First(t) == First(s);
        assert t[n..] == rest;
      } else if invalid {
        assert ToValid(s, true) == rest;
      } else {
        var t := [0x3F] + rest;
        assert ToValid(s, false) == t;
        assert t[1..] == rest;
        assert Complete(t) && First(t) == Good(0x3F) && Size(t) == 1;
        assert Decode(t) == [Good(0x3F)] + Decode(rest);
      }
    }
  }

  /** An encoding succeeds exactly on encodable strings, one octet per rune, and the printer shows those runes. */
  lemma {:induction false} EncodeShows(s: seq<Byte>)
    ensures Encode(s).Some? <==> Encodable(s)
    ensures Encode(s).Some? ==>
      && |Encode(s).value| == |Decode(s)|
      && (forall i :: 0 <= i < |Decode(s)| ==>
            && Decode(s)[i] == Good(Shown(Encode(s).value[i]))
            && (Decode(s)[i] == Good(0x0A) <==> Encode(s).value[i] == 0x0A))
  {
    hide Shown, Code, Complete;
    if s != [] {
      var ys, rest := Decode(s), s[Size(s)..];
      EncodeShows(rest);
      assert ys == [First(s)] + Decode(rest);
      assert Encodable(s) <==> EncodableSym(First(s)) && Encodable(rest) by {
        assert ys[1..] == Decode(rest) && ys[0] == First(s);
        if Encodable(s) {
          forall i | 0 <= i < |Decode(rest)| ensures EncodableSym(Decode(rest)[i]) { assert ys[i + 1] == Decode(rest)[i]; }
        }
      }
      if EncodableSym(First(s)) {
        ShownCode(First(s).rune);
      }
    }
  }

  // ----- how long an encoded string is -----

  predicate GoodOnesEncodable(ys: seq<Sym>) {
    forall i :: 0 <= i < |ys| && ys[i].Good? ==> EncodableSym(ys[i])
  }

  predicate NoBadPair(ys: seq<Sym>) {
    forall i :: 0 <= i < |ys| - 1 ==> ys[i].Good? || ys[i + 1].Good?
  }

  predicate AllEncodable(ys: seq<Sym>) {
    forall i :: 0 <= i < |ys| ==> EncodableSym(ys[i])
  }

  lemma NoBadPairStep(y: Sym, rest: seq<Sym>)
    ensures NoBadPair([y] + rest) <==> NoBadPair(rest) && (rest != [] ==> y.Good? || rest[0].Good?)
  {
    var ys := [y] + rest;
    assert forall i :: 0 <= i < |rest| ==> ys[i + 1] == rest[i];
    if NoBadPair(ys) {
      forall i | 0 <= i < |rest| - 1
        ensures rest[i].Good? || rest[i + 1].Good?
      {
        assert ys[i + 1].Good? || ys[i + 1 + 1].Good?;
      }
      assert rest != [] ==> ys[0].Good? || ys[0 + 1].Good?;
    }
  }

  lemma GoodOnesStep(y: Sym, rest: seq<Sym>)
    ensures GoodOnesEncodable([y] + rest) <==> GoodOnesEncodable(rest) && (y.Good? ==> EncodableSym(y))
  {
    hide EncodableSym;
    var ys := [y] + rest;
    if GoodOnesEncodable(ys) {
      forall i | 0 <= i < |rest| && rest[i].Good?
        ensures EncodableSym(rest[i])
      {
        assert ys[i + 1] == rest[i];
      }
      assert ys[0] == y;
    }
  }

  lemma AllStep(y: Sym, rest: seq<Sym>)
    ensures AllEncodable([y] + rest) <==> EncodableSym(y) && AllEncodable(rest)
  {
    hide EncodableSym;
    var ys := [y] + rest;
    if AllEncodable(ys) {
      forall i | 0 <= i < |rest|
        ensures EncodableSym(rest[i])
      {
        assert ys[i + 1] == rest[i];
      }
      assert ys[0] == y;
    }
  }

  lemma {:induction false} CollapseEncodable(ys: seq<Sym>, invalid: bool)
    ensures AllEncodable(Collapse(ys, invalid)) <==> GoodOnesEncodable(ys)
  {
    hide AllEncodable, GoodOnesEncodable, Code;
    if ys == [] {
      assert AllEncodable([]) && GoodOnesEncodable([]) by { NothingToEncode(); }
    } else {
      var y, rest := ys[0], ys[1..];
      assert ys == [y] + rest;
      CollapseEncodable(rest, y.Bad?);
      GoodOnesStep(y, rest);
      QuestionMark();
      AllStep(if y.Good? then y else Good(0x3F), Collapse(rest, y.Bad?));
      assert [] + Collapse(rest, y.Bad?) == Collapse(rest, y.Bad?);
    }
  }

  /** With its invalid octets replaced, a string is encodable exactly when its runes are. */
  lemma ReplacedEncodable(s: seq<Byte>)
    ensures Encodable(ToValid(s, false)) <==> GoodOnesEncodable(Decode(s))
  {
    hide Collapse, Decode, ToValid, Code, EncodableSym;
    DecodeToValid(s, false);
    CollapseEncodable(Decode(s), false);
  }

  lemma NothingToEncode()
    ensures AllEncodable([]) && GoodOnesEncodable([])
  {
  }

  lemma {:induction false} CollapseLength(ys: seq<Sym>, invalid: bool)
    ensures |Collapse(ys, invalid)| <= |ys|
    ensures |Collapse(ys, invalid)| == |ys| <==> NoBadPair(ys) && !(invalid && ys != [] && ys[0].Bad?)
  {
    if ys != [] {
      hide NoBadPair;
      var rest := ys[1..];
      assert ys == [ys[0]] + rest;
      CollapseLength(rest, ys[0].Bad?);
      NoBadPairStep(ys[0], rest);
    }
  }

  lemma QuestionMark()
    ensures EncodableSym(Good(0x3F))
  {
  }

  /**
   * An encoded string has at most one octet per rune or invalid octet. It has exactly that many if and only if the
   * code page has all its runes and no two invalid octets are neighbours; with a rune missing it is empty.
   */
  lemma EncodedLength(s: seq<Byte>)
    ensures |Encode858(s)| <= |Decode(s)|
    ensures |Encode858(s)| == |Decode(s)| <==> Decode(s) == [] || (GoodOnesEncodable(Decode(s)) && NoBadPair(Decode(s)))
    ensures !GoodOnesEncodable(Decode(s)) ==> Encode858(s) == []
  {
    hide Code, Encode, ToValid, Collapse;
    var ys := Decode(s);
    EncodeShows(s);
    EncodeShows(ToValid(s, false));
    DecodeToValid(s, false);
    CollapseLength(ys, false);
    ReplacedEncodable(s);
    if Encode(s).Some? {
      assert Encodable(s);
      assert forall i :: 0 <= i < |ys| ==> ys[i].Good? by { assert forall i :: 0 <= i < |ys| ==> EncodableSym(ys[i]); }
    }
  }

  /** Any number of octets that start nothing come out as one question mark. */
  lemma {:induction false} StrayOctetsAsOne(s: seq<Byte>)
    requires s != [] && forall i :: 0 <= i < |s| ==> Cont(s[i])
    ensures Encode858(s) == [0x3F]
  {
    assert Cont(s[0]) && !Complete(s);
    hide Code;
    OneMark(s, false);
    assert [0x3F][1..] == [] && First([0x3F]) == Good(0x3F) && Size([0x3F]) == 1;
    QuestionMark();
    ShownCode(0x3F);
    assert Encode([]) == Some([]);
  }

  lemma {:induction false} OneMark(s: seq<Byte>, invalid: bool)
    requires forall i :: 0 <= i < |s| ==> Cont(s[i])
    ensures ToValid(s, invalid) == if invalid || s == [] then [] else [0x3F]
  {
    if s != [] {
      assert Cont(s[0]);
      OneMark(s[1..], true);
    }
  }
}
