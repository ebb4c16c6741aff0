/** internal/updater/trigger.go: what an update request must look like, and what is stored of it. */
module UpdateRequests {
  import opened Basics

  const DOWNLOADS := "https://github.com/orderpy/orderpy-bridge-go/releases/download/v"

  /** The fields of the message; a missing one, or one that should be text and is not, is empty. */
  datatype Payload = Payload(
    target: string,
    tarball: string,
    minisig: string,
    sha: string,
    requestedAt: Option<string>,
    requestedBy: Option<string>)

  /** What the trigger file holds. */
  datatype Request = Request(
    target: string,
    tarball: string,
    minisig: string,
    sha: string,
    requestedAt: Option<string>,
    requestedBy: string)

  function Stored(p: Payload): Request {
    Request(p.target, p.tarball, p.minisig, p.sha, p.requestedAt, if p.requestedBy.None? then "cloud" else p.requestedBy.value)
  }

  // ----- characters -----

  predicate IsDigit(c: char) { '0' <= c <= '9' }

  predicate IsLetterOrDigit(c: char) { IsDigit(c) || 'a' <= c <= 'z' || 'A' <= c <= 'Z' }

  predicate IsHexDigit(c: char) { IsDigit(c) || 'a' <= c <= 'f' || 'A' <= c <= 'F' }

  predicate AllDigits(s: string) { forall i :: 0 <= i < |s| ==> IsDigit(s[i]) }

  predicate IsNumber(s: string) { s != "" && AllDigits(s) }

  predicate IsSuffix(s: string) {
    s == "" || (|s| >= 2 && (s[0] == '-' || s[0] == '+')
                && forall i :: 1 <= i < |s| ==> IsLetterOrDigit(s[i]) || s[i] == '.' || s[i] == '-')
  }

  predicate IsFile(s: string) {
    |s| >= 2 && s[0] == '/' && forall i :: 1 <= i < |s| ==> IsLetterOrDigit(s[i]) || s[i] == '.' || s[i] == '_' || s[i] == '-'
  }

  predicate IsSha(s: string) { |s| == 64 && forall i :: 0 <= i < |s| ==> IsHexDigit(s[i]) }

  // ----- the patterns -----

  /** Three numbers with dots between them, and the rest. */
  ghost predicate Triple(s: string, rest: string) {
    exists a, b, c: string :: IsNumber(a) && IsNumber(b) && IsNumber(c) && s == Joined(a, b, c, rest)
  }

  function Joined(a: string, b: string, c: string, rest: string): string {
    a + ("." + (b + ("." + (c + rest))))
  }

  ghost predicate MatchesVersion(s: string) {
    exists rest: string :: IsSuffix(rest) && Triple(s, rest)
  }

  ghost predicate MatchesUrl(s: string) {
    exists rest: string, version: string :: IsFile(rest) && Triple(version, rest) && s == DOWNLOADS + version
  }

  /** The character classes of the patterns, written out. */
  lemma DigitsAreThese(c: char)
    ensures IsDigit(c) <==> c in "0123456789"
  {
    if IsDigit(c) {
      assert "0123456789"[c as int - '0' as int] == c;
    }
  }

  lemma CapitalsAreThese(c: char)
    ensures 'A' <= c <= 'Z' <==> c in "ABCDEFGHIJKLMNOPQRSTUVWXYZ"
  {
    var s := "ABCDEFGHIJKLMNOPQRSTUVWXYZ";
    if 'A' <= c <= 'Z' {
      assert s[c as int - 'A' as int] == c;
    } else {
      assert c !in s;
    }
  }

  lemma SmallLettersAreThese(c: char)
    ensures 'a' <= c <= 'z' <==> c in "abcdefghijklmnopqrstuvwxyz"
  {
    var s := "abcdefghijklmnopqrstuvwxyz";
    if 'a' <= c <= 'z' {
      assert s[c as int - 'a' as int] == c;
    } else {
      assert c !in s;
    }
  }

  lemma LettersAreThese(c: char)
    ensures IsLetterOrDigit(c) <==>
      c in "0123456789" || c in "ABCDEFGHIJKLMNOPQRSTUVWXYZ" || c in "abcdefghijklmnopqrstuvwxyz"
  {
    DigitsAreThese(c);
    CapitalsAreThese(c);
    SmallLettersAreThese(c);
  }

  lemma HexDigitsAreThese(c: char)
    ensures IsHexDigit(c) <==> IsDigit(c) || c in "ABCDEF" || c in "abcdef"
  {
    if 'A' <= c <= 'F' {
      assert "ABCDEF"[c as int - 'A' as int] == c;
    } else if 'a' <= c <= 'f' {
      assert "abcdef"[c as int - 'a' as int] == c;
    }
  }

  lemma ChecksumIs(s: string)
    ensures IsSha(s) <==>
      |s| == 64 && forall i :: 0 <= i < |s| ==> s[i] in "0123456789" || s[i] in "ABCDEF" || s[i] in "abcdef"
  {
    hide IsHexDigit;
    forall i | 0 <= i < |s|
      ensures IsHexDigit(s[i]) <==> s[i] in "0123456789" || s[i] in "ABCDEF" || s[i] in "abcdef"
    {
      HexDigitsAreThese(s[i]);
      DigitsAreThese(s[i]);
    }
  }

  /** What may follow the three numbers of a version, and of a link: one sign, and some of these characters. */
  lemma SuffixIs(c: char, x: string)
    ensures IsSuffix("")
    ensures IsSuffix([c] + x) <==> (c == '-' || c == '+') && x != "" && forall i :: 0 <= i < |x| ==>
      x[i] in "0123456789" || x[i] in "ABCDEFGHIJKLMNOPQRSTUVWXYZ" || x[i] in "abcdefghijklmnopqrstuvwxyz" || x[i] == '.' || x[i] == '-'
  {
    hide IsLetterOrDigit;
    var s := [c] + x;
    forall i | 0 <= i < |x|
      ensures s[i + 1] == x[i]
      ensures IsLetterOrDigit(x[i]) <==>
        x[i] in "0123456789" || x[i] in "ABCDEFGHIJKLMNOPQRSTUVWXYZ" || x[i] in "abcdefghijklmnopqrstuvwxyz"
    {
      LettersAreThese(x[i]);
    }
  }

  lemma FileIs(c: char, x: string)
    ensures !IsFile("")
    ensures IsFile([c] + x) <==> c == '/' && x != "" && forall i :: 0 <= i < |x| ==>
      || x[i] in "0123456789" || x[i] in "ABCDEFGHIJKLMNOPQRSTUVWXYZ" || x[i] in "abcdefghijklmnopqrstuvwxyz"
      || x[i] == '.' || x[i] == '_' || x[i] == '-'
  {
    hide IsLetterOrDigit;
    var s := [c] + x;
    forall i | 0 <= i < |x|
      ensures s[i + 1] == x[i]
      ensures IsLetterOrDigit(x[i]) <==>
        x[i] in "0123456789" || x[i] in "ABCDEFGHIJKLMNOPQRSTUVWXYZ" || x[i] in "abcdefghijklmnopqrstuvwxyz"
    {
      LettersAreThese(x[i]);
    }
  }

  // ----- scanning -----

  /** Number of leading digits. */
  function Digits(s: string): (n: nat)
    ensures n <= |s|
  {
    if s == "" || !IsDigit(s[0]) then 0 else 1 + Digits(s[1..])
  }

  function AfterNumber(s: string): Option<string> {
    if Digits(s) == 0 then None else Some(s[Digits(s)..])
  }

  function AfterNumberAndDot(s: string): Option<string> {
    match AfterNumber(s)
    case None => None
    case Some(rest) => if rest != "" && rest[0] == '.' then Some(rest[1..]) else None
  }

  function AfterTriple(s: string): Option<string> {
    match AfterNumberAndDot(s)
    case None => None
    case Some(s2) =>
      match AfterNumberAndDot(s2)
      case None => None
      case Some(s3) => AfterNumber(s3)
  }

  predicate IsVersion(s: string) {
    AfterTriple(s).Some? && IsSuffix(AfterTriple(s).value)
  }

  predicate IsAllowedUrl(s: string) {
    DOWNLOADS <= s && var rest := AfterTriple(s[|DOWNLOADS|..]); rest.Some? && IsFile(rest.value)
  }

  // ----- the scan finds exactly the matches -----

  lemma {:induction false} DigitsAre(s: string)
    ensures AllDigits(s[..Digits(s)]) && (Digits(s) < |s| ==> !IsDigit(s[Digits(s)]))
  {
    if s != "" && IsDigit(s[0]) {
      DigitsAre(s[1..]);
      assert forall i :: 1 <= i < Digits(s) ==> s[i] == s[1..][..Digits(s[1..])][i - 1];
    }
  }

  lemma {:induction false} DigitsOf(a: string, rest: string)
    requires AllDigits(a) && (rest != "" ==> !IsDigit(rest[0]))
    ensures Digits(a + rest) == |a| && (a + rest)[|a|..] == rest
  {
    if a == "" {
      assert a + rest == rest;
    } else {
      DigitsOf(a[1..], rest);
      assert (a + rest)[1..] == a[1..] + rest;
    }
  }

  lemma NumberScan(s: string, rest: string)
    requires rest != "" ==> !IsDigit(rest[0])
    ensures AfterNumber(s) == Some(rest) <==> exists a: string :: IsNumber(a) && s == a + rest
  {
    DigitsAre(s);
    if AfterNumber(s) == Some(rest) {
      assert s == s[..Digits(s)] + rest;
    }
    if a: string :| IsNumber(a) && s == a + rest {
      DigitsOf(a, rest);
    }
  }

  lemma DotScan(s: string, rest: string)
    ensures AfterNumberAndDot(s) == Some(rest) <==> exists a: string :: IsNumber(a) && s == a + ("." + rest)
  {
    NumberScan(s, "." + rest);
    assert ("." + rest)[1..] == rest;
    if AfterNumberAndDot(s) == Some(rest) {
      var tail := AfterNumber(s).value;
      assert tail == "." + rest;
    }
  }

  lemma TripleScan(s: string, rest: string)
    requires rest != "" ==> !IsDigit(rest[0])
    ensures AfterTriple(s) == Some(rest) <==> Triple(s, rest)
  {
    hide AfterNumber, AfterNumberAndDot, IsNumber;
    if AfterTriple(s) == Some(rest) {
      var s2 := AfterNumberAndDot(s).value;
      var s3 := AfterNumberAndDot(s2).value;
      DotScan(s, s2);
      DotScan(s2, s3);
      NumberScan(s3, rest);
      var a: string :| IsNumber(a) && s == a + ("." + s2);
      var b: string :| IsNumber(b) && s2 == b + ("." + s3);
      var c: string :| IsNumber(c) && s3 == c + rest;
      assert s == Joined(a, b, c, rest);
    }
    if Triple(s, rest) {
      var a, b, c: string :| IsNumber(a) && IsNumber(b) && IsNumber(c) && s == Joined(a, b, c, rest);
      var s3 := c + rest;
      var s2 := b + ("." + s3);
      DotScan(s, s2);
      DotScan(s2, s3);
      NumberScan(s3, rest);
    }
  }

  /** An accepted version is three numbers, and nothing more or a suffix after a dash or a plus sign. */
  lemma VersionScan(s: string)
    ensures IsVersion(s) <==> MatchesVersion(s)
  {
    hide AfterTriple, Triple;
    if IsVersion(s) {
      TripleScan(s, AfterTriple(s).value);
    }
    if rest: string :| IsSuffix(rest) && Triple(s, rest) {
      TripleScan(s, rest);
    }
  }

  /** An accepted link is a file of a release of this repository, directly below its version. */
  lemma UrlScan(s: string)
    ensures IsAllowedUrl(s) <==> MatchesUrl(s)
  {
    hide AfterTriple, Triple;
    if IsAllowedUrl(s) {
      var version := s[|DOWNLOADS|..];
      TripleScan(version, AfterTriple(version).value);
      assert s == DOWNLOADS + version;
    }
    if rest: string, version: string :| IsFile(rest) && Triple(version, rest) && s == DOWNLOADS + version {
      TripleScan(version, rest);
      assert s[|DOWNLOADS|..] == version;
    }
  }

  /** After three numbers with dots between them, what decides is the rest. */
  lemma AfterThreeNumbers(a: string, b: string, c: string, rest: string)
    requires a != "" && b != "" && c != "" && (rest != "" ==> rest[0] !in "0123456789")
    requires forall i :: 0 <= i < |a| ==> a[i] in "0123456789"
    requires forall i :: 0 <= i < |b| ==> b[i] in "0123456789"
    requires forall i :: 0 <= i < |c| ==> c[i] in "0123456789"
    ensures var version := a + ("." + (b + ("." + (c + rest))));
      && (IsVersion(version) <==> IsSuffix(rest))
      && (IsAllowedUrl("https://github.com/orderpy/orderpy-bridge-go/releases/download/v" + version) <==> IsFile(rest))
  {
    AllDigitsAre(a);
    AllDigitsAre(b);
    AllDigitsAre(c);
    if rest != "" {
      DigitsAreThese(rest[0]);
    }
    hide IsDigit, AllDigits, AfterTriple, IsSuffix, IsFile;
    var version := a + ("." + (b + ("." + (c + rest))));
    assert version == Joined(a, b, c, rest);
    assert Triple(version, rest);
    TripleScan(version, rest);
    var url := "https://github.com/orderpy/orderpy-bridge-go/releases/download/v" + version;
    assert url[|DOWNLOADS|..] == version;
  }

  lemma AllDigitsAre(s: string)
    ensures AllDigits(s) <==> forall i :: 0 <= i < |s| ==> s[i] in "0123456789"
  {
    hide IsDigit;
    forall i | 0 <= i < |s|
      ensures IsDigit(s[i]) <==> s[i] in "0123456789"
    {
      DigitsAreThese(s[i]);
    }
  }

  /** The links and the checksum are acceptable. */
  predicate LinksOk(p: Payload) { IsAllowedUrl(p.tarball) && IsAllowedUrl(p.minisig) && IsSha(p.sha) }
}
