/**
 Base64 as sections 4 and 5 of RFC 4648 define it, and the browser's helpers around `btoa` and `atob`.
 */
module Base64 {
  import opened Records

  type Sextet = n: int | 0 <= n < 64

  // ---- The two primitives of the platform ----

  function Letter(n: Sextet): char {
    if n < 26 then 'A' + n as char
    else if n < 52 then 'a' + (n - 26) as char
    else if n < 62 then '0' + (n - 52) as char
    else if n == 62 then '+' else '/'
  }

  function SextetOf(c: char): Option<Sextet> {
    if 'A' <= c <= 'Z' then Some((c - 'A') as int)
    else if 'a' <= c <= 'z' then Some((c - 'a') as int + 26)
    else if '0' <= c <= '9' then Some((c - '0') as int + 52)
    else if c == '+' then Some(62)
    else if c == '/' then Some(63)
    else None
  }

  const CAPITALS: string := "ABCDEFGHIJKLMNOPQRSTUVWXYZ"
  const SMALLS: string := "abcdefghijklmnopqrstuvwxyz"
  const FIGURES: string := "0123456789"

  /** Table 1 of RFC 4648; table 2 has other letters for the last two. */
  lemma LetterIs(n: Sextet)
    ensures |CAPITALS| == |SMALLS| == 26 && |FIGURES| == 10
    ensures Letter(n) == (CAPITALS + SMALLS + FIGURES + "+/")[n]
  {
    if n < 26 { CapitalIs(n); }
    else if n < 52 { SmallIs(n - 26); }
    else if n < 62 { assert FIGURES[n - 52] == '0' + (n - 52) as char; }
  }

  lemma CapitalIs(n: nat)
    requires n < 26
    ensures CAPITALS[n] == 'A' + n as char
  {
  }

  lemma SmallIs(n: nat)
    requires n < 26
    ensures SMALLS[n] == 'a' + n as char
  {
  }

  /** Six bits at a time; what is missing at the end is filled with zero bits. */
  function Sextets(b: seq<Byte>): seq<Sextet> {
    if |b| == 0 then []
    else if |b| == 1 then [b[0] / 4, b[0] % 4 * 16]
    else if |b| == 2 then [b[0] / 4, b[0] % 4 * 16 + b[1] / 16, b[1] % 16 * 4]
    else [b[0] / 4, b[0] % 4 * 16 + b[1] / 16, b[1] % 16 * 4 + b[2] / 64, b[2] % 64] + Sextets(b[3..])
  }

  function Upper(m: int, n: int): Byte
    requires 0 <= m < 64 && 0 <= n < 64
  {
    m * 4 + n / 16
  }

  function Middle(m: int, n: int): Byte
    requires 0 <= m < 64 && 0 <= n < 64
  {
    m % 16 * 16 + n / 4
  }

  function Lower(m: int, n: int): Byte
    requires 0 <= m < 64 && 0 <= n < 64
  {
    m % 4 * 64 + n
  }

  /** Eight bits at a time; bits left over at the end are dropped. */
  function Octets(v: seq<Sextet>): seq<Byte> {
    if |v| < 2 then []
    else if |v| == 2 then [Upper(v[0], v[1])]
    else if |v| == 3 then [Upper(v[0], v[1]), Middle(v[1], v[2])]
    else [Upper(v[0], v[1]), Middle(v[1], v[2]), Lower(v[2], v[3])] + Octets(v[4..])
  }

  function Letters(v: seq<Sextet>): (s: string)
    ensures |s| == |v|
  {
    seq(|v|, i requires 0 <= i < |v| => Letter(v[i]))
  }

  function Repeat(c: char, n: nat): (s: string)
    ensures |s| == n
  {
    seq(n, _ => c)
  }

  /** The standard encoding, padded to a multiple of four. */
  function Encode(b: seq<Byte>): string {
    Letters(Sextets(b)) + Repeat('=', (3 - |b| % 3) % 3)
  }

  /** `btoa` takes a string whose characters are bytes and refuses any other. */
  function Btoa(bin: string): Result<string> {
    if forall i :: 0 <= i < |bin| ==> bin[i] as int < 256
    then Ok(Encode(seq(|bin|, i requires 0 <= i < |bin| && bin[i] as int < 256 => bin[i] as int)))
    else Err("InvalidCharacterError")
  }

  predicate IsSpace(c: char) {
    c == ' ' || c == '\t' || c == '\n' || c == '\r' || c == 12 as char
  }

  function Unspaced(s: string): string {
    if s == "" then "" else (if IsSpace(s[0]) then "" else [s[0]]) + Unspaced(s[1..])
  }

  function Unpadded(s: string): string {
    if |s| % 4 != 0 || s == "" || s[|s| - 1] != '=' then s
    else if |s| >= 2 && s[|s| - 2] == '=' then s[..|s| - 2]
    else s[..|s| - 1]
  }

  predicate AllLetters(s: string) {
    forall i :: 0 <= i < |s| ==> SextetOf(s[i]).Some?
  }

  function Values(s: string): (v: seq<Sextet>)
    requires AllLetters(s)
    ensures |v| == |s|
  {
    seq(|s|, i requires 0 <= i < |s| => SextetOf(s[i]).value)
  }

  /** `atob`, the forgiving decoder of the Infra standard: white space and missing padding pass. */
  function Atob(s: string): Result<seq<Byte>> {
    var t := Unpadded(Unspaced(s));
    if |t| % 4 == 1 || !AllLetters(t) then Err("InvalidCharacterError") else Ok(Octets(Values(t)))
  }

  // ---- The URL-safe form ----

  function Replace(s: string, from: char, to: char): (r: string)
    ensures |r| == |s|
  {
    seq(|s|, i requires 0 <= i < |s| => if s[i] == from then to else s[i])
  }

  function StripPadding(s: string): string {
    if s != "" && s[|s| - 1] == '=' then StripPadding(s[..|s| - 1]) else s
  }

  function B64Url(b: seq<Byte>): string {
    StripPadding(Replace(Replace(Encode(b), '+', '-'), '/', '_'))
  }

  /** How many characters are missing to a multiple of four. */
  function Missing(n: nat): (k: nat)
    ensures k < 4 && (n + k) % 4 == 0 && (k == 3 <==> n % 4 == 1)
  {
    if n % 4 == 0 then 0 else 4 - n % 4
  }

  function Padded(s: string): string {
    s + Repeat('=', Missing(|s|))
  }

  function B64UrlToBytes(s: string): Result<seq<Byte>> {
    Atob(Padded(Replace(Replace(s, '-', '+'), '_', '/')))
  }

  // ---- The helpers as the browser runs them ----

  method BytesToB64(bytes: array<Byte>) returns (s: string)
    ensures s == Encode(bytes[..])
  {
    var bin := "";
    for i := 0 to bytes.Length
      invariant |bin| == i
      invariant forall k :: 0 <= k < i ==> bin[k] as int == bytes[k]
    {
      bin := bin + [bytes[i] as char];
    }
    var r := Btoa(bin);
    assert r.Ok? && seq(|bin|, i requires 0 <= i < |bin| && bin[i] as int < 256 => bin[i] as int) == bytes[..];
    s := r.value;
  }

  method B64ToBytes(s: string) returns (r: Result<array<Byte>>)
    ensures r.Ok? <==> Atob(s).Ok?
    ensures r.Ok? ==> fresh(r.value) && r.value[..] == Atob(s).value
  {
    var decoded := Atob(s);
    if decoded.Err? { return Err(decoded.error); }
    var bin := decoded.value;
    var out := new Byte[|bin|](_ => 0);
    for i := 0 to |bin|
      invariant forall k :: 0 <= k < i ==> out[k] == bin[k]
    {
      out[i] := bin[i];
    }
    assert out[..] == bin;
    return Ok(out);
  }

  method PadAndDecode(input: string) returns (r: Result<array<Byte>>)
    ensures r.Ok? <==> B64UrlToBytes(input).Ok?
    ensures r.Ok? ==> r.value[..] == B64UrlToBytes(input).value
  {
    var mapped := Replace(Replace(input, '-', '+'), '_', '/');
    var s := mapped;
    while |s| % 4 != 0
      invariant |mapped| <= |s| <= |Padded(mapped)|
      invariant s == mapped + Repeat('=', |s| - |mapped|)
      decreases |Padded(mapped)| - |s|
    {
      s := s + "=";
    }
    assert s == Padded(mapped);
    r := B64ToBytes(s);
  }

  // ---- Lossless ----

  lemma LetterRoundTrip(n: Sextet)
    ensures SextetOf(Letter(n)) == Some(n)
    ensures Letter(n) !in "=-_" && !IsSpace(Letter(n))
  {
  }

  lemma {:induction false} SextetsLength(b: seq<Byte>)
    ensures |Sextets(b)| == (4 * |b| + 2) / 3
  {
    if |b| >= 3 { SextetsLength(b[3..]); }
  }

  /** Three bytes are cut into four sextets, and these are put together again. */
  lemma ThreeBytes(x: Byte, y: Byte, z: Byte)
    ensures Upper(x / 4, x % 4 * 16 + y / 16) == x
    ensures Middle(x % 4 * 16 + y / 16, y % 16 * 4 + z / 64) == y
    ensures Lower(y % 16 * 4 + z / 64, z % 64) == z
  {
  }

  function Number(a: int, b: int, c: int, d: int, base: int): int {
    ((a * base + b) * base + c) * base + d
  }

  /** Three bytes and their four sextets are one number of 24 bits, the first of each counting most. */
  lemma {:induction false} SextetsAre(b: seq<Byte>, k: nat)
    requires 3 * k + 3 <= |b|
    ensures |Sextets(b)| >= 4 * k + 4
    ensures var v := Sextets(b);
      Number(v[4 * k], v[4 * k + 1], v[4 * k + 2], v[4 * k + 3], 64) == Number(0, b[3 * k], b[3 * k + 1], b[3 * k + 2], 256)
  {
    SextetsLength(b);
    if k == 0 {
      assert Sextets(b) == [b[0] / 4, b[0] % 4 * 16 + b[1] / 16, b[1] % 16 * 4 + b[2] / 64, b[2] % 64] + Sextets(b[3..]);
    } else {
      SextetsAre(b[3..], k - 1);
      assert Sextets(b)[4..] == Sextets(b[3..]);
    }
  }

  /** What is left over is filled with zero bits: one byte becomes two letters, two become three, and padding follows. */
  lemma TestVectors()
    ensures Encode([]) == "" && Encode([102]) == "Zg==" && Encode([102, 111]) == "Zm8="
  {
  }

  lemma {:induction false} OctetsOfSextets(b: seq<Byte>)
    ensures Octets(Sextets(b)) == b
  {
    hide Upper, Middle, Lower;
    if |b| == 1 {
      ThreeBytes(b[0], 0, 0);
    } else if |b| == 2 {
      ThreeBytes(b[0], b[1], 0);
    } else if |b| >= 3 {
      var v := Sextets(b);
      ThreeBytes(b[0], b[1], b[2]);
      OctetsOfSextets(b[3..]);
      assert v[4..] == Sextets(b[3..]);
      assert Octets(v) == [b[0], b[1], b[2]] + b[3..];
    }
  }

  lemma {:induction false} UnspacedId(s: string)
    requires forall i :: 0 <= i < |s| ==> !IsSpace(s[i])
    ensures Unspaced(s) == s
  {
    if s != "" { UnspacedId(s[1..]); }
  }

  lemma {:induction false} StripRepeat(s: string, n: nat)
    requires s == "" || s[|s| - 1] != '='
    ensures StripPadding(s + Repeat('=', n)) == s
  {
    var t := s + Repeat('=', n);
    if n == 0 {
      assert t == s;
    } else {
      assert t[..|t| - 1] == s + Repeat('=', n - 1);
      StripRepeat(s, n - 1);
    }
  }

  /** The URL-safe spelling of the letters. */
  function UrlLetters(v: seq<Sextet>): string {
    Replace(Replace(Letters(v), '+', '-'), '/', '_')
  }

  /** Table 2 of RFC 4648. */
  lemma UrlLetterIs(n: Sextet)
    ensures |CAPITALS| == |SMALLS| == 26 && |FIGURES| == 10
    ensures UrlLetters([n]) == [(CAPITALS + SMALLS + FIGURES + "-_")[n]]
  {
    LetterIs(n);
    assert Letters([n]) == [Letter(n)];
    if n < 62 {
      assert (CAPITALS + SMALLS + FIGURES + "-_")[n] == (CAPITALS + SMALLS + FIGURES + "+/")[n];
      assert Letter(n) != '+' && Letter(n) != '/';
    }
  }

  lemma UrlLettersFacts(v: seq<Sextet>)
    ensures |UrlLetters(v)| == |v|
    ensures forall i :: 0 <= i < |v| ==> UrlLetters(v)[i] != '=' && UrlLetters(v)[i] != '+' && UrlLetters(v)[i] != '/'
    ensures Replace(Replace(UrlLetters(v), '-', '+'), '_', '/') == Letters(v)
    ensures AllLetters(Letters(v)) && Values(Letters(v)) == v
    ensures forall i :: 0 <= i < |v| ==> !IsSpace(Letters(v)[i]) && Letters(v)[i] != '='
  {
    forall i | 0 <= i < |v| ensures SextetOf(Letters(v)[i]) == Some(v[i]) && Letters(v)[i] !in "=-_" && !IsSpace(Letters(v)[i]) {
      LetterRoundTrip(v[i]);
    }
  }

  /** Mapping and stripping leave exactly the URL-safe letters, four for three bytes, rounded up. */
  lemma B64UrlIs(b: seq<Byte>)
    ensures B64Url(b) == UrlLetters(Sextets(b))
    ensures |B64Url(b)| == (4 * |b| + 2) / 3
  {
    var v, n := Sextets(b), (3 - |b| % 3) % 3;
    UrlLettersFacts(v);
    SextetsLength(b);
    assert Replace(Replace(Encode(b), '+', '-'), '/', '_') == UrlLetters(v) + Repeat('=', n);
    StripRepeat(UrlLetters(v), n);
  }

  predicate Plain(s: string) {
    forall i :: 0 <= i < |s| ==> s[i] != '=' && !IsSpace(s[i])
  }

  lemma {:induction false} UnspacedSum(s: string, t: string)
    ensures Unspaced(s + t) == Unspaced(s) + Unspaced(t)
  {
    if s == "" {
      assert s + t == t;
    } else {
      var x, rest := s[0], s[1..];
      UnspacedSum(rest, t);
      hide Unspaced;
      assert s == [x] + rest && s + t == [x] + (rest + t);
      UnspacedFirst(x, rest);
      UnspacedFirst(x, rest + t);
    }
  }

  lemma UnspacedFirst(x: char, s: string)
    ensures Unspaced([x] + s) == (if x in {' ', '\t', '\n', '\r', 12 as char} then "" else [x]) + Unspaced(s)
  {
    assert ([x] + s)[1..] == s;
  }

  /** White space vanishes wherever it stands, and nothing else does. */
  lemma UnspacedAt(s: string, c: char, t: string)
    ensures Unspaced(s + [c] + t) == Unspaced(s) + (if c in {' ', '\t', '\n', '\r', 12 as char} then "" else [c]) + Unspaced(t)
  {
    UnspacedSum(s + [c], t);
    UnspacedSum(s, [c]);
    UnspacedFirst(c, "");
    assert [c] + "" == [c];
    assert Unspaced("") == "";
    hide Unspaced;
  }

  lemma UnspacedPadded(s: string)
    requires Plain(s)
    ensures Unspaced(Padded(s)) == Padded(s)
  {
    var t := Padded(s);
    assert forall i :: 0 <= i < |t| ==> !IsSpace(t[i]);
    UnspacedId(t);
  }

  /** The padding added is the padding taken off, except in a length that padding cannot repair. */
  lemma UnpaddedPadded(s: string)
    requires Plain(s)
    ensures Unpadded(Padded(s)) == if |s| % 4 == 1 then s + "=" else s
  {
    var t, n := Padded(s), Missing(|s|);
    if n == 0 {
      assert t == s;
    } else if n == 1 {
      assert t[..|t| - 1] == s;
    } else if n == 2 {
      assert t[..|t| - 2] == s;
    } else {
      assert t[..|t| - 2] == s + "=";
    }
  }

  lemma AtobPadded(v: seq<Sextet>)
    requires |v| % 4 != 1
    ensures Atob(Padded(Letters(v))) == Ok(Octets(v))
  {
    UrlLettersFacts(v);
    UnspacedPadded(Letters(v));
    UnpaddedPadded(Letters(v));
  }

  /** Base64url loses nothing, for any bytes at all. */
  lemma B64UrlRoundTrip(b: seq<Byte>)
    ensures B64UrlToBytes(B64Url(b)) == Ok(b)
  {
    B64UrlIs(b);
    UrlLettersFacts(Sextets(b));
    SextetsLength(b);
    AtobPadded(Sextets(b));
    OctetsOfSextets(b);
  }

  /** One character of padding stands for each byte missing in the last group of three. */
  lemma PaddingFills(n: nat)
    ensures Missing((4 * n + 2) / 3) == (3 - n % 3) % 3
  {
    var q, r := n / 3, n % 3;
    assert (4 * n + 2) / 3 == 4 * q + (if r == 0 then 0 else r + 1);
  }

  /** So does the padded form that text secrets are stored in. */
  lemma B64RoundTrip(b: seq<Byte>)
    ensures Atob(Encode(b)) == Ok(b)
  {
    SextetsLength(b);
    PaddingFills(|b|);
    assert Encode(b) == Padded(Letters(Sextets(b)));
    AtobPadded(Sextets(b));
    OctetsOfSextets(b);
  }

  predicate UrlSafe(c: char) {
    'A' <= c <= 'Z' || 'a' <= c <= 'z' || '0' <= c <= '9' || c == '-' || c == '_'
  }

  /** The output needs no escaping in a URL, and carries no padding. */
  lemma B64UrlIsUrlSafe(b: seq<Byte>)
    ensures forall i :: 0 <= i < |B64Url(b)| ==> UrlSafe(B64Url(b)[i])
  {
    B64UrlIs(b);
    var v := Sextets(b);
    forall i | 0 <= i < |v| ensures UrlSafe(UrlLetters(v)[i]) {
      LetterRoundTrip(v[i]);
    }
  }

  /** The characters that an encoded string may consist of, in either alphabet. */
  predicate Encodable(c: char) {
    UrlSafe(c) || c == '+' || c == '/'
  }

  lemma Mapped(s: string)
    ensures var t := Replace(Replace(s, '-', '+'), '_', '/');
      && |t| == |s|
      && (Plain(s) ==> Plain(t))
      && (AllLetters(t) <==> forall i :: 0 <= i < |s| ==> Encodable(s[i]))
  {
    var t := Replace(Replace(s, '-', '+'), '_', '/');
    assert forall i :: 0 <= i < |s| ==> t[i] == if s[i] == '-' then '+' else if s[i] == '_' then '/' else s[i];
    assert forall i :: 0 <= i < |s| ==> (SextetOf(t[i]).Some? <==> Encodable(s[i]));
    if AllLetters(t) {
      assert forall i :: 0 <= i < |s| ==> SextetOf(t[i]).Some?;
    }
  }

  /** `k` characters of padding behind `u`, where `atob` puts up with them. */
  predicate Tolerated(u: string, k: nat) {
    && AllLetters(u)
    && ((k == 0 && |u| % 4 != 1) || (1 <= k <= 2 && (|u| + k) % 4 == 0))
  }

  lemma UnpaddedIs(s: string)
    ensures exists k: nat :: k <= 2 && s == Unpadded(s) + Repeat('=', k) && (k > 0 ==> |s| % 4 == 0)
  {
    var u := Unpadded(s);
    if u == s {
      assert s == u + Repeat('=', 0);
    } else if |u| == |s| - 1 {
      assert s == u + Repeat('=', 1);
    } else {
      assert s == u + Repeat('=', 2);
    }
  }

  lemma UnpaddedTakes(u: string, k: nat)
    requires Tolerated(u, k)
    ensures Unpadded(u + Repeat('=', k)) == u
  {
    var s := u + Repeat('=', k);
    assert u != "" ==> SextetOf(u[|u| - 1]).Some?;
    if k == 0 {
      assert s == u;
    } else if k == 1 {
      assert s[..|s| - 1] == u && s[|s| - 2] == u[|u| - 1];
    } else {
      assert s[..|s| - 2] == u;
    }
  }

  /** Exactly what `atob` takes, white space aside: letters, and none, one or two characters of padding where they fit. */
  lemma AtobAccepts(s: string)
    ensures Atob(s).Ok? <==> exists u, k: nat :: Unspaced(s) == u + Repeat('=', k) && Tolerated(u, k)
  {
    hide Unspaced, Unpadded, Octets, Values, AllLetters, Repeat;
    var t := Unspaced(s);
    if Atob(s).Ok? {
      UnpaddedIs(t);
      var k: nat :| k <= 2 && t == Unpadded(t) + Repeat('=', k) && (k > 0 ==> |t| % 4 == 0);
      assert Tolerated(Unpadded(t), k);
    }
    forall u, k: nat | t == u + Repeat('=', k) && Tolerated(u, k) ensures Atob(s).Ok? {
      UnpaddedTakes(u, k);
    }
  }

  /** Exactly which strings decode, with whatever padding and white space they come. */
  lemma B64UrlToBytesAccepts(s: string)
    ensures B64UrlToBytes(s).Ok? <==> exists u, k: nat ::
      Unspaced(Replace(Replace(s, '-', '+'), '_', '/') + Repeat('=', Missing(|s|))) == u + Repeat('=', k) && Tolerated(u, k)
  {
    AtobAccepts(Padded(Replace(Replace(s, '-', '+'), '_', '/')));
  }

  /** Of those without either: letters of both alphabets, in a length that is no 4k+1. */
  lemma PlainAccepts(s: string)
    requires Plain(s)
    ensures B64UrlToBytes(s).Ok? <==> |s| % 4 != 1 && forall i :: 0 <= i < |s| ==> Encodable(s[i])
  {
    var t := Replace(Replace(s, '-', '+'), '_', '/');
    Mapped(s);
    hide Replace, Encodable;
    UnspacedPadded(t);
    UnpaddedPadded(t);
    if |s| % 4 == 1 {
      assert SextetOf((t + "=")[|t|]).None?;
    }
  }
}
