/** The few string functions of Go's library that the server leans on. */
module Text {
  import opened Records

  /** White space as `strings.TrimSpace` sees it, as far as ASCII goes. */
  predicate IsBlank(c: char) {
    c == ' ' || '\t' <= c <= '\r'
  }

  function TrimLeft(s: string): string {
    if s != "" && IsBlank(s[0]) then TrimLeft(s[1..]) else s
  }

  function TrimRight(s: string): string {
    if s != "" && IsBlank(s[|s| - 1]) then TrimRight(s[..|s| - 1]) else s
  }

  function TrimSpace(s: string): string {
    TrimRight(TrimLeft(s))
  }

  predicate Trimmed(s: string) {
    s == "" || (!IsBlank(s[0]) && !IsBlank(s[|s| - 1]))
  }

  lemma {:induction false} TrimLeftStarts(s: string)
    ensures var r := TrimLeft(s); r == "" || !IsBlank(r[0])
    ensures Trimmed(s) ==> TrimLeft(s) == s
  {
    if s != "" && IsBlank(s[0]) { TrimLeftStarts(s[1..]); }
  }

  lemma {:induction false} TrimRightEnds(s: string)
    ensures var r := TrimRight(s); r == "" || (!IsBlank(r[|r| - 1]) && r[0] == s[0])
    ensures Trimmed(s) ==> TrimRight(s) == s
  {
    if s != "" && IsBlank(s[|s| - 1]) { TrimRightEnds(s[..|s| - 1]); }
  }

  lemma TrimSpaceTrims(s: string)
    ensures Trimmed(TrimSpace(s))
    ensures Trimmed(s) ==> TrimSpace(s) == s
  {
    TrimLeftStarts(s);
    TrimRightEnds(TrimLeft(s));
    TrimRightEnds(s);
  }

  predicate Blanks(s: string) {
    forall i :: 0 <= i < |s| ==> s[i] in {' ', '\t', '\n', 11 as char, 12 as char, '\r'}
  }

  lemma {:induction false} TrimLeftTakes(front: string, s: string)
    requires Blanks(front) && (s == "" || !IsBlank(s[0]))
    ensures TrimLeft(front + s) == s
  {
    if front == "" {
      assert front + s == s;
    } else {
      assert IsBlank(front[0]);
      TrimLeftTakes(front[1..], s);
      assert (front + s)[1..] == front[1..] + s;
    }
  }

  lemma {:induction false} TrimRightTakes(s: string, back: string)
    requires Blanks(back) && (s == "" || !IsBlank(s[|s| - 1]))
    ensures TrimRight(s + back) == s
  {
    if back == "" {
      assert s + back == s;
    } else {
      var n := |back| - 1;
      assert IsBlank(back[n]);
      TrimRightTakes(s, back[..n]);
      assert (s + back)[..|s + back| - 1] == s + back[..n];
    }
  }

  /** Trimming takes the blanks off both ends, and nothing else. */
  lemma TrimSpaceTakes(front: string, s: string, back: string)
    requires Blanks(front) && Blanks(back) && s != "" && !Blanks([s[0]]) && !Blanks([s[|s| - 1]])
    ensures TrimSpace(front + s + back) == s && TrimSpace(front) == ""
  {
    assert [s[0]][0] == s[0] && [s[|s| - 1]][0] == s[|s| - 1];
    assert front + s + back == front + (s + back);
    TrimLeftTakes(front, s + back);
    TrimRightTakes(s, back);
    assert front + "" == front;
    TrimLeftTakes(front, "");
  }

  // ---- strings.Split and strings.Join on a dot ----

  function Count(s: string, c: char): nat {
    if s == "" then 0 else (if s[0] == c then 1 else 0) + Count(s[1..], c)
  }

  predicate Dotless(s: string) {
    '.' !in s
  }

  /** At least one part; as many more as there are dots. */
  function Split(s: string): (parts: seq<string>)
    ensures |parts| == Count(s, '.') + 1
  {
    if s == "" then [""]
    else if s[0] == '.' then [""] + Split(s[1..])
    else var rest := Split(s[1..]); [[s[0]] + rest[0]] + rest[1..]
  }

  function Join(parts: seq<string>): string {
    if parts == [] then "" else if |parts| == 1 then parts[0] else parts[0] + "." + Join(parts[1..])
  }

  lemma {:induction false} CountSum(s: string, t: string, c: char)
    ensures Count(s + t, c) == Count(s, c) + Count(t, c)
  {
    if s == "" {
      assert s + t == t;
    } else {
      assert s + t == [s[0]] + (s[1..] + t);
      CountSum(s[1..], t, c);
    }
  }

  lemma {:induction false} CountNone(s: string, c: char)
    ensures Count(s, c) == 0 <==> c !in s
  {
    if s != "" {
      CountNone(s[1..], c);
      assert s == [s[0]] + s[1..];
    }
  }

  lemma {:induction false} SplitDotless(s: string)
    ensures forall i :: 0 <= i < |Split(s)| ==> Dotless(Split(s)[i])
    ensures Join(Split(s)) == s
  {
    if s != "" {
      var rest := Split(s[1..]);
      SplitDotless(s[1..]);
      assert s == [s[0]] + s[1..];
      if s[0] == '.' {
        assert Split(s) == [""] + rest && Split(s)[1..] == rest;
      } else {
        var parts := [[s[0]] + rest[0]] + rest[1..];
        assert Split(s) == parts && parts[1..] == rest[1..];
      }
    }
  }

  /** Taking apart what was put together, piece by piece, as long as no piece holds the separator. */
  lemma {:induction false} SplitFirst(first: string, rest: string)
    requires Dotless(first)
    ensures Split(first + "." + rest) == [first] + Split(rest)
  {
    var s := first + "." + rest;
    if first == "" {
      assert s == "." + rest && s[1..] == rest;
    } else {
      assert s[1..] == first[1..] + "." + rest;
      SplitFirst(first[1..], rest);
      assert [first[0]] + first[1..] == first;
    }
  }

  lemma {:induction false} SplitOne(s: string)
    requires Dotless(s)
    ensures Split(s) == [s]
  {
    if s != "" {
      SplitOne(s[1..]);
      assert [s[0]] + s[1..] == s;
    }
  }

  lemma {:induction false} SplitJoin(parts: seq<string>)
    requires parts != [] && forall i :: 0 <= i < |parts| ==> Dotless(parts[i])
    ensures Split(Join(parts)) == parts
  {
    if |parts| == 1 {
      SplitOne(parts[0]);
    } else {
      SplitJoin(parts[1..]);
      SplitFirst(parts[0], Join(parts[1..]));
    }
  }

  /** Different dotless parts never join to the same text. */
  lemma JoinInjective(p: seq<string>, q: seq<string>)
    requires p != [] && q != []
    requires forall i :: 0 <= i < |p| ==> Dotless(p[i])
    requires forall i :: 0 <= i < |q| ==> Dotless(q[i])
    ensures Join(p) == Join(q) <==> p == q
  {
    SplitJoin(p);
    SplitJoin(q);
  }

  // ---- strconv.FormatInt and strconv.ParseInt, base 10, 64 bits ----

  const MIN_INT64: int := -0x8000_0000_0000_0000
  const MAX_INT64: int := 0x7fff_ffff_ffff_ffff

  predicate Int64(n: int) {
    MIN_INT64 <= n <= MAX_INT64
  }

  function Digits(n: nat): (s: string)
    ensures s != "" && forall i :: 0 <= i < |s| ==> '0' <= s[i] <= '9'
  {
    if n < 10 then ['0' + n as char] else Digits(n / 10) + ['0' + (n % 10) as char]
  }

  function FormatInt(n: int): string {
    if n < 0 then "-" + Digits(-n) else Digits(n)
  }

  predicate AllDigits(s: string) {
    forall i :: 0 <= i < |s| ==> '0' <= s[i] <= '9'
  }

  function ValueOf(s: string): nat
    requires AllDigits(s)
  {
    if s == "" then 0 else ValueOf(s[..|s| - 1]) * 10 + (s[|s| - 1] - '0') as int
  }

  function Unsigned(s: string): string {
    if s != "" && (s[0] == '+' || s[0] == '-') then s[1..] else s
  }

  function ParseInt(s: string): Option<int> {
    var digits := Unsigned(s);
    if digits == "" || !AllDigits(digits) then None
    else
      var value: int := ValueOf(digits);
      var n := if s[0] == '-' then -value else value;
      if Int64(n) then Some(n) else None
  }

  lemma {:induction false} ValueOfDigits(n: nat)
    ensures ValueOf(Digits(n)) == n
  {
    if n >= 10 {
      var s := Digits(n);
      ValueOfDigits(n / 10);
      assert s[..|s| - 1] == Digits(n / 10);
    }
  }

  lemma ParseDigits(s: string)
    requires s != "" && AllDigits(s)
    ensures ParseInt(s) == if ValueOf(s) <= MAX_INT64 then Some(ValueOf(s)) else None
    ensures Dotless(s)
  {
    hide ValueOf;
    assert Unsigned(s) == s;
  }

  lemma ParseMinus(s: string)
    requires s != "" && AllDigits(s)
    ensures ParseInt("-" + s) == if MIN_INT64 <= -(ValueOf(s) as int) then Some(-(ValueOf(s) as int)) else None
    ensures Dotless("-" + s)
  {
    hide ValueOf;
    assert Unsigned("-" + s) == s;
  }

  lemma ParseFormat(n: int)
    ensures ParseInt(FormatInt(n)) == if Int64(n) then Some(n) else None
    ensures Dotless(FormatInt(n))
  {
    hide Digits, ValueOf, ParseInt, Dotless, AllDigits;
    var size := if n < 0 then -n else n;
    DigitsAre(size);
    ValueOfDigits(size);
    ParseDigits(Digits(size));
    ParseMinus(Digits(size));
  }

  /** A sign may be written out, and the digits are decimal, the first counting most. */
  lemma ParsesAs(s: string, c: char)
    requires s != "" && AllDigits(s) && '0' <= c <= '9'
    ensures ParseInt("+" + s) == ParseInt(s)
    ensures ValueOf([c]) == c as int - 48 && ValueOf(s + [c]) == 10 * ValueOf(s) + ValueOf([c])
  {
    ParseDigits(s);
    assert Unsigned("+" + s) == s;
    assert (s + [c])[..|s|] == s && [c][..0] == "";
  }

  lemma DigitsAre(n: nat)
    ensures Digits(n) != "" && AllDigits(Digits(n))
  {
  }

  // ---- encoding/hex ----

  function HexDigit(n: int): char
    requires 0 <= n < 16
  {
    if n < 10 then '0' + n as char else 'a' + (n - 10) as char
  }

  function HexValue(c: char): Option<int> {
    if '0' <= c <= '9' then Some((c - '0') as int)
    else if 'a' <= c <= 'f' then Some((c - 'a') as int + 10)
    else if 'A' <= c <= 'F' then Some((c - 'A') as int + 10)
    else None
  }

  function HexEncode(b: seq<Byte>): string {
    if b == [] then "" else [HexDigit(b[0] / 16), HexDigit(b[0] % 16)] + HexEncode(b[1..])
  }

  function HexByte(hi: int, lo: int): Byte
    requires 0 <= hi < 16 && 0 <= lo < 16
  {
    hi * 16 + lo
  }

  function HexDecode(s: string): Option<seq<Byte>> {
    if s == "" then Some([])
    else if |s| == 1 || HexValue(s[0]).None? || HexValue(s[1]).None? then None
    else match HexDecode(s[2..])
      case None => None
      case Some(rest) => Some([HexByte(HexValue(s[0]).value, HexValue(s[1]).value)] + rest)
  }

  const HEX: string := "0123456789abcdef"

  /** Two digits for a byte, the higher one first. */
  lemma HexIs(b: Byte)
    ensures |HEX| == 16 && HexEncode([b]) == [HEX[b / 16], HEX[b % 16]]
  {
    assert [b][1..] == [];
    HexDigitIs(b / 16);
    HexDigitIs(b % 16);
  }

  lemma HexDigitIs(n: int)
    requires 0 <= n < 16
    ensures |HEX| == 16 && HexDigit(n) == HEX[n]
  {
  }

  lemma HexByteRoundTrip(b: Byte)
    ensures HexValue(HexDigit(b / 16)) == Some(b / 16) && HexValue(HexDigit(b % 16)) == Some(b % 16)
    ensures HexByte(b / 16, b % 16) == b
    ensures HexDigit(b / 16) != '.' && HexDigit(b % 16) != '.'
  {
  }

  lemma {:induction false} HexRoundTrip(b: seq<Byte>)
    ensures HexDecode(HexEncode(b)) == Some(b)
    ensures Dotless(HexEncode(b))
  {
    hide HexDigit, HexValue, HexByte;
    if b != [] {
      HexRoundTrip(b[1..]);
      HexByteRoundTrip(b[0]);
      assert HexEncode(b)[2..] == HexEncode(b[1..]);
      assert b == [b[0]] + b[1..];
    }
  }
}
