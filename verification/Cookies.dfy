/**
 The two signed cookies: the state of a pending single sign-on, and the session. The keyed hash is a
 parameter; nothing is known of it, and nothing needs to be for what is shown here.
 */
module Cookies {
  import opened Records
  import opened Text
  import B = Base64

  /** HMAC-SHA256: secret and text in, bytes out. */
  type Mac = (seq<Byte>, string) -> seq<Byte>

  // ---- The state cookie of the OIDC flow ----

  datatype StatePayload = StatePayload(state: string, nonce: string, codeVerifier: string, provider: string)

  function Body(p: StatePayload, exp: string): seq<string> {
    [p.state, p.nonce, p.codeVerifier, p.provider, exp]
  }

  function SignState(mac: Mac, p: StatePayload, secret: seq<Byte>, exp: int): string {
    var body := Join(Body(p, FormatInt(exp)));
    body + "." + HexEncode(mac(secret, body))
  }

  function VerifyState(mac: Mac, cookie: string, secret: seq<Byte>, now: int): Result<StatePayload> {
    var parts := Split(cookie);
    if |parts| != 6 then Err("malformed cookie")
    else
      var body := Join(parts[..5]);
      if HexDecode(parts[5]) != Some(mac(secret, body)) then Err("bad signature")
      else match ParseInt(parts[4])
        case None => Err("bad expiry")
        case Some(exp) =>
          if now > exp then Err("expired") else Ok(StatePayload(parts[0], parts[1], parts[2], parts[3]))
  }

  predicate DotlessFields(p: StatePayload) {
    Dotless(p.state) && Dotless(p.nonce) && Dotless(p.codeVerifier) && Dotless(p.provider)
  }

  lemma JoinCons(first: string, rest: seq<string>)
    requires rest != []
    ensures Join([first] + rest) == first + "." + Join(rest)
  {
    assert ([first] + rest)[1..] == rest;
  }

  lemma BodyJoined(p: StatePayload, exp: string)
    ensures Join(Body(p, exp)) == p.state + "." + (p.nonce + "." + (p.codeVerifier + "." + (p.provider + "." + exp)))
  {
    JoinCons(p.provider, [exp]);
    JoinCons(p.codeVerifier, [p.provider, exp]);
    JoinCons(p.nonce, [p.codeVerifier, p.provider, exp]);
    JoinCons(p.state, [p.nonce, p.codeVerifier, p.provider, exp]);
    assert Body(p, exp) == [p.state] + [p.nonce, p.codeVerifier, p.provider, exp];
    assert [p.nonce] + [p.codeVerifier, p.provider, exp] == [p.nonce, p.codeVerifier, p.provider, exp];
    assert [p.codeVerifier] + [p.provider, exp] == [p.codeVerifier, p.provider, exp];
    assert [p.provider] + [exp] == [p.provider, exp];
  }

  /** The text of a signed state. */
  lemma SignedAs(mac: Mac, p: StatePayload, secret: seq<Byte>, exp: int)
    ensures var body := p.state + "." + (p.nonce + "." + (p.codeVerifier + "." + (p.provider + "." + FormatInt(exp))));
      SignState(mac, p, secret, exp) == body + "." + HexEncode(mac(secret, body))
  {
    BodyJoined(p, FormatInt(exp));
  }

  lemma Apart(a: string, rest: string)
    ensures Count(a + "." + rest, '.') == Count(a, '.') + 1 + Count(rest, '.')
  {
    CountSum(a, "." + rest, '.');
    assert a + ("." + rest) == a + "." + rest;
    assert ("." + rest)[1..] == rest;
  }

  /** Every dot within a field is one part too many. */
  lemma SignedParts(mac: Mac, p: StatePayload, secret: seq<Byte>, exp: int)
    ensures |Split(SignState(mac, p, secret, exp))| == 6 <==> DotlessFields(p)
  {
    var e := FormatInt(exp);
    var sig := HexEncode(mac(secret, Join(Body(p, e))));
    ParseFormat(exp);
    HexRoundTrip(mac(secret, Join(Body(p, e))));
    BodyJoined(p, e);
    Apart(Join(Body(p, e)), sig);
    Apart(p.state, p.nonce + "." + (p.codeVerifier + "." + (p.provider + "." + e)));
    Apart(p.nonce, p.codeVerifier + "." + (p.provider + "." + e));
    Apart(p.codeVerifier, p.provider + "." + e);
    Apart(p.provider, e);
    CountNone(p.state, '.');
    CountNone(p.nonce, '.');
    CountNone(p.codeVerifier, '.');
    CountNone(p.provider, '.');
    CountNone(e, '.');
    CountNone(sig, '.');
  }

  lemma SplitBody(p: StatePayload, exp: string, sig: string)
    requires DotlessFields(p) && Dotless(exp) && Dotless(sig)
    ensures Split(Join(Body(p, exp)) + "." + sig) == Body(p, exp) + [sig]
  {
    var parts := Body(p, exp) + [sig];
    SplitJoin(parts);
    assert Join(parts) == Join(Body(p, exp)) + "." + sig by {
      JoinSnoc(Body(p, exp), sig);
    }
  }

  lemma {:induction false} JoinSnoc(parts: seq<string>, last: string)
    requires parts != []
    ensures Join(parts + [last]) == Join(parts) + "." + last
  {
    if |parts| > 1 {
      JoinSnoc(parts[1..], last);
      assert (parts + [last])[1..] == parts[1..] + [last];
      assert Join(parts + [last]) == parts[0] + "." + Join(parts[1..] + [last]);
    } else {
      assert (parts + [last])[1..] == [last];
    }
  }

  /** What was signed verifies to itself exactly when no field holds a dot and the time has not passed. */
  lemma StateRoundTrip(mac: Mac, p: StatePayload, secret: seq<Byte>, exp: int, now: int)
    requires Int64(exp)
    ensures VerifyState(mac, SignState(mac, p, secret, exp), secret, now) == Ok(p) <==> DotlessFields(p) && now <= exp
  {
    var e := FormatInt(exp);
    var body := Join(Body(p, e));
    var sig := HexEncode(mac(secret, body));
    if DotlessFields(p) {
      ParseFormat(exp);
      HexRoundTrip(mac(secret, body));
      SplitBody(p, e, sig);
      assert (Body(p, e) + [sig])[..5] == Body(p, e);
      hide ParseInt, FormatInt, HexEncode, HexDecode, Split, Join, Dotless;
    } else {
      SignedParts(mac, p, secret, exp);
      hide ParseInt, FormatInt, HexEncode, HexDecode, Split, Join;
    }
  }

  /** A text with an expiry and a signature that suit these fields, however both are spelled. */
  ghost predicate Carries(mac: Mac, cookie: string, secret: seq<Byte>, now: int, p: StatePayload, exp: string, sig: string) {
    && DotlessFields(p) && Dotless(exp) && Dotless(sig)
    && cookie == Join(Body(p, exp)) + "." + sig
    && HexDecode(sig) == Some(mac(secret, Join(Body(p, exp))))
    && ParseInt(exp).Some? && now <= ParseInt(exp).value
  }

  /** Accepted is exactly what carries the MAC of its own first five parts and is not past its own expiry. */
  lemma StateAccepted(mac: Mac, cookie: string, secret: seq<Byte>, now: int, p: StatePayload)
    ensures VerifyState(mac, cookie, secret, now) == Ok(p) <==> exists exp, sig :: Carries(mac, cookie, secret, now, p, exp, sig)
  {
    if VerifyState(mac, cookie, secret, now) == Ok(p) {
      var parts := Split(cookie);
      SplitDotless(cookie);
      assert parts[..5] == Body(p, parts[4]);
      assert parts == Body(p, parts[4]) + [parts[5]];
      JoinSnoc(Body(p, parts[4]), parts[5]);
      assert Carries(mac, cookie, secret, now, p, parts[4], parts[5]);
    }
    forall exp, sig | Carries(mac, cookie, secret, now, p, exp, sig) ensures VerifyState(mac, cookie, secret, now) == Ok(p) {
      SplitBody(p, exp, sig);
      assert (Body(p, exp) + [sig])[..5] == Body(p, exp);
    }
  }

  /** No two payloads share a signed body. */
  lemma BodiesDiffer(p: StatePayload, q: StatePayload, exp: int, exp': int)
    requires DotlessFields(p) && DotlessFields(q) && Int64(exp) && Int64(exp')
    ensures Join(Body(p, FormatInt(exp))) == Join(Body(q, FormatInt(exp'))) <==> p == q && exp == exp'
  {
    ParseFormat(exp);
    ParseFormat(exp');
    hide ParseInt, FormatInt, Join, Dotless;
    var a, b := Body(p, FormatInt(exp)), Body(q, FormatInt(exp'));
    JoinInjective(a, b);
    if a == b {
      assert a[0] == b[0] && a[1] == b[1] && a[2] == b[2] && a[3] == b[3] && a[4] == b[4];
    }
  }

  /** The provider ids that configuration validation lets pass. */
  predicate ValidId(id: string) {
    id != "" && forall i :: 0 <= i < |id| ==> 'a' <= id[i] <= 'z' || '0' <= id[i] <= '9' || id[i] == '_' || id[i] == '-'
  }

  /** What a sign-on starts with: random bytes, as hex or base64url, and the id of the provider. */
  function Minted(state: seq<Byte>, nonce: seq<Byte>, verifier: seq<Byte>, provider: string): StatePayload {
    StatePayload(HexEncode(state), HexEncode(nonce), B.B64Url(verifier), provider)
  }

  /** So the callback of every sign-on that was started gets its own state back, until the cookie expires. */
  lemma MintedReturns(mac: Mac, state: seq<Byte>, nonce: seq<Byte>, verifier: seq<Byte>, provider: string,
                      secret: seq<Byte>, exp: int, now: int)
    requires ValidId(provider) && Int64(exp)
    ensures var p := Minted(state, nonce, verifier, provider);
      HexDecode(p.state) == Some(state) && HexDecode(p.nonce) == Some(nonce) && p.codeVerifier == B.B64Url(verifier) && p.provider == provider
    ensures var p := Minted(state, nonce, verifier, provider);
      VerifyState(mac, SignState(mac, p, secret, exp), secret, now) == (if now <= exp then Ok(p) else Err("expired"))
  {
    var p := Minted(state, nonce, verifier, provider);
    HexRoundTrip(state);
    HexRoundTrip(nonce);
    B.B64UrlIsUrlSafe(verifier);
    StateRoundTrip(mac, p, secret, exp, exp);
    StateRoundTrip(mac, p, secret, exp, now);
    SignedExpiry(mac, p, secret, exp);
  }

  lemma SignedExpiry(mac: Mac, p: StatePayload, secret: seq<Byte>, exp: int)
    requires DotlessFields(p) && Int64(exp)
    ensures var parts := Split(SignState(mac, p, secret, exp)); |parts| == 6 && ParseInt(parts[4]) == Some(exp)
  {
    ParseFormat(exp);
    HexRoundTrip(mac(secret, Join(Body(p, FormatInt(exp)))));
    SplitBody(p, FormatInt(exp), HexEncode(mac(secret, Join(Body(p, FormatInt(exp))))));
  }

  // ---- The session cookie ----

  datatype Claims = Claims(subject: string, email: string, name: string, groups: seq<string>, role: string, exp: int)

  /** Claims as JSON text and back. */
  datatype ClaimsCodec = ClaimsCodec(write: Claims -> seq<Byte>, read: seq<Byte> -> Option<Claims>)

  /** Go's decoder of the unpadded URL alphabet steps over line ends. */
  function Unlined(s: string): string {
    if s == "" then "" else (if s[0] == '\n' || s[0] == '\r' then "" else [s[0]]) + Unlined(s[1..])
  }

  predicate AllUrlSafe(s: string) {
    forall i :: 0 <= i < |s| ==> B.UrlSafe(s[i])
  }

  function RawUrlDecode(s: string): Result<seq<Byte>> {
    var t := Unlined(s);
    if !AllUrlSafe(t) then Err("illegal base64 data") else B.B64UrlToBytes(t)
  }

  function Sign(mac: Mac, codec: ClaimsCodec, c: Claims, secret: seq<Byte>, exp: int): string {
    var b64 := B.B64Url(codec.write(c.(exp := exp)));
    b64 + "." + HexEncode(mac(secret, b64))
  }

  function Verify(mac: Mac, codec: ClaimsCodec, cookie: string, secret: seq<Byte>, now: int): Result<Claims> {
    var parts := Split(cookie);
    if |parts| != 2 then Err("malformed cookie")
    else if HexDecode(parts[1]) != Some(mac(secret, parts[0])) then Err("bad signature")
    else match RawUrlDecode(parts[0])
      case Err(_) => Err("decode payload")
      case Ok(body) =>
        match codec.read(body)
        case None => Err("unmarshal claims")
        case Some(c) => if now > c.exp then Err("session expired") else Ok(c)
  }

  lemma {:induction false} UnlinedSum(s: string, t: string)
    ensures Unlined(s + t) == Unlined(s) + Unlined(t)
  {
    if s == "" {
      assert s + t == t;
    } else {
      var x, rest := s[0], s[1..];
      UnlinedSum(rest, t);
      hide Unlined;
      assert s == [x] + rest && s + t == [x] + (rest + t);
      UnlinedFirst(x, rest);
      UnlinedFirst(x, rest + t);
    }
  }

  lemma UnlinedFirst(x: char, s: string)
    ensures Unlined([x] + s) == (if x == '\n' || x == '\r' then "" else [x]) + Unlined(s)
  {
    assert ([x] + s)[1..] == s;
  }

  /** Line ends vanish wherever they stand, and nothing else does. */
  lemma UnlinedAt(s: string, c: char, t: string)
    ensures Unlined(s + [c] + t) == Unlined(s) + (if c == '\n' || c == '\r' then "" else [c]) + Unlined(t)
  {
    UnlinedSum(s + [c], t);
    UnlinedSum(s, [c]);
    UnlinedFirst(c, "");
    assert [c] + "" == [c];
    assert Unlined("") == "";
    hide Unlined;
  }

  /** What the cookie's decoder takes: letters of the URL alphabet in a length that is no 4k+1, line ends apart. */
  lemma RawUrlAccepts(s: string)
    ensures RawUrlDecode(s).Ok? <==> |Unlined(s)| % 4 != 1 && forall i :: 0 <= i < |Unlined(s)| ==> B.UrlSafe(Unlined(s)[i])
  {
    if AllUrlSafe(Unlined(s)) { B.PlainAccepts(Unlined(s)); }
    hide B.B64UrlToBytes;
  }

  lemma {:induction false} UnlinedId(s: string)
    requires AllUrlSafe(s)
    ensures Unlined(s) == s
  {
    if s != "" {
      assert B.UrlSafe(s[0]);
      UnlinedId(s[1..]);
      assert s == [s[0]] + s[1..];
    }
  }

  lemma RawUrlRoundTrip(b: seq<Byte>)
    ensures RawUrlDecode(B.B64Url(b)) == Ok(b) && Dotless(B.B64Url(b))
  {
    B.B64UrlIsUrlSafe(b);
    UnlinedId(B.B64Url(b));
    B.B64UrlRoundTrip(b);
  }

  lemma SplitPair(first: string, second: string)
    requires Dotless(first) && Dotless(second)
    ensures Split(first + "." + second) == [first, second]
  {
    SplitFirst(first, second);
    SplitOne(second);
  }

  /** A session is the claims signed into it, with the expiry it was given, until that expiry. */
  lemma SessionRoundTrip(mac: Mac, codec: ClaimsCodec, c: Claims, secret: seq<Byte>, exp: int, now: int)
    requires codec.read(codec.write(c.(exp := exp))) == Some(c.(exp := exp))
    ensures Verify(mac, codec, Sign(mac, codec, c, secret, exp), secret, now) ==
      if now <= exp then Ok(c.(exp := exp)) else Err("session expired")
  {
    var body := codec.write(c.(exp := exp));
    RawUrlRoundTrip(body);
    HexRoundTrip(mac(secret, B.B64Url(body)));
    SplitPair(B.B64Url(body), HexEncode(mac(secret, B.B64Url(body))));
    hide RawUrlDecode, B.B64Url, Split, HexEncode, HexDecode;
  }

  /** Accepted claims were signed: they stand, decoded, before the MAC of the very text they stand in. */
  lemma SessionAccepted(mac: Mac, codec: ClaimsCodec, cookie: string, secret: seq<Byte>, now: int, c: Claims)
    ensures Verify(mac, codec, cookie, secret, now) == Ok(c) <==>
      exists b64, sig :: Dotless(b64) && Dotless(sig) && cookie == b64 + "." + sig
        && HexDecode(sig) == Some(mac(secret, b64))
        && RawUrlDecode(b64).Ok? && codec.read(RawUrlDecode(b64).value) == Some(c) && now <= c.exp
  {
    hide RawUrlDecode;
    if Verify(mac, codec, cookie, secret, now) == Ok(c) {
      var parts := Split(cookie);
      SplitDotless(cookie);
      assert parts == [parts[0], parts[1]];
      assert Join(parts) == parts[0] + "." + parts[1];
    }
    forall b64, sig | Dotless(b64) && Dotless(sig) && cookie == b64 + "." + sig ensures Split(cookie) == [b64, sig] {
      SplitPair(b64, sig);
    }
  }
}
