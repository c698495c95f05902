/**
 Encrypting and decrypting in the browser, over a cipher and a key derivation of which only this much
 is known: what was sealed under a key and iv opens under them again, sixteen bytes longer.
 */
module Encryption {
  import opened Records
  import opened Framing
  import B = Base64

  type Key = seq<Byte>

  datatype Crypto = Crypto(
    seal: (Key, seq<Byte>, seq<Byte>) -> seq<Byte>,
    open: (Key, seq<Byte>, seq<Byte>) -> Option<seq<Byte>>,
    derive: (string, seq<Byte>, nat) -> Key)

  /** The law of the cipher, for one key, iv and plaintext. */
  predicate Opens(c: Crypto, key: Key, iv: seq<Byte>, plain: seq<Byte>) {
    |c.seal(key, iv, plain)| == |plain| + 16 && c.open(key, iv, c.seal(key, iv, plain)) == Some(plain)
  }

  /** The sizes of AES keys that the browser imports. */
  predicate Importable(key: Key) {
    |key| in {16, 24, 32}
  }

  method EncryptBytes(c: Crypto, plain: array<Byte>, rawKey: array<Byte>, iv: seq<Byte>)
    returns (blob: array<Byte>, key: string)
    requires rawKey.Length == 32 && |iv| == 12
    ensures fresh(blob) && blob[..] == iv + c.seal(rawKey[..], iv, plain[..])
    ensures key == B.B64Url(rawKey[..])
  {
    blob := LayKeyBlob(iv, c.seal(rawKey[..], iv, plain[..]));
    var b64 := B.BytesToB64(rawKey);
    key := B.StripPadding(B.Replace(B.Replace(b64, '+', '-'), '/', '_'));
  }

  function DecryptBytes(c: Crypto, blob: seq<Byte>, key: string): Result<seq<Byte>> {
    match B.B64UrlToBytes(key)
    case Err(e) => Err(e)
    case Ok(raw) =>
      if !Importable(raw) then Err("DataError")
      else match c.open(raw, Head(blob, 12), Tail(blob, 12))
        case None => Err("OperationError")
        case Some(plain) => Ok(plain)
  }

  method EncryptBytesWithPassphrase(c: Crypto, plain: array<Byte>, passphrase: string, salt: seq<Byte>, iv: seq<Byte>)
    returns (blob: array<Byte>)
    requires |salt| == 16 && |iv| == 12
    ensures fresh(blob)
    ensures blob[..] == Laid(PassBlob(salt, ITERATIONS, iv, c.seal(c.derive(passphrase, salt, ITERATIONS), iv, plain[..])))
  {
    blob := LayPassphraseBlob(salt, iv, c.seal(c.derive(passphrase, salt, ITERATIONS), iv, plain[..]));
  }

  function DecryptBytesWithPassphrase(c: Crypto, blob: seq<Byte>, passphrase: string): Result<seq<Byte>> {
    match Parse(blob)
    case Err(e) => Err(e)
    case Ok(b) =>
      match c.open(c.derive(passphrase, b.salt, b.iterations), b.iv, b.ct)
      case None => Err("OperationError")
      case Some(plain) => Ok(plain)
  }

  /** What opens with a key: one of the three sizes of AES, spelled in base64, under which the bytes after the first twelve open. */
  lemma OpensWithKey(c: Crypto, blob: seq<Byte>, key: string, plain: seq<Byte>)
    requires |blob| >= 12
    ensures DecryptBytes(c, blob, key) == Ok(plain) <==> exists raw ::
      B.B64UrlToBytes(key) == Ok(raw) && (|raw| == 16 || |raw| == 24 || |raw| == 32) && c.open(raw, blob[..12], blob[12..]) == Some(plain)
  {
    hide B.B64UrlToBytes;
    if DecryptBytes(c, blob, key) == Ok(plain) {
      var raw := B.B64UrlToBytes(key).value;
      assert B.B64UrlToBytes(key) == Ok(raw);
    }
  }

  // ---- Round trips ----

  lemma KeyRoundTrip(c: Crypto, plain: seq<Byte>, rawKey: Key, iv: seq<Byte>)
    requires |rawKey| == 32 && |iv| == 12 && Opens(c, rawKey, iv, plain)
    ensures DecryptBytes(c, iv + c.seal(rawKey, iv, plain), B.B64Url(rawKey)) == Ok(plain)
  {
    B.B64UrlRoundTrip(rawKey);
    var blob := iv + c.seal(rawKey, iv, plain);
    assert Head(blob, 12) == iv && Tail(blob, 12) == c.seal(rawKey, iv, plain);
  }

  lemma PassphraseRoundTrip(c: Crypto, plain: seq<Byte>, passphrase: string, salt: seq<Byte>, iv: seq<Byte>)
    requires |salt| == 16 && |iv| == 12
    requires Opens(c, c.derive(passphrase, salt, ITERATIONS), iv, plain)
    ensures var blob := Laid(PassBlob(salt, ITERATIONS, iv, c.seal(c.derive(passphrase, salt, ITERATIONS), iv, plain)));
      IsPassphraseBlob(blob) && DecryptBytesWithPassphrase(c, blob, passphrase) == Ok(plain)
  {
    ParseLaid(PassBlob(salt, ITERATIONS, iv, c.seal(c.derive(passphrase, salt, ITERATIONS), iv, plain)));
  }

  /** What the recipient holds: the key in the link's fragment, or a passphrase. */
  datatype Unlock = WithKey(key: string) | WithPassphrase(passphrase: string)

  function DecryptFile(c: Crypto, codec: HeaderCodec, blob: seq<Byte>, unlock: Unlock): Result<File> {
    match (match unlock
           case WithKey(key) => DecryptBytes(c, blob, key)
           case WithPassphrase(passphrase) => DecryptBytesWithPassphrase(c, blob, passphrase))
    case Err(e) => Err(e)
    case Ok(packed) => Unpack(codec, packed)
  }

  /** A file shared by link comes back as it was, exactly if its header fits its frame. */
  lemma FileByLink(c: Crypto, codec: HeaderCodec, file: File, rawKey: Key, iv: seq<Byte>)
    requires |rawKey| == 32 && |iv| == 12 && Faithful(codec, file.name, file.kind)
    requires Opens(c, rawKey, iv, Packed(codec.write(file.name, file.kind), file.content))
    ensures
      var blob := iv + c.seal(rawKey, iv, Packed(codec.write(file.name, file.kind), file.content));
      DecryptFile(c, codec, blob, WithKey(B.B64Url(rawKey))) == Ok(file) <==> |codec.write(file.name, file.kind)| < 0x1_0000_0000
  {
    hide Unpack;
    KeyRoundTrip(c, Packed(codec.write(file.name, file.kind), file.content), rawKey, iv);
    UnpackPacked(codec, file.name, file.kind, file.content);
  }

  /** So does a file shared under a passphrase. */
  lemma FileByPassphrase(c: Crypto, codec: HeaderCodec, file: File, passphrase: string, salt: seq<Byte>, iv: seq<Byte>)
    requires |salt| == 16 && |iv| == 12 && Faithful(codec, file.name, file.kind)
    requires Opens(c, c.derive(passphrase, salt, ITERATIONS), iv, Packed(codec.write(file.name, file.kind), file.content))
    ensures
      var packed := Packed(codec.write(file.name, file.kind), file.content);
      var blob := Laid(PassBlob(salt, ITERATIONS, iv, c.seal(c.derive(passphrase, salt, ITERATIONS), iv, packed)));
      DecryptFile(c, codec, blob, WithPassphrase(passphrase)) == Ok(file) <==> |codec.write(file.name, file.kind)| < 0x1_0000_0000
  {
    hide Unpack, Laid, IsPassphraseBlob;
    PassphraseRoundTrip(c, Packed(codec.write(file.name, file.kind), file.content), passphrase, salt, iv);
    UnpackPacked(codec, file.name, file.kind, file.content);
  }

  // ---- Text ----

  /** UTF-8 as the browser's encoder and decoder do it; not every text survives it. */
  datatype Utf8 = Utf8(encode: string -> seq<Byte>, decode: seq<Byte> -> string)

  function DecryptFromPayload(c: Crypto, u: Utf8, ciphertext: string, key: string): Result<string> {
    match B.Atob(ciphertext)
    case Err(e) => Err(e)
    case Ok(blob) =>
      match DecryptBytes(c, blob, key)
      case Err(e) => Err(e)
      case Ok(plain) => Ok(u.decode(plain))
  }

  function DecryptWithPassphrase(c: Crypto, u: Utf8, ciphertext: string, passphrase: string): Result<string> {
    match B.Atob(ciphertext)
    case Err(e) => Err(e)
    case Ok(blob) =>
      match DecryptBytesWithPassphrase(c, blob, passphrase)
      case Err(e) => Err(e)
      case Ok(plain) => Ok(u.decode(plain))
  }

  /** Through base64 and the store and back, a text is changed by its character encoding at most. */
  lemma TextByLink(c: Crypto, u: Utf8, text: string, rawKey: Key, iv: seq<Byte>)
    requires |rawKey| == 32 && |iv| == 12 && Opens(c, rawKey, iv, u.encode(text))
    ensures DecryptFromPayload(c, u, B.Encode(iv + c.seal(rawKey, iv, u.encode(text))), B.B64Url(rawKey)) == Ok(text)
      <==> u.decode(u.encode(text)) == text
  {
    hide B.Encode, B.Atob, B.B64Url, DecryptBytes;
    B.B64RoundTrip(iv + c.seal(rawKey, iv, u.encode(text)));
    KeyRoundTrip(c, u.encode(text), rawKey, iv);
  }

  lemma TextByPassphrase(c: Crypto, u: Utf8, text: string, passphrase: string, salt: seq<Byte>, iv: seq<Byte>)
    requires |salt| == 16 && |iv| == 12
    requires Opens(c, c.derive(passphrase, salt, ITERATIONS), iv, u.encode(text))
    ensures
      var blob := Laid(PassBlob(salt, ITERATIONS, iv, c.seal(c.derive(passphrase, salt, ITERATIONS), iv, u.encode(text))));
      DecryptWithPassphrase(c, u, B.Encode(blob), passphrase) == Ok(text) <==> u.decode(u.encode(text)) == text
  {
    hide B.Encode, B.Atob, Laid, IsPassphraseBlob, DecryptBytesWithPassphrase;
    B.B64RoundTrip(Laid(PassBlob(salt, ITERATIONS, iv, c.seal(c.derive(passphrase, salt, ITERATIONS), iv, u.encode(text)))));
    PassphraseRoundTrip(c, u.encode(text), passphrase, salt, iv);
  }
}
