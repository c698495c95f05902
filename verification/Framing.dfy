/**
 The browser's binary formats: a file packed under a length-framed header, and the two kinds of blob.
 Writers fill their buffers as the browser does; each is proved to lay down the bytes that a one-line
 function describes, and the readers are proved against these functions.
 */
module Framing {
  import opened Records

  /** A 32-bit number, most significant byte first; `setUint32` keeps what fits. */
  function Be32(n: nat): (b: seq<Byte>)
    ensures |b| == 4
  {
    [n / 256 / 256 / 256 % 256, n / 256 / 256 % 256, n / 256 % 256, n % 256]
  }

  function Horner(a: nat, b: nat, c: nat, d: nat): nat {
    ((a * 256 + b) * 256 + c) * 256 + d
  }

  function ReadBe32(b: seq<Byte>): nat
    requires |b| == 4
  {
    Horner(b[0], b[1], b[2], b[3])
  }

  /** The first byte counts most, in what is read and in what is written. */
  lemma BigEndian(b: seq<Byte>)
    requires |b| == 4
    ensures var b0: nat, b1: nat, b2: nat, b3: nat := b[0], b[1], b[2], b[3];
      var n := 0x100_0000 * b0 + 0x1_0000 * b1 + 0x100 * b2 + b3;
      ReadBe32(b) == n && Be32(n) == b
  {
    Be32ReadBe32(b);
  }

  lemma ReadBe32Be32(n: nat)
    ensures ReadBe32(Be32(n)) == n % 0x1_0000_0000
  {
    var q1 := n / 256;
    var q2 := q1 / 256;
    var q3 := q2 / 256;
    Remainder(n, q3 / 256, Horner(q3 % 256, q2 % 256, q1 % 256, n % 256));
  }

  lemma Remainder(n: nat, q: nat, r: nat)
    requires n == 0x1_0000_0000 * q + r && r < 0x1_0000_0000
    ensures n % 0x1_0000_0000 == r
  {
  }

  lemma Be32ReadBe32(b: seq<Byte>)
    requires |b| == 4
    ensures ReadBe32(b) < 0x1_0000_0000 && Be32(ReadBe32(b)) == b
  {
    var b0: nat, b1: nat, b2: nat, b3: nat := b[0], b[1], b[2], b[3];
    assert Horner(b0, b1, b2, b3) / 256 == (b0 * 256 + b1) * 256 + b2;
    assert ((b0 * 256 + b1) * 256 + b2) / 256 == b0 * 256 + b1;
    assert (b0 * 256 + b1) / 256 == b0;
  }

  /** `Uint8Array.set`: copies `bytes` into the buffer from `at` on. */
  method Set(buffer: array<Byte>, bytes: seq<Byte>, at: nat)
    requires at + |bytes| <= buffer.Length
    modifies buffer
    ensures buffer[..] == old(buffer[..at]) + bytes + old(buffer[at + |bytes|..])
  {
    for i := 0 to |bytes|
      invariant forall k :: 0 <= k < buffer.Length ==>
        buffer[k] == if at <= k < at + i then bytes[k - at] else old(buffer[k])
    {
      buffer[at + i] := bytes[i];
    }
  }

  // ---- Files ----

  /** Name and type of a file, as JSON text; what the reader finds may lack either. */
  datatype HeaderCodec = HeaderCodec(
    write: (string, string) -> seq<Byte>,
    read: seq<Byte> -> Option<(Option<string>, Option<string>)>)

  datatype File = File(name: string, kind: string, content: seq<Byte>)

  predicate Faithful(codec: HeaderCodec, name: string, kind: string) {
    codec.read(codec.write(name, kind)) == Some((Some(name), Some(kind))) && |codec.write(name, kind)| >= 2
  }

  function Packed(header: seq<Byte>, content: seq<Byte>): seq<Byte> {
    Be32(|header|) + header + content
  }

  function Unpack(codec: HeaderCodec, packed: seq<Byte>): Result<File> {
    if |packed| < 4 then Err("RangeError")
    else
      var n := ReadBe32(packed[..4]);
      if n < 2 || n > |packed| - 4 then Err("corrupted file payload")
      else match codec.read(packed[4..4 + n])
        case None => Err("SyntaxError")
        case Some((name, kind)) =>
          Ok(File(if name.Some? then name.value else "download",
                  if kind.Some? then kind.value else "application/octet-stream",
                  packed[4 + n..]))
  }

  method PackFilePayload(codec: HeaderCodec, name: string, kind: string, content: array<Byte>) returns (packed: array<Byte>)
    ensures fresh(packed) && packed[..] == Packed(codec.write(name, kind), content[..])
  {
    var header := codec.write(name, kind);
    packed := new Byte[4 + |header| + content.Length](_ => 0);
    ghost var blank := packed[..];
    Set(packed, Be32(|header|), 0);
    Set(packed, header, 4);
    assert packed[..4 + |header|] == Be32(|header|) + header;
    Set(packed, content[..], 4 + |header|);
  }

  /**
   A file comes back as it was exactly if its header's length fits in the four bytes; a longer header
   is cut, and then the rest of it is taken for content.
   */
  lemma UnpackPacked(codec: HeaderCodec, name: string, kind: string, content: seq<Byte>)
    requires Faithful(codec, name, kind)
    ensures Unpack(codec, Packed(codec.write(name, kind), content)) == Ok(File(name, kind, content))
      <==> |codec.write(name, kind)| < 0x1_0000_0000
  {
    var header := codec.write(name, kind);
    var p := Packed(header, content);
    assert p[..4] == Be32(|header|);
    ReadBe32Be32(|header|);
    hide Be32, ReadBe32, Horner;
    if |header| < 0x1_0000_0000 {
      assert p[4..4 + |header|] == header;
      assert p[4 + |header|..] == content;
    } else {
      var n := |header| % 0x1_0000_0000;
      assert |p[4 + n..]| > |content|;
    }
  }

  /** Whatever unpacks is a packed file: a header that parses, under its own length, and the content after it. */
  lemma UnpackedIs(codec: HeaderCodec, p: seq<Byte>)
    ensures Unpack(codec, p).Ok? <==>
      exists header, content :: p == Packed(header, content) && 2 <= |header| < 0x1_0000_0000 && codec.read(header).Some?
  {
    if Unpack(codec, p).Ok? { UnpackedFrom(codec, p); }
    hide Unpack, Packed;
    forall header, content | p == Packed(header, content) && 2 <= |header| < 0x1_0000_0000 && codec.read(header).Some?
      ensures Unpack(codec, p).Ok?
    {
      UnpackedAs(codec, header, content);
    }
  }

  lemma UnpackedFrom(codec: HeaderCodec, p: seq<Byte>)
    requires Unpack(codec, p).Ok?
    ensures exists header, content :: p == Packed(header, content) && 2 <= |header| < 0x1_0000_0000 && codec.read(header).Some?
  {
    var n := ReadBe32(p[..4]);
    Be32ReadBe32(p[..4]);
    hide Be32, ReadBe32, Horner;
    assert p == Packed(p[4..4 + n], p[4 + n..]);
  }

  /** Where everything lies in a packed file, and how its four first bytes count. */
  lemma PackedAt(header: seq<Byte>, content: seq<Byte>)
    requires |header| < 0x1_0000_0000
    ensures var p := Packed(header, content);
      && |p| == 4 + |header| + |content| && p[4..4 + |header|] == header && p[4 + |header|..] == content
      && Horner(p[0], p[1], p[2], p[3]) == |header|
  {
    var p := Packed(header, content);
    ReadBe32Be32(|header|);
    assert p[..4] == Be32(|header|);
    assert p[0] == p[..4][0] && p[1] == p[..4][1] && p[2] == p[..4][2] && p[3] == p[..4][3];
    hide Be32, Horner;
  }

  /** A header that lacks a name or a type unpacks under the ones the browser falls back to. */
  lemma UnpackedAs(codec: HeaderCodec, header: seq<Byte>, content: seq<Byte>)
    requires 2 <= |header| < 0x1_0000_0000 && codec.read(header).Some?
    ensures var (name, kind) := codec.read(header).value;
      Unpack(codec, Packed(header, content)) ==
        Ok(File(if name == None then "download" else name.value, if kind == None then "application/octet-stream" else kind.value, content))
  {
    var p := Packed(header, content);
    ReadBe32Be32(|header|);
    hide Be32, ReadBe32, Horner;
    assert p[..4] == Be32(|header|);
    assert p[4..4 + |header|] == header && p[4 + |header|..] == content;
  }

  // ---- Blobs ----

  const MAGIC: seq<Byte> := [0x53, 0x53, 0x50, 0x31]
  const ITERATIONS: nat := 600000

  /** The parts of a passphrase blob, in the order they lie in it. */
  datatype PassBlob = PassBlob(salt: seq<Byte>, iterations: nat, iv: seq<Byte>, ct: seq<Byte>)

  predicate WellFormed(b: PassBlob) {
    |b.salt| == 16 && |b.iv| == 12 && |b.ct| > 0 && 1 <= b.iterations <= 10000000
  }

  function Laid(b: PassBlob): seq<Byte> {
    MAGIC + b.salt + Be32(b.iterations) + b.iv + b.ct
  }

  predicate IsPassphraseBlob(blob: seq<Byte>) {
    |blob| > 36 && forall i :: 0 <= i < |MAGIC| ==> blob[i] == MAGIC[i]
  }

  function Parse(blob: seq<Byte>): Result<PassBlob> {
    if !IsPassphraseBlob(blob) then Err("not a passphrase-protected secret")
    else
      var iterations := ReadBe32(blob[20..24]);
      if iterations < 1 || iterations > 10000000 then Err("corrupted secret blob")
      else Ok(PassBlob(blob[4..20], iterations, blob[24..36], blob[36..]))
  }

  method LayPassphraseBlob(salt: seq<Byte>, iv: seq<Byte>, ct: seq<Byte>) returns (blob: array<Byte>)
    requires |salt| == 16 && |iv| == 12
    ensures fresh(blob) && blob[..] == Laid(PassBlob(salt, ITERATIONS, iv, ct))
  {
    blob := new Byte[4 + 16 + 4 + 12 + |ct|](_ => 0);
    Set(blob, MAGIC, 0);
    Set(blob, salt, 4);
    assert blob[..20] == MAGIC + salt;
    Set(blob, Be32(ITERATIONS), 20);
    assert blob[..24] == MAGIC + salt + Be32(ITERATIONS);
    Set(blob, iv, 24);
    assert blob[..36] == MAGIC + salt + Be32(ITERATIONS) + iv;
    Set(blob, ct, 36);
  }

  /** Where everything lies in a blob: "SSP1", salt, iterations, iv, and the sealed bytes from the 36th on. */
  lemma LaidAt(b: PassBlob)
    requires |b.salt| == 16 && |b.iv| == 12 && b.iterations < 0x1_0000_0000
    ensures var x := Laid(b);
      && |x| == 36 + |b.ct| && x[..4] == [0x53, 0x53, 0x50, 0x31] && x[4..20] == b.salt && x[24..36] == b.iv && x[36..] == b.ct
      && Horner(x[20], x[21], x[22], x[23]) == b.iterations
  {
    var x := Laid(b);
    ReadBe32Be32(b.iterations);
    var n := x[20..24];
    assert n == Be32(b.iterations);
    assert x[20] == n[0] && x[21] == n[1] && x[22] == n[2] && x[23] == n[3];
    hide Be32, Horner;
  }

  /** The parser and the layout are inverse to each other, on everything that either accepts. */
  lemma ParseLaid(b: PassBlob)
    requires WellFormed(b)
    ensures Parse(Laid(b)) == Ok(b)
  {
    var x := Laid(b);
    ReadBe32Be32(b.iterations);
    hide Be32, ReadBe32, Horner;
    assert x[4..20] == b.salt;
    assert x[20..24] == Be32(b.iterations);
    assert x[24..36] == b.iv;
    assert x[36..] == b.ct;
  }

  lemma LaidParsed(blob: seq<Byte>)
    requires Parse(blob).Ok?
    ensures WellFormed(Parse(blob).value) && Laid(Parse(blob).value) == blob
  {
    Be32ReadBe32(blob[20..24]);
    hide Be32, ReadBe32, Horner;
    assert blob[..4] == MAGIC;
    assert blob == blob[..4] + blob[4..20] + blob[20..24] + blob[24..36] + blob[36..];
  }

  /** `slice`, which clamps to the length. */
  function Head(b: seq<Byte>, n: nat): seq<Byte> {
    if n <= |b| then b[..n] else b
  }

  function Tail(b: seq<Byte>, n: nat): seq<Byte> {
    if n <= |b| then b[n..] else []
  }

  method LayKeyBlob(iv: seq<Byte>, ct: seq<Byte>) returns (blob: array<Byte>)
    requires |iv| == 12
    ensures fresh(blob) && blob[..] == iv + ct
  {
    blob := new Byte[|iv| + |ct|](_ => 0);
    Set(blob, iv, 0);
    assert blob[..12] == iv;
    Set(blob, ct, 12);
  }

  /** When a blob made with a key is taken for one made with a passphrase: its random iv must start like the magic. */
  lemma Mistaken(iv: seq<Byte>, ct: seq<Byte>)
    requires |iv| == 12
    ensures IsPassphraseBlob(iv + ct) <==> |ct| > 24 && iv[..4] == MAGIC
  {
    if iv[..4] == MAGIC {
      forall i | 0 <= i < 4 ensures iv[i] == MAGIC[i] {
        assert iv[i] == iv[..4][i];
      }
    }
    if IsPassphraseBlob(iv + ct) {
      assert forall i :: 0 <= i < 4 ==> (iv + ct)[i] == MAGIC[i];
    }
  }
}
