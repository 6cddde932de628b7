/**
 The file format of a cached artifact: a header block of 4096 bytes, holding the length of the
 metadata in four bytes, the most significant first, the metadata and zeros, and then the body.
 */
module Envelope {
  import opened Wrappers

  newtype byte = i: int | 0 <= i < 0x100

  const HeaderSize: nat := 4096
  const LengthSize: nat := 4

  datatype Metadata = Metadata(
    key: string,
    size: int,
    digest: string,
    md5: string,
    outputId: string,
    compression: string,
    uncompressedSize: int,
    modified: int)

  datatype Stored = Stored(meta: Metadata, body: seq<byte>)

  /** The codec of the metadata, the digests of bodies and the digest that names a key's file. */
  datatype Env = Env(
    encode: Metadata -> seq<byte>,
    decode: seq<byte> -> Option<Metadata>,
    sha256: seq<byte> -> string,
    md5: seq<byte> -> string,
    hash: string -> string)

  predicate HexDigit(c: char) {
    '0' <= c <= '9' || 'a' <= c <= 'f'
  }

  predicate ValidHex(value: string, size: nat) {
    |value| == size * 2 && forall i | 0 <= i < |value| :: HexDigit(value[i])
  }

  predicate ValidKey(key: string) {
    ValidHex(key, 32)
  }

  predicate ValidMetadata(m: Metadata) {
    && ValidKey(m.key) && ValidHex(m.outputId, 32) && ValidHex(m.digest, 32) && ValidHex(m.md5, 16)
    && m.modified > 0 && m.uncompressedSize >= 0
    && (m.compression == "zstd" || (m.compression == "" && m.uncompressedSize == m.size))
  }

  predicate Hex(value: string, length: nat) {
    |value| == length && forall c | c in value :: c in "0123456789abcdef"
  }

  lemma HexDigitIs(c: char)
    ensures HexDigit(c) <==> c in "0123456789abcdef"
  {
  }

  lemma ValidHexIs(value: string, size: nat)
    ensures ValidHex(value, size) <==> Hex(value, 2 * size)
  {
    forall c | c in value ensures HexDigit(c) <==> c in "0123456789abcdef" { HexDigitIs(c); }
    hide HexDigit;
    if ValidHex(value, size) { assert forall c | c in value :: HexDigit(c); }
    if Hex(value, 2 * size) { assert forall i | 0 <= i < |value| :: value[i] in value; }
  }

  /** The metadata a server takes: digests in lower case, and an uncompressed artifact is as large as it says it is. */
  lemma ProperMetadata(m: Metadata)
    ensures ValidMetadata(m) <==>
      && Hex(m.key, 64) && Hex(m.outputId, 64) && Hex(m.digest, 64) && Hex(m.md5, 32)
      && m.modified >= 1 && m.uncompressedSize >= 0
      && (m.compression == "zstd" || (m.compression == "" && m.uncompressedSize == m.size))
  {
    ValidHexIs(m.key, 32);
    ValidHexIs(m.outputId, 32);
    ValidHexIs(m.digest, 32);
    ValidHexIs(m.md5, 16);
    hide Hex, ValidHex;
  }

  ghost predicate Lawful(env: Env) {
    && (forall m | ValidMetadata(m) :: env.decode(env.encode(m)) == Some(m) && env.encode(m) != [])
    && (forall a, b :: env.hash(a) == env.hash(b) ==> a == b)
  }

  function BigEndian(n: nat): (bytes: seq<byte>)
    requires n < 0x1_0000_0000
    ensures |bytes| == LengthSize && FromBigEndian(bytes) == n
  {
    [(n / 0x100_0000) as byte, (n / 0x1_0000 % 0x100) as byte, (n / 0x100 % 0x100) as byte, (n % 0x100) as byte]
  }

  function FromBigEndian(bytes: seq<byte>): nat
    requires |bytes| == LengthSize
  {
    bytes[0] as nat * 0x100_0000 + bytes[1] as nat * 0x1_0000 + bytes[2] as nat * 0x100 + bytes[3] as nat
  }

  /** The most significant byte comes first. */
  lemma MostSignificantFirst(n: nat)
    requires n < 0x1_0000_0000
    ensures
      var bytes := BigEndian(n);
      && bytes[0] as int == n / 16777216
      && bytes[0] as int * 16777216 <= n
      && n - bytes[0] as int * 16777216 == bytes[1] as int * 65536 + bytes[2] as int * 256 + bytes[3] as int
  {
  }

  function Zeros(n: nat): (zeros: seq<byte>)
    ensures |zeros| == n
  {
    seq(n, _ => 0)
  }

  predicate Fits(env: Env, m: Metadata) {
    0 < |env.encode(m)| <= HeaderSize - LengthSize
  }

  function Header(env: Env, m: Metadata): (header: seq<byte>)
    requires Fits(env, m)
    ensures |header| == HeaderSize
  {
    var e := env.encode(m);
    BigEndian(|e|) + e + Zeros(HeaderSize - LengthSize - |e|)
  }

  function Sealed(env: Env, s: Stored): (content: seq<byte>)
    requires Fits(env, s.meta)
    ensures |content| == HeaderSize + |s.body|
  {
    Header(env, s.meta) + s.body
  }

  /** What a file holds, if it holds a complete artifact. */
  function Read(env: Env, content: seq<byte>): Option<Stored> {
    if |content| < HeaderSize then None
    else
      var n := FromBigEndian(content[..LengthSize]);
      if n == 0 || n > HeaderSize - LengthSize then None
      else
        var meta := env.decode(content[LengthSize..LengthSize + n]);
        if meta.None? then None
        else
          var m := meta.value;
          var body := content[HeaderSize..];
          if !ValidMetadata(m) || m.size != |body| || env.sha256(body) != m.digest then None
          else Some(Stored(m, body))
  }

  /** Whatever is read is whole: the length in front, in the first four bytes, leads to metadata that fit the header block of 4096
      bytes and are valid, and the rest is a body of just the size and the digest they name. */
  lemma ReadIsWhole(env: Env, content: seq<byte>, s: Stored)
    requires Read(env, content) == Some(s)
    ensures |content| == 4096 + |s.body| && content[4096..] == s.body
    ensures s.meta.size == |s.body| && s.meta.digest == env.sha256(s.body) && ValidMetadata(s.meta)
    ensures
      var n := content[0] as int * 16777216 + content[1] as int * 65536 + content[2] as int * 256 + content[3] as int;
      0 < n <= 4092 && env.decode(content[4..4 + n]) == Some(s.meta)
  {
  }

  /** A body that was altered is not read, unless the digest does not tell the two apart. */
  lemma AlteredIsRefused(env: Env, s: Stored, altered: seq<byte>)
    requires Lawful(env) && ValidMetadata(s.meta) && Fits(env, s.meta)
    requires |altered| != s.meta.size || env.sha256(altered) != s.meta.digest
    ensures Read(env, Header(env, s.meta) + altered).None?
  {
    var e := env.encode(s.meta);
    var content := Header(env, s.meta) + altered;
    assert content[..LengthSize] == BigEndian(|e|);
    assert content[LengthSize..LengthSize + |e|] == e;
    assert content[HeaderSize..] == altered;
  }

  /** Everything a complete upload writes is read back. */
  lemma RoundTrip(env: Env, s: Stored)
    requires Lawful(env) && ValidMetadata(s.meta) && Fits(env, s.meta)
    requires s.meta.size == |s.body| && s.meta.digest == env.sha256(s.body)
    ensures Read(env, Sealed(env, s)) == Some(s)
  {
    var e := env.encode(s.meta);
    var content := Sealed(env, s);
    assert content[..LengthSize] == BigEndian(|e|);
    assert content[LengthSize..LengthSize + |e|] == e;
    assert content[HeaderSize..] == s.body;
  }

  /** The header block as it is filled in place. */
  method FillHeader(env: Env, m: Metadata) returns (buffer: array<byte>)
    requires Fits(env, m)
    ensures fresh(buffer) && buffer[..] == Header(env, m)
  {
    var e := env.encode(m);
    buffer := new byte[HeaderSize](_ => 0);
    buffer[0] := (|e| / 0x100_0000) as byte;
    buffer[1] := (|e| / 0x1_0000 % 0x100) as byte;
    buffer[2] := (|e| / 0x100 % 0x100) as byte;
    buffer[3] := (|e| % 0x100) as byte;
    for i := 0 to |e|
      invariant buffer[..LengthSize] == BigEndian(|e|)
      invariant buffer[LengthSize..LengthSize + i] == e[..i]
      invariant forall j | LengthSize + i <= j < HeaderSize :: buffer[j] == 0
    {
      buffer[LengthSize + i] := e[i];
    }
    assert buffer[LengthSize..LengthSize + |e|] == e;
    assert buffer[LengthSize + |e|..] == Zeros(HeaderSize - LengthSize - |e|);
    assert buffer[..] == buffer[..LengthSize] + buffer[LengthSize..LengthSize + |e|] + buffer[LengthSize + |e|..];
  }
}
