/** Ed25519 public keys: the inventory's check, the runner's check and the operator
  tool's check of a decoded key. */
module SshKeys {
  import opened Wrappers
  import opened Base64
  import opened ByteText
  import opened RustText

  const USIZE_LIMIT: nat := 0x1_0000_0000_0000_0000
  const PIN_LIMIT: nat := 256
  const ALGORITHM := "ssh-ed25519"

  // ---------- Strings as the Rust standard library sees them ----------

  /** `s.trim() == s`. */
  predicate Trimmed(s: string) {
    s == "" || (!IsWhitespace(s[0]) && !IsWhitespace(s[|s| - 1]))
  }

  /** `str::split(' ')`. */
  function Fields(s: string): (fields: seq<string>)
    ensures |fields| >= 1
  {
    if s == "" then [""]
    else
      var rest := Fields(s[1..]);
      if s[0] == ' ' then [""] + rest else [[s[0]] + rest[0]] + rest[1..]
  }

  // ---------- The wire format (section 5 of RFC 4251) ----------

  function Byte(n: nat): char
    requires n < 256
  {
    n as char
  }

  function Uint32(n: nat): (b: string)
    requires n < 0x1_0000_0000
    ensures |b| == 4 && IsBytes(b)
  {
    [Byte(n / 0x100_0000), Byte(n / 0x1_0000 % 256), Byte(n / 256 % 256), Byte(n % 256)]
  }

  function FromUint32(b: string): (n: nat)
    requires |b| == 4 && IsBytes(b)
    ensures n < 0x1_0000_0000
  {
    b[0] as int * 0x100_0000 + b[1] as int * 0x1_0000 + b[2] as int * 256 + b[3] as int
  }

  lemma Uint32Inverse(n: nat, b: string)
    requires n < 0x1_0000_0000 && |b| == 4 && IsBytes(b)
    ensures FromUint32(b) == n <==> b == Uint32(n)
  {
    Uint32Digits(b[0] as int, b[1] as int, b[2] as int, b[3] as int);
    Uint32Recombines(n);
    assert b == [b[0], b[1], b[2], b[3]];
  }

  lemma Uint32Digits(w: nat, x: nat, y: nat, z: nat)
    requires w < 256 && x < 256 && y < 256 && z < 256
    ensures var n := w * 0x100_0000 + x * 0x1_0000 + y * 256 + z;
            n / 0x100_0000 == w && n / 0x1_0000 % 256 == x && n / 256 % 256 == y && n % 256 == z
  {
    var n := w * 0x100_0000 + x * 0x1_0000 + y * 256 + z;
    assert n / 256 == w * 0x1_0000 + x * 256 + y;
    assert n / 0x1_0000 == w * 256 + x;
  }

  lemma Uint32Recombines(n: nat)
    ensures n / 0x100_0000 * 0x100_0000 + n / 0x1_0000 % 256 * 0x1_0000 + n / 256 % 256 * 256 + n % 256 == n
  {
    assert n / 256 / 256 == n / 0x1_0000 && n / 0x1_0000 / 256 == n / 0x100_0000;
  }

  /** A length-prefixed string. */
  function Wire(s: string): string
    requires |s| < 0x1_0000_0000
  {
    Uint32(|s|) + s
  }

  /** `ssh_string`: the string at an offset and the offset after it. */
  function SshString(bytes: string, offset: nat): Option<(string, nat)>
    requires IsBytes(bytes)
  {
    var start := offset + 4;
    if start >= USIZE_LIMIT || start > |bytes| then None
    else
      var end := start + FromUint32(bytes[offset..start]);
      if end >= USIZE_LIMIT || end > |bytes| then None
      else Some((bytes[start..end], end))
  }

  /** Reading at an offset succeeds exactly where an encoded string was written. */
  lemma SshStringIff(bytes: string, offset: nat, s: string, end: nat)
    requires IsBytes(bytes) && |bytes| < USIZE_LIMIT
    ensures SshString(bytes, offset) == Some((s, end))
       <==> |s| < 0x1_0000_0000 && end == offset + 4 + |s| <= |bytes| && bytes[offset..end] == Wire(s)
  {
    var start := offset + 4;
    if start <= |bytes| {
      var length := FromUint32(bytes[offset..start]);
      Uint32Inverse(length, bytes[offset..start]);
      if |s| < 0x1_0000_0000 && end == start + |s| <= |bytes| {
        Uint32Inverse(|s|, bytes[offset..start]);
        assert bytes[offset..end] == bytes[offset..start] + bytes[start..end];
        assert bytes[offset..end] == Wire(s) ==> bytes[offset..end][..4] == Uint32(|s|) && bytes[offset..end][4..] == s;
      }
    }
  }

  // ---------- The three checks ----------

  /** The inventory's check before a host key is stored: parse the blob string by string. */
  predicate InventoryAccepts(key: string) {
    && ByteLength(key) <= PIN_LIMIT && Trimmed(key)
    && var fields := Fields(key);
    && fields[0] == ALGORITHM && |fields| == 2 && fields[1] != ""
    && var decoded := Decode(fields[1]);
    && decoded.Some?
    && var algorithm := SshString(decoded.value, 0);
    && algorithm.Some?
    && var publicKey := SshString(decoded.value, algorithm.value.1);
    && publicKey.Some?
    && algorithm.value.0 == ALGORITHM && |publicKey.value.0| == 32 && publicKey.value.1 == |decoded.value|
  }

  /** The runner's check before a deploy: compare the blob's fixed offsets. */
  predicate RunnerAccepts(pin: string) {
    && var fields := Fields(pin);
    && fields[0] == ALGORITHM && |fields| == 2 && fields[1] != "" && ByteLength(pin) <= PIN_LIMIT
    && var decoded := Decode(fields[1]);
    && decoded.Some?
    && var bytes := decoded.value;
    && |bytes| == 51
    && bytes[..15] == [0 as char, 0 as char, 0 as char, 11 as char] + ALGORITHM
    && bytes[15..19] == [0 as char, 0 as char, 0 as char, 32 as char]
  }

  /** The operator tool's check of a decoded certificate authority key. */
  predicate CaBlobAccepts(blob: string) {
    var prefix := Uint32(|ALGORITHM|) + ALGORITHM + Uint32(32);
    |blob| == |prefix| + 32 && prefix <= blob
  }

  /** The key blob (section 4 of RFC 8709). */
  function Blob(publicKey: string): string
    requires |publicKey| == 32
  {
    Wire(ALGORITHM) + Wire(publicKey)
  }

  predicate IsPublicKey(k: string) {
    |k| == 32 && IsBytes(k)
  }

  /** The one text that stands for a public key. */
  function PinText(publicKey: string): string
    requires IsPublicKey(publicKey)
  {
    ALGORITHM + " " + Encode(Blob(publicKey))
  }

  // ---------- Agreement ----------

  lemma BlobShape(publicKey: string)
    requires IsPublicKey(publicKey)
    ensures |Blob(publicKey)| == 51 && IsBytes(Blob(publicKey))
    ensures Blob(publicKey)[..15] == [0 as char, 0 as char, 0 as char, 11 as char] + ALGORITHM
    ensures Blob(publicKey)[15..19] == [0 as char, 0 as char, 0 as char, 32 as char]
    ensures Blob(publicKey)[19..] == publicKey
  {
    assert Uint32(11) == [0 as char, 0 as char, 0 as char, 11 as char];
    assert Uint32(32) == [0 as char, 0 as char, 0 as char, 32 as char];
  }

  /** The fixed-offset check of a blob accepts exactly the key blobs. */
  lemma OffsetsIff(b: string)
    requires IsBytes(b)
    ensures |b| == 51
            && b[..15] == [0 as char, 0 as char, 0 as char, 11 as char] + ALGORITHM
            && b[15..19] == [0 as char, 0 as char, 0 as char, 32 as char]
       <==> |b| == 51 && b == Blob(b[19..])
  {
    if |b| == 51 {
      BlobShape(b[19..]);
      assert b == b[..15] + b[15..19] + b[19..];
      assert Blob(b[19..]) == Blob(b[19..])[..15] + Blob(b[19..])[15..19] + Blob(b[19..])[19..];
    }
  }

  /** The length-prefixed check of a blob accepts exactly the key blobs. */
  lemma ParsedIff(b: string)
    requires IsBytes(b) && |b| < USIZE_LIMIT
    ensures (exists middle: nat, k: string :: SshString(b, 0) == Some((ALGORITHM, middle))
                                              && SshString(b, middle) == Some((k, |b|)) && |k| == 32)
       <==> |b| == 51 && b == Blob(b[19..])
  {
    forall middle: nat, k: string
      | SshString(b, 0) == Some((ALGORITHM, middle)) && SshString(b, middle) == Some((k, |b|)) && |k| == 32
      ensures |b| == 51 && b == Blob(b[19..])
    {
      SshStringIff(b, 0, ALGORITHM, middle);
      SshStringIff(b, middle, k, |b|);
      assert b == b[..middle] + b[middle..];
      BlobShape(k);
    }
    if |b| == 51 && b == Blob(b[19..]) {
      var k := b[19..];
      BlobShape(k);
      assert b[0..15] == Wire(ALGORITHM) && b[15..51] == Wire(k);
      SshStringIff(b, 0, ALGORITHM, 15);
      SshStringIff(b, 15, k, 51);
    }
  }

  /** The operator tool accepts exactly the key blobs. */
  lemma CaBlobIff(b: string)
    requires IsBytes(b)
    ensures CaBlobAccepts(b) <==> |b| == 51 && b == Blob(b[19..])
  {
    var prefix := Uint32(|ALGORITHM|) + ALGORITHM + Uint32(32);
    if |b| == 51 {
      assert Blob(b[19..]) == prefix + b[19..];
      assert b == b[..19] + b[19..];
    }
  }

  lemma {:induction false} FieldsJoin(a: string, b: string)
    requires ' ' !in a
    ensures Fields(a + " " + b) == [a] + Fields(b)
  {
    if a == "" {
      assert a + " " + b == " " + b;
    } else {
      assert (a + " " + b)[1..] == a[1..] + " " + b;
      FieldsJoin(a[1..], b);
      assert [a[0]] + a[1..] == a;
      assert ([a[1..]] + Fields(b))[1..] == Fields(b);
    }
  }

  lemma {:induction false} SingleField(a: string)
    ensures ' ' !in a <==> Fields(a) == [a]
    ensures |Fields(a)| == 1 <==> ' ' !in a
  {
    if a != "" {
      SingleField(a[1..]);
      assert [a[0]] + a[1..] == a;
      assert a[0] != ' ' && ' ' !in a[1..] ==> Fields(a) == [a];
    }
  }

  lemma {:induction false} TwoFields(s: string)
    requires |Fields(s)| == 2
    ensures s == Fields(s)[0] + " " + Fields(s)[1]
  {
    if s[0] == ' ' {
      SingleField(s[1..]);
      assert s == "" + " " + s[1..];
    } else {
      TwoFields(s[1..]);
    }
  }

  /** The text of an algorithm and its encoded blob. */
  lemma TextShape(encoded: string)
    requires |encoded| == 68 && forall i :: 0 <= i < |encoded| ==> '!' <= encoded[i] <= '~'
    ensures var text := ALGORITHM + " " + encoded;
            |text| == 80 && ByteLength(text) == 80 && Trimmed(text) && Fields(text) == [ALGORITHM, encoded]
  {
    var text := ALGORITHM + " " + encoded;
    assert forall i :: 12 <= i < 80 ==> text[i] == encoded[i - 12];
    AsciiByteLength(text);
    FieldsJoin(ALGORITHM, encoded);
    SingleField(encoded);
  }

  lemma EncodedText(b: string)
    requires |b| == 51 && IsBytes(b)
    ensures |Encode(b)| == 68 && forall i :: 0 <= i < |Encode(b)| ==> '!' <= Encode(b)[i] <= '~'
  {
    EncodeLength(b);
    EncodeAlphabet(b);
  }

  lemma PinTextShape(k: string)
    requires IsPublicKey(k)
    ensures |PinText(k)| == 80 && ByteLength(PinText(k)) == 80 && Trimmed(PinText(k))
    ensures Fields(PinText(k)) == [ALGORITHM, Encode(Blob(k))] && |Encode(Blob(k))| == 68
  {
    BlobShape(k);
    EncodedText(Blob(k));
    TextShape(Encode(Blob(k)));
  }

  /** The runner accepts exactly the canonical texts of the public keys. */
  lemma RunnerAcceptsIff(pin: string)
    ensures RunnerAccepts(pin) <==> exists k :: IsPublicKey(k) && pin == PinText(k)
  {
    if RunnerAccepts(pin) {
      var encoded := Fields(pin)[1];
      var b := Decode(encoded).value;
      DecodeIff(encoded, b);
      OffsetsIff(b);
      TwoFields(pin);
      assert IsPublicKey(b[19..]) && pin == PinText(b[19..]);
    }
    if k :| IsPublicKey(k) && pin == PinText(k) {
      PinTextShape(k);
      BlobShape(k);
      DecodeIff(Encode(Blob(k)), Blob(k));
    }
  }

  lemma AcceptedIsPinText(key: string)
    requires InventoryAccepts(key)
    ensures exists k :: IsPublicKey(k) && key == PinText(k)
  {
    var encoded := Fields(key)[1];
    var b := Decode(encoded).value;
    DecodeIff(encoded, b);
    TwoFields(key);
    DecodedFits(key, encoded, b);
    ParsedIff(b);
    assert IsPublicKey(b[19..]) && key == PinText(b[19..]);
  }

  lemma PinTextIsAccepted(k: string)
    requires IsPublicKey(k)
    ensures InventoryAccepts(PinText(k))
  {
    PinTextShape(k);
    BlobShape(k);
    DecodeIff(Encode(Blob(k)), Blob(k));
    assert Blob(k) == Blob(Blob(k)[19..]);
    ParsedIff(Blob(k));
  }

  /** The inventory accepts exactly the canonical texts of the public keys. */
  lemma InventoryAcceptsIff(key: string)
    ensures InventoryAccepts(key) <==> exists k :: IsPublicKey(k) && key == PinText(k)
  {
    if InventoryAccepts(key) {
      AcceptedIsPinText(key);
    }
    if k :| IsPublicKey(k) && key == PinText(k) {
      PinTextIsAccepted(k);
    }
  }

  /** A key text within the byte limit decodes to fewer bytes than an address can count. */
  lemma DecodedFits(key: string, encoded: string, b: string)
    requires ByteLength(key) <= PIN_LIMIT && |encoded| <= |key| && IsBytes(b) && encoded == Encode(b)
    ensures |b| < USIZE_LIMIT
  {
    EncodeLength(b);
    ByteLengthAtLeast(key);
  }

  /** Every host key the inventory can store is a pin the runner runs with, and conversely. */
  lemma StoredPinsAreRunnable(text: string)
    ensures InventoryAccepts(text) <==> RunnerAccepts(text)
  {
    InventoryAcceptsIff(text);
    RunnerAcceptsIff(text);
  }

  /** Different keys have different texts, so an accepted pin names one key. */
  lemma PinNamesOneKey(k: string, k': string)
    requires IsPublicKey(k) && IsPublicKey(k') && PinText(k) == PinText(k')
    ensures k == k'
  {
    PinTextShape(k);
    PinTextShape(k');
    BlobShape(k);
    BlobShape(k');
    DecodeIff(Encode(Blob(k)), Blob(k));
    DecodeIff(Encode(Blob(k')), Blob(k'));
  }
}
