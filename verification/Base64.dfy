/** Base64 with the standard alphabet and canonical padding (section 4 of RFC 4648). */
module Base64 {
  import opened ByteText
  import opened Wrappers

  predicate IsSymbol(c: char) {
    'A' <= c <= 'Z' || 'a' <= c <= 'z' || '0' <= c <= '9' || c == '+' || c == '/'
  }

  function Symbol(v: nat): (c: char)
    requires v < 64
    ensures IsSymbol(c)
  {
    if v < 26 then (65 + v) as char
    else if v < 52 then (71 + v) as char
    else if v < 62 then (v - 4) as char
    else if v == 62 then '+' else '/'
  }

  function Sextet(c: char): (r: Option<nat>)
    ensures r.Some? <==> IsSymbol(c)
    ensures r.Some? ==> r.value < 64 && Symbol(r.value) == c
  {
    if 'A' <= c <= 'Z' then Some(c as int - 65)
    else if 'a' <= c <= 'z' then Some(c as int - 71)
    else if '0' <= c <= '9' then Some(c as int + 4)
    else if c == '+' then Some(62)
    else if c == '/' then Some(63)
    else None
  }

  lemma SextetOfSymbol(v: nat)
    requires v < 64
    ensures Sextet(Symbol(v)) == Some(v)
  {
  }

  /** The standard alphabet (table 1 of RFC 4648): both alphabets, the digits and two marks, each run in its order. */
  lemma SymbolIs()
    ensures Symbol(0) == 'A' && Symbol(26) == 'a' && Symbol(52) == '0' && Symbol(62) == '+' && Symbol(63) == '/'
    ensures forall v: nat :: v < 61 && v != 25 && v != 51 ==> Symbol(v + 1) as int == Symbol(v) as int + 1
  {
  }

  // ---------- One group ----------

  function Encode3(x: nat, y: nat, z: nat): string
    requires x < 256 && y < 256 && z < 256
  {
    [Symbol(x / 4), Symbol(x % 4 * 16 + y / 16), Symbol(y % 16 * 4 + z / 64), Symbol(z % 64)]
  }

  function Encode2(x: nat, y: nat): string
    requires x < 256 && y < 256
  {
    [Symbol(x / 4), Symbol(x % 4 * 16 + y / 16), Symbol(y % 16 * 4), '=']
  }

  function Encode1(x: nat): string
    requires x < 256
  {
    [Symbol(x / 4), Symbol(x % 4 * 16), '=', '=']
  }

  /** A group without padding. */
  function DecodeFull(g: string): (r: Option<string>)
    requires |g| == 4
    ensures r.Some? ==> IsBytes(r.value)
  {
    var a :- Sextet(g[0]);
    var b :- Sextet(g[1]);
    var c :- Sextet(g[2]);
    var d :- Sextet(g[3]);
    Some([(a * 4 + b / 16) as char, (b % 16 * 16 + c / 4) as char, (c % 4 * 64 + d) as char])
  }

  /** The last group; the bits that carry no data must be zero. */
  function DecodeLast(g: string): (r: Option<string>)
    requires |g| == 4
    ensures r.Some? ==> IsBytes(r.value)
  {
    if g[3] != '=' then DecodeFull(g)
    else
      var a :- Sextet(g[0]);
      var b :- Sextet(g[1]);
      if g[2] == '=' then
        if b % 16 == 0 then Some([(a * 4 + b / 16) as char]) else None
      else
        var c :- Sextet(g[2]);
        if c % 4 == 0 then Some([(a * 4 + b / 16) as char, (b % 16 * 16 + c / 4) as char]) else None
  }

  function EncodeGroup(b: string): string
    requires 1 <= |b| <= 3 && IsBytes(b)
  {
    if |b| == 1 then Encode1(b[0] as int)
    else if |b| == 2 then Encode2(b[0] as int, b[1] as int)
    else Encode3(b[0] as int, b[1] as int, b[2] as int)
  }

  lemma SameNumber(a: nat, b1: nat, b0: nat, c1: nat, c0: nat, d: nat)
    ensures ((a * 64 + (b1 * 16 + b0)) * 64 + (c1 * 4 + c0)) * 64 + d
         == ((a * 4 + b1) * 256 + (b0 * 16 + c1)) * 256 + (c0 * 64 + d)
  {
  }

  /** A group is the number its three bytes make, written with four digits to the base 64 (section 4). */
  lemma GroupIsNumber(x: nat, y: nat, z: nat) returns (a: nat, b: nat, c: nat, d: nat)
    requires x < 256 && y < 256 && z < 256
    ensures a < 64 && b < 64 && c < 64 && d < 64
    ensures ((a * 64 + b) * 64 + c) * 64 + d == (x * 256 + y) * 256 + z
    ensures Encode3(x, y, z) == [Symbol(a), Symbol(b), Symbol(c), Symbol(d)]
  {
    a, b, c, d := x / 4, x % 4 * 16 + y / 16, y % 16 * 4 + z / 64, z % 64;
    SameNumber(x / 4, x % 4, y / 16, y % 16, z / 64, z % 64);
  }

  /** What is missing of the last group counts as zero and is shown as padding. */
  lemma PaddingIsZero(x: nat, y: nat)
    requires x < 256 && y < 256
    ensures Encode2(x, y) == Encode3(x, y, 0)[..3] + "="
    ensures Encode1(x) == Encode3(x, 0, 0)[..2] + "=="
  {
  }

  /** Four sextets become three bytes and back. */
  lemma Pack(a: nat, b: nat, c: nat, d: nat)
    requires a < 64 && b < 64 && c < 64 && d < 64
    ensures var x, y, z := a * 4 + b / 16, b % 16 * 16 + c / 4, c % 4 * 64 + d;
            x < 256 && y < 256 && z < 256
            && x / 4 == a && x % 4 * 16 + y / 16 == b && y % 16 * 4 + z / 64 == c && z % 64 == d
  {
  }

  /** Three bytes become four sextets and back. */
  lemma Unpack(x: nat, y: nat, z: nat)
    requires x < 256 && y < 256 && z < 256
    ensures var a, b, c, d := x / 4, x % 4 * 16 + y / 16, y % 16 * 4 + z / 64, z % 64;
            a < 64 && b < 64 && c < 64 && d < 64
            && a * 4 + b / 16 == x && b % 16 * 16 + c / 4 == y && c % 4 * 64 + d == z
  {
  }

  lemma SymbolsDecode(a: nat, b: nat, c: nat, d: nat)
    requires a < 64 && b < 64 && c < 64 && d < 64
    ensures DecodeFull([Symbol(a), Symbol(b), Symbol(c), Symbol(d)])
         == Some([(a * 4 + b / 16) as char, (b % 16 * 16 + c / 4) as char, (c % 4 * 64 + d) as char])
  {
    SextetOfSymbol(a);
    SextetOfSymbol(b);
    SextetOfSymbol(c);
    SextetOfSymbol(d);
  }

  /** The four sextets of three bytes; bytes that are zero leave bits that are zero. */
  lemma Unpacked(x: nat, y: nat, z: nat) returns (a: nat, b: nat, c: nat, d: nat)
    requires x < 256 && y < 256 && z < 256
    ensures a < 64 && b < 64 && c < 64 && d < 64
    ensures a * 4 + b / 16 == x && b % 16 * 16 + c / 4 == y && c % 4 * 64 + d == z
    ensures Encode3(x, y, z) == [Symbol(a), Symbol(b), Symbol(c), Symbol(d)]
    ensures z == 0 ==> c % 4 == 0 && Encode2(x, y) == [Symbol(a), Symbol(b), Symbol(c), '=']
    ensures y == 0 && z == 0 ==> b % 16 == 0 && Encode1(x) == [Symbol(a), Symbol(b), '=', '=']
  {
    a, b, c, d := x / 4, x % 4 * 16 + y / 16, y % 16 * 4 + z / 64, z % 64;
    Unpack(x, y, z);
  }

  lemma Encode3Decodes(x: nat, y: nat, z: nat)
    requires x < 256 && y < 256 && z < 256
    ensures DecodeFull(Encode3(x, y, z)) == Some([x as char, y as char, z as char])
  {
    var a, b, c, d := Unpacked(x, y, z);
    SymbolsDecode(a, b, c, d);
  }

  lemma Encoded3Decodes(b: string)
    requires |b| == 3 && IsBytes(b)
    ensures DecodeFull(EncodeGroup(b)) == Some(b)
  {
    var x, y, z := b[0] as int, b[1] as int, b[2] as int;
    Encode3Decodes(x, y, z);
    assert b == [x as char, y as char, z as char];
  }

  lemma Encoded2Decodes(b: string)
    requires |b| == 2 && IsBytes(b)
    ensures DecodeLast(EncodeGroup(b)) == Some(b)
  {
    var x, y := b[0] as int, b[1] as int;
    var p, q, r, _ := Unpacked(x, y, 0);
    SextetOfSymbol(p);
    SextetOfSymbol(q);
    SextetOfSymbol(r);
    assert b == [x as char, y as char];
  }

  lemma Encoded1Decodes(b: string)
    requires |b| == 1 && IsBytes(b)
    ensures DecodeLast(EncodeGroup(b)) == Some(b)
  {
    var x := b[0] as int;
    var p, q, _, _ := Unpacked(x, 0, 0);
    SextetOfSymbol(p);
    SextetOfSymbol(q);
    assert b == [x as char];
  }

  lemma FullDecodesToEncoded(g: string)
    requires |g| == 4 && DecodeFull(g).Some?
    ensures var b := DecodeFull(g).value;
            |b| == 3 && IsBytes(b) && g == EncodeGroup(b)
  {
    var a, b, c, d := Sextet(g[0]).value, Sextet(g[1]).value, Sextet(g[2]).value, Sextet(g[3]).value;
    Pack(a, b, c, d);
    var x, y, z := a * 4 + b / 16, b % 16 * 16 + c / 4, c % 4 * 64 + d;
    assert DecodeFull(g).value == [x as char, y as char, z as char];
    assert Encode3(x, y, z) == [g[0], g[1], g[2], g[3]] == g;
  }

  lemma PaddedDecodesToEncoded(g: string)
    requires |g| == 4 && g[3] == '=' && DecodeLast(g).Some?
    ensures var b := DecodeLast(g).value;
            1 <= |b| <= 2 && IsBytes(b) && g == EncodeGroup(b)
  {
    var a, b := Sextet(g[0]).value, Sextet(g[1]).value;
    if g[2] == '=' {
      Pack(a, b, 0, 0);
      var x := a * 4 + b / 16;
      assert DecodeLast(g).value == [x as char];
      assert Encode1(x) == [g[0], g[1], g[2], g[3]] == g;
    } else {
      var c := Sextet(g[2]).value;
      Pack(a, b, c, 0);
      var x, y := a * 4 + b / 16, b % 16 * 16 + c / 4;
      assert DecodeLast(g).value == [x as char, y as char];
      assert Encode2(x, y) == [g[0], g[1], g[2], g[3]] == g;
    }
  }

  lemma DecodeFullIff(g: string, b: string)
    requires |g| == 4
    ensures DecodeFull(g) == Some(b) <==> |b| == 3 && IsBytes(b) && g == EncodeGroup(b)
  {
    if |b| == 3 && IsBytes(b) && g == EncodeGroup(b) {
      Encoded3Decodes(b);
    }
    if DecodeFull(g).Some? {
      FullDecodesToEncoded(g);
    }
  }

  lemma DecodeLastIff(g: string, b: string)
    requires |g| == 4
    ensures DecodeLast(g) == Some(b) <==> 1 <= |b| <= 3 && IsBytes(b) && g == EncodeGroup(b)
  {
    if 1 <= |b| <= 3 && IsBytes(b) && g == EncodeGroup(b) {
      if |b| == 1 {
        Encoded1Decodes(b);
      } else if |b| == 2 {
        Encoded2Decodes(b);
      } else {
        assert g[3] != '=';
        Encoded3Decodes(b);
      }
    }
    if DecodeLast(g).Some? {
      if g[3] == '=' {
        PaddedDecodesToEncoded(g);
      } else {
        FullDecodesToEncoded(g);
      }
    }
  }

  // ---------- Whole strings ----------

  function Encode(b: string): string
    requires IsBytes(b)
  {
    if b == "" then ""
    else if |b| <= 3 then EncodeGroup(b)
    else EncodeGroup(b[..3]) + Encode(b[3..])
  }

  function Decode(s: string): (r: Option<string>)
    ensures r.Some? ==> IsBytes(r.value)
  {
    if s == "" then Some("")
    else if |s| < 4 then None
    else if |s| == 4 then DecodeLast(s)
    else
      var first :- DecodeFull(s[..4]);
      var rest :- Decode(s[4..]);
      Some(first + rest)
  }

  lemma {:induction false} DecodedIsEncoded(s: string)
    requires Decode(s).Some?
    ensures IsBytes(Decode(s).value) && s == Encode(Decode(s).value)
  {
    if |s| > 4 {
      var first, rest := DecodeFull(s[..4]).value, Decode(s[4..]).value;
      DecodeFullIff(s[..4], first);
      DecodedIsEncoded(s[4..]);
      DecodesNonempty(s[4..]);
      var b := Decode(s).value;
      assert b[..3] == first && b[3..] == rest;
      assert s == s[..4] + s[4..];
    } else if |s| == 4 {
      DecodeLastIff(s, Decode(s).value);
    }
  }

  lemma {:induction false} EncodedDecodes(b: string)
    requires IsBytes(b)
    ensures Decode(Encode(b)) == Some(b)
  {
    if |b| > 3 {
      var s := Encode(b);
      EncodeLength(b[3..]);
      assert s[..4] == EncodeGroup(b[..3]) && s[4..] == Encode(b[3..]);
      DecodeFullIff(s[..4], b[..3]);
      EncodedDecodes(b[3..]);
      assert b == b[..3] + b[3..];
    } else if b != "" {
      DecodeLastIff(Encode(b), b);
    }
  }

  /** Decoding accepts exactly the encodings, each for its own bytes. */
  lemma DecodeIff(s: string, b: string)
    ensures Decode(s) == Some(b) <==> IsBytes(b) && s == Encode(b)
  {
    if Decode(s) == Some(b) {
      DecodedIsEncoded(s);
    }
    if IsBytes(b) && s == Encode(b) {
      EncodedDecodes(b);
    }
  }

  lemma DecodesNonempty(s: string)
    requires s != "" && Decode(s).Some?
    ensures Decode(s).value != ""
  {
    if |s| == 4 {
      DecodeLastIff(s, Decode(s).value);
    }
  }

  lemma {:induction false} EncodeLength(b: string)
    requires IsBytes(b)
    ensures |Encode(b)| == (|b| + 2) / 3 * 4
  {
    if |b| > 3 {
      EncodeLength(b[3..]);
      assert (|b| + 2) / 3 == (|b[3..]| + 2) / 3 + 1;
    }
  }

  lemma {:induction false} EncodeAlphabet(b: string)
    requires IsBytes(b)
    ensures forall i :: 0 <= i < |Encode(b)| ==> IsSymbol(Encode(b)[i]) || Encode(b)[i] == '='
  {
    if |b| > 3 {
      EncodeAlphabet(b[3..]);
    }
  }
}
