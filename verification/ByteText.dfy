/** Text as bytes.

  The Rust code works on `&str` and `&[u8]`; its lengths and offsets count bytes.
  A byte string is modelled as a `string` that holds one byte per character;
  `ValidUtf8` admits only characters below 256. */
module ByteText {
  import opened Wrappers

  predicate IsBytes(s: string) {
    forall i :: 0 <= i < |s| ==> s[i] as int < 256
  }

  // ---------- Substring search (Rust's `str::find` and `str::contains`) ----------

  predicate At(s: string, p: string, i: nat) {
    i + |p| <= |s| && s[i..i + |p|] == p
  }

  ghost predicate Occurs(s: string, p: string) {
    exists i: nat :: At(s, p, i)
  }

  function Find(s: string, p: string): (r: Option<nat>)
    ensures r.None? ==> !Occurs(s, p)
    ensures r.Some? ==> At(s, p, r.value) && forall j: nat :: At(s, p, j) ==> r.value <= j
  {
    FindFrom(s, p, 0)
  }

  function FindFrom(s: string, p: string, i: nat): (r: Option<nat>)
    requires i <= |s|
    ensures r.None? ==> forall j: nat :: At(s, p, j) ==> j < i
    ensures r.Some? ==> At(s, p, r.value) && i <= r.value && forall j: nat :: At(s, p, j) ==> j < i || r.value <= j
    decreases |s| - i
  {
    if At(s, p, i) then Some(i)
    else if i == |s| then None
    else FindFrom(s, p, i + 1)
  }

  /** A pattern `p` meets itself in at most `k` characters when its last character
    appears, apart from the end, only among the first `k`. */
  ghost predicate MeetsItselfWithin(p: string, k: nat) {
    k < |p| && forall j :: k <= j < |p| - 1 ==> p[j] != p[|p| - 1]
  }

  /** An occurrence inside a part of a text is one at the shifted place. */
  lemma AtWithin(before: string, part: string, after: string, p: string, i: nat)
    requires i + |p| <= |part|
    ensures At(part, p, i) <==> At(before + part + after, p, |before| + i)
  {
    var s := before + part + after;
    assert s[|before| + i..|before| + i + |p|] == part[i..i + |p|];
  }

  /** Inside `pre + p[..k]` the text and its continuation have the same occurrences. */
  lemma AtBefore(pre: string, p: string, post: string, k: nat, i: nat)
    requires k <= |p| && i + |p| <= |pre| + k
    ensures At(pre + p[..k], p, i) <==> At(pre + p + post, p, i)
  {
    assert p == p[..k] + p[k..];
    assert pre + p + post == "" + (pre + p[..k]) + (p[k..] + post);
    AtWithin("", pre + p[..k], p[k..] + post, p, i);
  }

  /** The first occurrence in `pre + p + post` is the written one exactly when no
    earlier one is completed inside `pre` and the first `k` characters of `p`. */
  lemma FindsWrittenIff(pre: string, p: string, post: string, k: nat)
    requires MeetsItselfWithin(p, k)
    ensures Find(pre + p + post, p) == Some(|pre|) <==> !Occurs(pre + p[..k], p)
  {
    var s := pre + p + post;
    assert At(s, p, |pre|);
    forall i: nat | i < |pre| && At(s, p, i)
      ensures At(pre + p[..k], p, i)
    {
      var e := i + |p| - 1;
      assert s[e] == s[i..i + |p|][|p| - 1] == p[|p| - 1];
      assert e >= |pre| ==> s[e] == p[e - |pre|];
      AtBefore(pre, p, post, k, i);
    }
    if i: nat :| At(pre + p[..k], p, i) {
      AtBefore(pre, p, post, k, i);
      assert At(s, p, i) && i < |pre|;
    }
  }

  lemma SliceMember(s: string, low: nat, high: nat, k: nat)
    requires low <= k < high <= |s|
    ensures s[k] in s[low..high]
  {
    assert s[k] == s[low..high][k - low];
  }

  /** A character foreign to the pattern splits the search in two. */
  lemma OccursAcrossForeign(a: string, c: char, b: string, p: string)
    requires c !in p && p != ""
    ensures Occurs(a + [c] + b, p) <==> Occurs(a, p) || Occurs(b, p)
  {
    var s := a + [c] + b;
    assert s == "" + a + ([c] + b) && s == (a + [c]) + b + "";
    if i: nat :| At(s, p, i) {
      if i <= |a| < i + |p| {
        SliceMember(s, i, i + |p|, |a|);
        assert false;
      }
      if i < |a| {
        AtWithin("", a, [c] + b, p, i);
      } else {
        AtWithin(a + [c], b, "", p, i - |a| - 1);
      }
    }
    if i: nat :| At(a, p, i) {
      AtWithin("", a, [c] + b, p, i);
    }
    if i: nat :| At(b, p, i) {
      AtWithin(a + [c], b, "", p, i);
    }
  }

  lemma NoStartNoOccurrence(s: string, p: string)
    requires p != "" && p[0] !in s
    ensures !Occurs(s, p)
  {
    forall i: nat | i + |p| <= |s|
      ensures !At(s, p, i)
    {
      assert s[i..i + |p|][0] == s[i];
    }
  }

  // ---------- UTF-8 (section 4 of RFC 3629) ----------

  predicate Within(c: char, low: int, high: int) {
    low <= c as int <= high
  }

  predicate Tail(c: char) {
    Within(c, 0x80, 0xBF)
  }

  /** Length of the well-formed sequence that starts `s`, or 0 when there is none. */
  function Utf8Length(s: string): (n: nat)
    ensures n <= 4 && n <= |s|
  {
    if s == "" then 0
    else if s[0] as int < 0x80 then 1
    else if |s| < 2 then 0
    else if Within(s[0], 0xC2, 0xDF) && Tail(s[1]) then 2
    else if |s| < 3 || !Tail(s[2]) then 0
    else if s[0] as int == 0xE0 && Within(s[1], 0xA0, 0xBF) then 3
    else if Within(s[0], 0xE1, 0xEC) && Tail(s[1]) then 3
    else if s[0] as int == 0xED && Within(s[1], 0x80, 0x9F) then 3
    else if Within(s[0], 0xEE, 0xEF) && Tail(s[1]) then 3
    else if |s| < 4 || !Tail(s[3]) then 0
    else if s[0] as int == 0xF0 && Within(s[1], 0x90, 0xBF) then 4
    else if Within(s[0], 0xF1, 0xF3) && Tail(s[1]) then 4
    else if s[0] as int == 0xF4 && Within(s[1], 0x80, 0x8F) then 4
    else 0
  }

  predicate ValidUtf8(s: string) {
    s == "" || (Utf8Length(s) > 0 && ValidUtf8(s[Utf8Length(s)..]))
  }

  predicate Ascii(s: string) {
    forall i :: 0 <= i < |s| ==> s[i] as int < 0x80
  }

  /** Cutting before an ASCII character never splits a sequence, so a text is valid
    exactly when both of its sides are. */
  lemma {:induction false} Utf8CutsAtAscii(a: string, b: string)
    requires b == "" || b[0] as int < 0x80
    ensures ValidUtf8(a + b) <==> ValidUtf8(a) && ValidUtf8(b)
  {
    if a == "" {
      assert a + b == b;
    } else {
      var s := a + b;
      assert Utf8Length(s) == Utf8Length(a);
      if Utf8Length(a) > 0 {
        var n := Utf8Length(a);
        assert s[n..] == a[n..] + b;
        Utf8CutsAtAscii(a[n..], b);
      }
    }
  }

  lemma {:induction false} AsciiIsUtf8(s: string)
    requires Ascii(s)
    ensures ValidUtf8(s)
  {
    if s != "" {
      AsciiIsUtf8(s[1..]);
    }
  }

  /** ASCII framing around a text does not change whether it is valid. */
  lemma Utf8IgnoresAsciiFrame(a: string, mid: string, b: string)
    requires Ascii(mid) && mid != ""
    ensures ValidUtf8(a + mid + b) <==> ValidUtf8(a) && ValidUtf8(b)
  {
    assert a + mid + b == a + (mid + b);
    Utf8CutsAtAscii(a, mid + b);
    AsciiPrefix(mid, b);
  }

  lemma {:induction false} AsciiPrefix(mid: string, b: string)
    requires Ascii(mid)
    ensures ValidUtf8(mid + b) <==> ValidUtf8(b)
  {
    if mid == "" {
      assert mid + b == b;
    } else {
      assert (mid + b)[1..] == mid[1..] + b;
      AsciiPrefix(mid[1..], b);
    }
  }

  // ---------- UTF-8 by its encoder ----------

  /** A Unicode scalar value. */
  predicate Scalar(v: nat) {
    v < 0xD800 || 0xE000 <= v < 0x110000
  }

  /** Its bytes. */
  function Utf8(v: nat): (s: string)
    requires Scalar(v)
    ensures 1 <= |s| <= 4
  {
    if v < 0x80 then [v as char]
    else if v < 0x800 then [(0xC0 + v / 0x40) as char, (0x80 + v % 0x40) as char]
    else if v < 0x10000 then
      [(0xE0 + v / 0x40 / 0x40) as char, (0x80 + v / 0x40 % 0x40) as char, (0x80 + v % 0x40) as char]
    else
      [(0xF0 + v / 0x40 / 0x40 / 0x40) as char, (0x80 + v / 0x40 / 0x40 % 0x40) as char,
       (0x80 + v / 0x40 % 0x40) as char, (0x80 + v % 0x40) as char]
  }

  predicate Scalars(vs: seq<nat>) {
    forall i :: 0 <= i < |vs| ==> Scalar(vs[i])
  }

  function Utf8All(vs: seq<nat>): string
    requires Scalars(vs)
  {
    if vs == [] then "" else Utf8(vs[0]) + Utf8All(vs[1..])
  }

  lemma Utf8Starts(v: nat, rest: string)
    requires Scalar(v)
    ensures Utf8Length(Utf8(v) + rest) == |Utf8(v)|
  {
    var s := Utf8(v) + rest;
    assert forall i :: 0 <= i < |Utf8(v)| ==> s[i] == Utf8(v)[i];
    if 0x800 <= v < 0x10000 {
      Utf8Starts3(v, s);
    } else if 0x10000 <= v {
      Utf8Starts4(v, s);
    }
  }

  lemma Utf8Starts3(v: nat, s: string)
    requires Scalar(v) && 0x800 <= v < 0x10000 && Utf8(v) <= s
    ensures Utf8Length(s) == 3
  {
    assert s[0] == Utf8(v)[0] && s[1] == Utf8(v)[1] && s[2] == Utf8(v)[2];
  }

  lemma Utf8Starts4(v: nat, s: string)
    requires Scalar(v) && 0x10000 <= v && Utf8(v) <= s
    ensures Utf8Length(s) == 4
  {
    assert s[0] == Utf8(v)[0] && s[1] == Utf8(v)[1] && s[2] == Utf8(v)[2] && s[3] == Utf8(v)[3];
  }

  /** The scalar value that a well-formed sequence encodes. */
  function FirstScalar(s: string): (v: nat)
    requires Utf8Length(s) > 0
  {
    var b := s[0] as int;
    match Utf8Length(s)
    case 1 => b
    case 2 => (b - 0xC0) * 0x40 + (s[1] as int - 0x80)
    case 3 => ((b - 0xE0) * 0x40 + (s[1] as int - 0x80)) * 0x40 + (s[2] as int - 0x80)
    case _ =>
      (((b - 0xF0) * 0x40 + (s[1] as int - 0x80)) * 0x40 + (s[2] as int - 0x80)) * 0x40 + (s[3] as int - 0x80)
  }

  lemma Quotient(q: nat, r: nat)
    requires r < 0x40
    ensures (q * 0x40 + r) / 0x40 == q && (q * 0x40 + r) % 0x40 == r
  {
  }

  /** The digits of a scalar value to the base 64. */
  lemma Sixtyfourths(a: nat, b: nat, c: nat, d: nat)
    requires b < 0x40 && c < 0x40 && d < 0x40
    ensures var v := ((a * 0x40 + b) * 0x40 + c) * 0x40 + d;
            v / 0x40 / 0x40 / 0x40 == a && v / 0x40 / 0x40 == a * 0x40 + b && v / 0x40 / 0x40 % 0x40 == b
            && v / 0x40 % 0x40 == c && v % 0x40 == d
  {
    Quotient((a * 0x40 + b) * 0x40 + c, d);
    Quotient(a * 0x40 + b, c);
    Quotient(a, b);
  }

  lemma FirstIsEncoded3(s: string)
    requires Utf8Length(s) == 3
    ensures Scalar(FirstScalar(s)) && Utf8(FirstScalar(s)) == s[..3]
  {
    Sixtyfourths(0, s[0] as int - 0xE0, s[1] as int - 0x80, s[2] as int - 0x80);
    assert 0x800 <= FirstScalar(s) < 0x10000;
    assert s[..3] == [s[0], s[1], s[2]];
  }

  lemma FirstIsEncoded4(s: string)
    requires Utf8Length(s) == 4
    ensures Scalar(FirstScalar(s)) && Utf8(FirstScalar(s)) == s[..4]
  {
    Sixtyfourths(s[0] as int - 0xF0, s[1] as int - 0x80, s[2] as int - 0x80, s[3] as int - 0x80);
    assert 0x10000 <= FirstScalar(s) < 0x110000;
    assert s[..4] == [s[0], s[1], s[2], s[3]];
  }

  lemma FirstIsEncoded(s: string)
    requires Utf8Length(s) > 0
    ensures Scalar(FirstScalar(s)) && Utf8(FirstScalar(s)) == s[..Utf8Length(s)]
  {
    if Utf8Length(s) == 3 {
      FirstIsEncoded3(s);
    } else if Utf8Length(s) == 4 {
      FirstIsEncoded4(s);
    }
  }

  /** A byte string is valid exactly when it is what the encoder makes of some scalar values. */
  lemma {:induction false} ValidUtf8Iff(s: string)
    ensures ValidUtf8(s) <==> exists vs :: Scalars(vs) && s == Utf8All(vs)
  {
    if ValidUtf8(s) {
      var vs := Decoded(s);
    }
    if vs :| Scalars(vs) && s == Utf8All(vs) {
      EncodedIsValid(vs);
    }
  }

  lemma Utf8AllCons(v: nat, vs: seq<nat>)
    requires Scalar(v) && Scalars(vs)
    ensures Scalars([v] + vs) && Utf8All([v] + vs) == Utf8(v) + Utf8All(vs)
  {
    assert ([v] + vs)[1..] == vs;
  }

  lemma FirstAndRest(s: string) returns (v: nat, rest: string)
    requires ValidUtf8(s) && s != ""
    ensures Scalar(v) && s == Utf8(v) + rest && |rest| < |s| && ValidUtf8(rest)
  {
    FirstIsEncoded(s);
    v, rest := FirstScalar(s), s[Utf8Length(s)..];
    assert s == s[..Utf8Length(s)] + rest;
  }

  lemma {:induction false} Decoded(s: string) returns (vs: seq<nat>)
    requires ValidUtf8(s)
    ensures Scalars(vs) && s == Utf8All(vs)
    decreases |s|
  {
    vs := [];
    if s != "" {
      var v, rest := FirstAndRest(s);
      vs := Decoded(rest);
      Utf8AllCons(v, vs);
      vs := [v] + vs;
    }
  }

  lemma {:induction false} EncodedIsValid(vs: seq<nat>)
    requires Scalars(vs)
    ensures ValidUtf8(Utf8All(vs))
  {
    if vs != [] {
      EncodedIsValid(vs[1..]);
      Utf8Starts(vs[0], Utf8All(vs[1..]));
      assert (Utf8(vs[0]) + Utf8All(vs[1..]))[|Utf8(vs[0])|..] == Utf8All(vs[1..]);
    }
  }
}
