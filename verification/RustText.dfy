/** Strings as the Rust standard library measures and classifies them. */
module RustText {
  import ByteText


  /** Bytes of a character in UTF-8. */
  function CharSize(c: char): nat {
    if c as int < 0x80 then 1 else if c as int < 0x800 then 2 else if c as int < 0x10000 then 3 else 4
  }

  /** `str::len`. */
  function ByteLength(s: string): nat {
    if s == "" then 0 else CharSize(s[0]) + ByteLength(s[1..])
  }

  /** The Unicode `White_Space` property. */
  predicate IsWhitespace(c: char) {
    var n := c as int;
    0x09 <= n <= 0x0D || n in {0x20, 0x85, 0xA0, 0x1680, 0x2028, 0x2029, 0x202F, 0x205F, 0x3000} ||
        0x2000 <= n <= 0x200A
  }

  /** `char::is_control`. */
  predicate IsControl(c: char) {
    c as int < 0x20 || 0x7F <= c as int <= 0x9F
  }

  predicate HasControl(s: string) {
    exists i :: 0 <= i < |s| && IsControl(s[i])
  }

  lemma {:induction false} AsciiByteLength(s: string)
    requires forall i :: 0 <= i < |s| ==> s[i] as int < 0x80
    ensures ByteLength(s) == |s|
  {
    if s != "" {
      AsciiByteLength(s[1..]);
    }
  }

  lemma {:induction false} ByteLengthAtLeast(s: string)
    ensures |s| <= ByteLength(s)
  {
    if s != "" {
      ByteLengthAtLeast(s[1..]);
    }
  }

  /** The code points of a text. */
  function Codes(s: string): seq<nat> {
    seq(|s|, i requires 0 <= i < |s| => s[i] as nat)
  }

  /** `str::len` counts the bytes of the text's UTF-8. */
  lemma {:induction false} ByteLengthIsUtf8(s: string)
    ensures ByteText.Scalars(Codes(s)) && ByteLength(s) == |ByteText.Utf8All(Codes(s))|
  {
    if s != "" {
      ByteLengthIsUtf8(s[1..]);
      assert Codes(s)[1..] == Codes(s[1..]);
    }
  }

  /** The white space of Unicode, by its code points. */
  lemma WhitespaceIs(c: char)
    ensures IsWhitespace(c) <==>
      var n := c as int;
      n in [9, 10, 11, 12, 13, 32, 133, 160, 5760, 8232, 8233, 8239, 8287, 12288] || 8192 <= n <= 8202
  {
  }
}
