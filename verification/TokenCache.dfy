/** The cache file of the SSH helper's OpenBao token. */
module TokenCache {
  import opened Json
  import opened RustText
  import opened Wrappers

  const MAX_CACHE_BYTES: nat := 65_536
  const MAX_TOKEN_BYTES: nat := 16_384

  /** Python's `str.isspace` on one character. */
  predicate IsSpace(c: char) {
    IsWhitespace(c) || 0x1C <= c as int <= 0x1F
  }

  /** The white space of Python: that of Unicode and four separators. */
  lemma SpaceIs(c: char)
    ensures IsSpace(c) <==>
      var n := c as int;
      n in [9, 10, 11, 12, 13, 28, 29, 30, 31, 32, 133, 160, 5760, 8232, 8233, 8239, 8287, 12288] || 8192 <= n <= 8202
  {
    WhitespaceIs(c);
  }

  predicate Acceptable(token: string) {
    token != "" && ByteLength(token) <= MAX_TOKEN_BYTES && forall i :: 0 <= i < |token| ==> !IsSpace(token[i])
  }

  // ---------- The stored document ----------

  /** Bytes a character takes in a JSON string written in ASCII. */
  function EscapedSize(c: char): nat {
    if c in "\"\\\U{8}\U{9}\U{A}\U{C}\U{D}" then 2
    else if c as int < 0x20 || 0x7F <= c as int < 0x10000 then 6
    else if c as int >= 0x10000 then 12
    else 1
  }

  function EscapedLength(s: string): nat {
    if s == "" then 0 else EscapedSize(s[0]) + EscapedLength(s[1..])
  }

  // An empty record is {"schema":1,"origin":"","token":""}.
  function RecordSize(origin: string, token: string): nat {
    35 + EscapedLength(origin) + EscapedLength(token)
  }

  // ---------- The text of the document ----------

  function HexDigit(n: nat): char
    requires n < 16
  {
    "0123456789abcdef"[n]
  }

  function Escape(unit: nat): string
    requires unit < 0x10000
  {
    "\\u" +
    [HexDigit(unit / 0x1000), HexDigit(unit / 0x100 % 0x10), HexDigit(unit / 0x10 % 0x10), HexDigit(unit % 0x10)]
  }

  /** One character in a JSON string written in ASCII: as it is, by its short escape, or by its UTF-16 units. */
  function EscapedChar(c: char): string {
    var n := c as int;
    if c == '"' then "\\\"" else if c == '\\' then "\\\\"
    else if n == 0x8 then "\\b" else if n == 0x9 then "\\t" else if n == 0xA then "\\n"
    else if n == 0xC then "\\f" else if n == 0xD then "\\r"
    else if 0x20 <= n <= 0x7E then [c]
    else if n < 0x10000 then Escape(n)
    else Escape(0xD800 + (n - 0x10000) / 0x400) + Escape(0xDC00 + (n - 0x10000) % 0x400)
  }

  function Escaped(s: string): string {
    if s == "" then "" else EscapedChar(s[0]) + Escaped(s[1..])
  }

  /** What `json.dumps` makes of a record. */
  function DocumentText(origin: string, token: string): string {
    "{\"schema\":1,\"origin\":\"" + Escaped(origin) + "\",\"token\":\"" + Escaped(token) + "\"}"
  }

  lemma {:induction false} EscapedLengthIsLength(s: string)
    ensures |Escaped(s)| == EscapedLength(s)
  {
    if s != "" {
      EscapedLengthIsLength(s[1..]);
    }
  }

  /** The size that is checked against the limit is that of the text that is written. */
  lemma RecordSizeIsLength(origin: string, token: string)
    ensures |DocumentText(origin, token)| == RecordSize(origin, token)
  {
    EscapedLengthIsLength(origin);
    EscapedLengthIsLength(token);
  }

  function Document(origin: string, token: string): Value {
    Object(map["schema" := Number(1), "origin" := Text(origin), "token" := Text(token)])
  }

  /** `Unsafe` is a directory or file whose kind, owner or mode is refused; the content of a regular
    file is the JSON value it decodes to, if any. */
  datatype File = Absent | Unsafe | Regular(size: nat, content: Option<Value>)

  datatype Record = Record(origin: string, token: string)

  function ReadRecord(file: File): Option<Record> {
    if !file.Regular? || file.size > MAX_CACHE_BYTES || file.content.None? || !file.content.value.Object? then None
    else
      var fields := file.content.value.fields;
      if fields.Keys != {"schema", "origin", "token"} then None
      else if fields["schema"] != Number(1) || !fields["origin"].Text? || !fields["token"].Text? then None
      else if !Acceptable(fields["token"].text) then None
      else Some(Record(fields["origin"].text, fields["token"].text))
  }

  predicate Storable(origin: string, token: string) {
    Acceptable(token) && RecordSize(origin, token) <= MAX_CACHE_BYTES
  }

  /** A token is stored if it is one word of at most 16 kibibytes and its document fits into 64. */
  lemma StorableIff(origin: string, token: string)
    ensures Storable(origin, token) <==>
      && token != "" && ByteLength(token) <= 16384 && (forall c :: c in token ==> !IsSpace(c))
      && |DocumentText(origin, token)| <= 65536
  {
    RecordSizeIsLength(origin, token);
    assert forall i :: 0 <= i < |token| ==> token[i] in token;
  }

  function Written(origin: string, token: string): File {
    Regular(RecordSize(origin, token), Some(Document(origin, token)))
  }

  /** What is written reads back exactly when it was allowed to be written. */
  lemma WrittenReadsBack(origin: string, token: string)
    ensures ReadRecord(Written(origin, token)) == if Storable(origin, token) then Some(Record(origin, token)) else None
  {
    assert Document(origin, token).fields.Keys == {"schema", "origin", "token"};
  }

  /** Only the document of a record reads as that record. */
  lemma ReadIsWritten(file: File, r: Record)
    ensures ReadRecord(file) == Some(r) <==>
            && file.Regular? && file.size <= MAX_CACHE_BYTES && Acceptable(r.token)
            && file.content == Some(Document(r.origin, r.token))
  {
    assert Document(r.origin, r.token).fields.Keys == {"schema", "origin", "token"};
    if ReadRecord(file) == Some(r) {
      assert file.content.value.fields == Document(r.origin, r.token).fields;
    }
  }

  /** A token of printable ASCII always fits if its origin is at most 256 such characters. */
  lemma PrintableTokensFit(origin: string, token: string)
    requires forall i :: 0 <= i < |origin| ==> ' ' <= origin[i] < '\U{7F}'
    requires forall i :: 0 <= i < |token| ==> ' ' < token[i] < '\U{7F}'
    requires |origin| <= 256 && 0 < |token| <= MAX_TOKEN_BYTES
    ensures Storable(origin, token)
  {
    EscapesAtMostDouble(origin);
    EscapesAtMostDouble(token);
    AsciiByteLength(token);
  }

  lemma {:induction false} EscapesAtMostDouble(s: string)
    requires forall i :: 0 <= i < |s| ==> ' ' <= s[i] < '\U{7F}'
    ensures EscapedLength(s) <= 2 * |s|
  {
    if s != "" {
      EscapesAtMostDouble(s[1..]);
    }
  }

  // ---------- One-cell store ----------

  datatype Load = Found(token: string) | Nothing | LoadRaised
  datatype Save = Stored | StoredThenRaised | NotStored

  /** The token the file holds for an origin. */
  function Held(file: File, origin: string): Option<string> {
    match ReadRecord(file)
    case Some(r) => if r.origin == origin then Some(r.token) else None
    case None => None
  }

  /** The file after a load with the given result; `None` if there is no such result. A readable
    record of another origin is removed like a malformed one. */
  function AfterLoad(file: File, origin: string, r: Load): Option<File> {
    if r.LoadRaised? then (if file.Absent? then None else Some(file))
    else if file.Unsafe? then None
    else if r.Found? then (if Held(file, origin) == Some(r.token) then Some(file) else None)
    else if Held(file, origin).None? then Some(Absent)
    else None
  }

  /** Clearing raises only if there is something that cannot be removed. */
  function AfterClear(file: File, ok: bool): Option<File> {
    if ok then (if file.Unsafe? then None else Some(Absent))
    else if file.Absent? then None
    else Some(file)
  }

  function AfterSave(file: File, origin: string, token: string, r: Save): Option<File> {
    if r.NotStored? then Some(file)
    else if Storable(origin, token) && !file.Unsafe? then Some(Written(origin, token))
    else None
  }

  /** A load after a save gives the token back, to its own origin only, until a clear. */
  lemma SaveThenLoad(file: File, origin: string, token: string, other: string, r: Save, l: Load)
    requires !r.NotStored? && AfterSave(file, origin, token, r).Some?
    requires AfterLoad(AfterSave(file, origin, token, r).value, other, l).Some? && !l.LoadRaised?
    ensures l == if other == origin then Found(token) else Nothing
    ensures AfterLoad(AfterSave(file, origin, token, r).value, other, l).value
            == if other == origin then Written(origin, token) else Absent
  {
    WrittenReadsBack(origin, token);
  }

  /** A load raises on an unsafe file, when the file cannot be read, or when a useless record cannot be removed. */
  predicate LoadRaises(file: File, origin: string, readable: bool, removable: bool) {
    file.Unsafe? || (!file.Absent? && (!readable || (Held(file, origin).None? && !removable)))
  }

  function LoadOf(file: File, origin: string, readable: bool, removable: bool): Load {
    if LoadRaises(file, origin, readable, removable) then LoadRaised
    else if Held(file, origin).Some? then Found(Held(file, origin).value)
    else Nothing
  }

  predicate ClearWorks(file: File, removable: bool) {
    file.Absent? || (!file.Unsafe? && removable)
  }

  /** How a save ends; a new file that could not be made durable stays, although the save raises. */
  function SaveOf(file: File, origin: string, token: string, replaced: bool, synced: bool): Save {
    if !Storable(origin, token) || file.Unsafe? || !replaced then NotStored
    else if synced then Stored
    else StoredThenRaised
  }

  // The parameters of the methods say which calls of the operating system succeed.
  class Cache {
    var file: File

    constructor (file: File)
      ensures this.file == file
    {
      this.file := file;
    }

    method Read(origin: string, readable: bool, removable: bool) returns (r: Load)
      modifies this
      ensures AfterLoad(old(file), origin, r) == Some(file)
      ensures r == LoadOf(old(file), origin, readable, removable)
    {
      if file.Unsafe? {
        return LoadRaised;
      }
      if file.Absent? {
        return Nothing;
      }
      if !readable {
        return LoadRaised;
      }
      var record := ReadRecord(file);
      if record.None? || record.value.origin != origin {
        var cleared := Clear(removable);
        return if cleared then Nothing else LoadRaised;
      }
      return Found(record.value.token);
    }

    method Write(origin: string, token: string, replaced: bool, synced: bool) returns (r: Save)
      modifies this
      ensures AfterSave(old(file), origin, token, r) == Some(file)
      ensures r == SaveOf(old(file), origin, token, replaced, synced)
    {
      if !Storable(origin, token) || file.Unsafe? {
        return NotStored;
      }
      if !replaced {
        return NotStored;
      }
      file := Written(origin, token);
      return if synced then Stored else StoredThenRaised;
    }

    method Clear(removable: bool) returns (ok: bool)
      modifies this
      ensures AfterClear(old(file), ok) == Some(file)
      ensures ok <==> ClearWorks(old(file), removable)
    {
      if file.Unsafe? {
        return false;
      }
      if file.Absent? {
        return true;
      }
      if removable {
        file := Absent;
      }
      return removable;
    }
  }
}
