/** Resource URIs: the links that listings offer and the way back from a URI to its route, identity,
  input and filter. Texts are byte strings with one character per byte. */
module ResourceLinks {
  import opened Json
  import opened Wrappers
  import opened ByteText

  // ---------- Percent-encoding (sections 2.1 and 2.3 of RFC 3986) ----------

  predicate IsAlphanumeric(c: char) {
    'a' <= c <= 'z' || 'A' <= c <= 'Z' || '0' <= c <= '9'
  }

  predicate Unreserved(c: char) {
    IsAlphanumeric(c) || c == '-' || c == '.' || c == '_' || c == '~'
  }

  function HexDigit(n: nat): char
    requires n < 16
  {
    if n < 10 then (48 + n) as char else (55 + n) as char
  }

  function HexValue(c: char): Option<nat> {
    if '0' <= c <= '9' then Some(c as int - 48)
    else if 'A' <= c <= 'F' then Some(c as int - 55)
    else if 'a' <= c <= 'f' then Some(c as int - 87)
    else None
  }

  function EncodeChar(c: char): (s: string)
    requires c as int < 256
  {
    if Unreserved(c) then [c] else ['%', HexDigit(c as int / 16), HexDigit(c as int % 16)]
  }

  function Encode(s: string): string
    requires IsBytes(s)
  {
    if s == "" then "" else EncodeChar(s[0]) + Encode(s[1..])
  }

  predicate EscapeAt(s: string) {
    |s| >= 3 && s[0] == '%' && HexValue(s[1]).Some? && HexValue(s[2]).Some?
  }

  /** A `%` that does not start an escape stands for itself. */
  function Decode(s: string): string {
    if s == "" then ""
    else if EscapeAt(s) then [(16 * HexValue(s[1]).value + HexValue(s[2]).value) as char] + Decode(s[3..])
    else [s[0]] + Decode(s[1..])
  }

  lemma EscapeOfByte(c: char, rest: string)
    requires c as int < 256
    ensures Decode(EncodeChar(c) + rest) == [c] + Decode(rest)
  {
    var e := EncodeChar(c) + rest;
    if Unreserved(c) {
      assert e[1..] == rest;
    } else {
      assert HexValue(HexDigit(c as int / 16)) == Some(c as int / 16);
      assert HexValue(HexDigit(c as int % 16)) == Some(c as int % 16);
      assert e[3..] == rest;
    }
  }

  /** Decoding undoes encoding, for all byte strings. */
  lemma {:induction false} DecodeEncode(s: string)
    requires IsBytes(s)
    ensures Decode(Encode(s)) == s
  {
    if s != "" {
      DecodeEncode(s[1..]);
      EscapeOfByte(s[0], Encode(s[1..]));
    }
  }

  predicate UriSafe(s: string) {
    forall i :: 0 <= i < |s| ==> Unreserved(s[i]) || s[i] == '%'
  }

  lemma {:induction false} EncodedShape(s: string)
    requires IsBytes(s)
    ensures UriSafe(Encode(s)) && |s| <= |Encode(s)| <= 3 * |s|
  {
    if s != "" {
      EncodedShape(s[1..]);
    }
  }

  // ---------- Query parameters ----------

  /** How values become text (invalid UTF-8 is replaced) and JSON. */
  datatype Codec = Codec(text: string -> string, json: string -> Option<Value>)

  datatype Pair = Pair(key: string, value: string)

  /** The first position of a character, or the length. */
  function IndexOf(s: string, c: char): (i: nat)
    ensures i <= |s| && c !in s[..i] && (i < |s| ==> s[i] == c)
  {
    if s == "" || s[0] == c then 0
    else
      var i := IndexOf(s[1..], c);
      assert s[..i + 1] == [s[0]] + s[1..][..i];
      i + 1
  }

  function After(s: string, i: nat): string {
    if i < |s| then s[i + 1..] else ""
  }

  function PlusToSpace(s: string): string {
    if s == "" then "" else [if s[0] == '+' then ' ' else s[0]] + PlusToSpace(s[1..])
  }

  function FormText(codec: Codec, s: string): string {
    codec.text(Decode(PlusToSpace(s)))
  }

  /** `form_urlencoded::parse`: empty parts between `&` are skipped. */
  function Pairs(codec: Codec, query: string): seq<Pair>
    decreases |query|
  {
    if query == "" then []
    else
      var end := IndexOf(query, '&');
      var part := query[..end];
      var rest := Pairs(codec, After(query, end));
      if part == "" then rest
      else
        var i := IndexOf(part, '=');
        [Pair(FormText(codec, part[..i]), FormText(codec, After(part, i)))] + rest
  }

  datatype Error = TooLong | NotFound | InvalidJson | NotAnObject | UnknownOrDuplicate | InvalidIdentity

  datatype Parameters = Parameters(input: Option<Value>, filter: Option<string>)

  /** One step of the loop over the parameters. */
  function Accept(codec: Codec, p: Parameters, pair: Pair): Result<Parameters, Error> {
    if pair.key == "input" && p.input.None? then
      match codec.json(pair.value)
      case None => Err(InvalidJson)
      case Some(v) => if v.Object? then Ok(p.(input := Some(v))) else Err(NotAnObject)
    else if pair.key == "filter" && p.filter.None? then Ok(p.(filter := Some(pair.value)))
    else Err(UnknownOrDuplicate)
  }

  function AcceptAll(codec: Codec, p: Parameters, pairs: seq<Pair>): Result<Parameters, Error>
    decreases pairs
  {
    if pairs == [] then Ok(p)
    else
      var next :- Accept(codec, p, pairs[0]);
      AcceptAll(codec, next, pairs[1..])
  }

  predicate KeysOnce(pairs: seq<Pair>) {
    forall i, j :: 0 <= i < j < |pairs| ==> pairs[i].key != pairs[j].key
  }

  predicate Acceptable(codec: Codec, pair: Pair) {
    || pair.key == "filter"
    || (pair.key == "input" && codec.json(pair.value).Some? && codec.json(pair.value).value.Object?)
  }

  predicate Fits(codec: Codec, p: Parameters, pairs: seq<Pair>) {
    && KeysOnce(pairs)
    && forall i :: 0 <= i < |pairs| ==>
         && Acceptable(codec, pairs[i])
         && (pairs[i].key == "input" ==> p.input.None?)
         && (pairs[i].key == "filter" ==> p.filter.None?)
  }

  /** The parameters are taken exactly when each is known, well-formed and given once; then each
    parameter has the value of its pair. */
  lemma {:induction false} AcceptAllIff(codec: Codec, p: Parameters, pairs: seq<Pair>)
    ensures AcceptAll(codec, p, pairs).Ok? <==> Fits(codec, p, pairs)
    ensures AcceptAll(codec, p, pairs).Ok? ==> forall i :: 0 <= i < |pairs| ==>
              var q := AcceptAll(codec, p, pairs).value;
              if pairs[i].key == "input" then q.input == codec.json(pairs[i].value)
              else q.filter == Some(pairs[i].value)
    ensures AcceptAll(codec, p, pairs).Ok? ==>
              var q := AcceptAll(codec, p, pairs).value;
              && ((forall i :: 0 <= i < |pairs| ==> pairs[i].key != "input") ==> q.input == p.input)
              && ((forall i :: 0 <= i < |pairs| ==> pairs[i].key != "filter") ==> q.filter == p.filter)
              && (p.input.Some? ==> q.input == p.input) && (p.filter.Some? ==> q.filter == p.filter)
    decreases pairs
  {
    if pairs != [] {
      var rest := pairs[1..];
      assert forall i :: 0 <= i < |rest| ==> rest[i] == pairs[i + 1];
      var next := Accept(codec, p, pairs[0]);
      if next.Ok? {
        AcceptAllIff(codec, next.value, rest);
        forall i | 1 <= i < |pairs| ensures pairs[i] == rest[i - 1] {
        }
      }
    }
  }

  // ---------- `parse_uri` ----------

  const MAX_URI_BYTES: nat := 8192
  const SCHEME: string := "homelab://"

  datatype Parsed = Parsed(route: string, input: Value, filter: Option<string>)

  function Completed(route: string, p: Parameters): Parsed {
    Parsed(route, if p.input.Some? then p.input.value else Object(map[]), p.filter)
  }

  lemma {:induction false} ParsedInputIsObject(codec: Codec, p: Parameters, pairs: seq<Pair>)
    requires p.input.Some? ==> p.input.value.Object?
    ensures var r := AcceptAll(codec, p, pairs); r.Ok? && r.value.input.Some? ==> r.value.input.value.Object?
    decreases pairs
  {
    if pairs != [] && Accept(codec, p, pairs[0]).Ok? {
      ParsedInputIsObject(codec, Accept(codec, p, pairs[0]).value, pairs[1..]);
    }
  }

  function ParseUriSpec(codec: Codec, uri: string): (r: Result<Parsed, Error>)
    ensures r.Ok? ==> r.value.input.Object?
  {
    if |uri| > MAX_URI_BYTES then Err(TooLong)
    else if !(SCHEME <= uri) || '#' in uri then Err(NotFound)
    else
      var rest := uri[|SCHEME|..];
      var i := IndexOf(rest, '?');
      ParsedInputIsObject(codec, Parameters(None, None), Pairs(codec, After(rest, i)));
      var p :- AcceptAll(codec, Parameters(None, None), Pairs(codec, After(rest, i)));
      Ok(Completed(rest[..i], p))
  }

  method ParseUri(codec: Codec, uri: string) returns (r: Result<Parsed, Error>)
    ensures r == ParseUriSpec(codec, uri)
  {
    if |uri| > MAX_URI_BYTES {
      return Err(TooLong);
    }
    if !(SCHEME <= uri) || '#' in uri {
      return Err(NotFound);
    }
    var rest := uri[|SCHEME|..];
    var at := IndexOf(rest, '?');
    var route, pairs := rest[..at], Pairs(codec, After(rest, at));
    var input: Option<Value>, filter: Option<string> := None, None;
    assert pairs[0..] == pairs;
    for i := 0 to |pairs|
      invariant AcceptAll(codec, Parameters(None, None), pairs) ==
          AcceptAll(codec, Parameters(input, filter), pairs[i..])
    {
      assert pairs[i..][0] == pairs[i] && pairs[i..][1..] == pairs[i + 1..];
      if pairs[i].key == "input" && input.None? {
        var value := codec.json(pairs[i].value);
        if value.None? {
          return Err(InvalidJson);
        }
        if !value.value.Object? {
          return Err(NotAnObject);
        }
        input := value;
      } else if pairs[i].key == "filter" && filter.None? {
        filter := Some(pairs[i].value);
      } else {
        return Err(UnknownOrDuplicate);
      }
    }
    return Ok(Parsed(route, if input.Some? then input.value else Object(map[]), filter));
  }

  // ---------- Identities ----------

  datatype Kind = Dashboard | Capabilities

  const DASHBOARDS: string := "grafana/dashboards/"
  const CAPABILITIES: string := "kubernetes/capabilities/"

  function RoutePrefix(kind: Kind): string {
    if kind.Dashboard? then DASHBOARDS else CAPABILITIES
  }

  function IdentityKey(kind: Kind): string {
    if kind.Dashboard? then "uid" else "cluster"
  }

  /** `bind`: the last segment becomes a field of the input. */
  function Bind(input: Value, key: string, encoded: string): Result<Value, Error>
    requires input.Object?
  {
    var decoded := Decode(encoded);
    if !ValidUtf8(decoded) || decoded == "" || '/' in decoded || key in input.fields then Err(InvalidIdentity)
    else Ok(Object(input.fields[key := Text(decoded)]))
  }

  predicate IsCollection(route: string) {
    || route == "kubernetes/clusters" || route == "ceph/clusters" || route == "grafana/dashboards"
    || route == "grafana/alert-rules" || route == "grafana/recording-rules" || route == "tekton/repositories"
    || route == "tekton/workflows" || route == "machines" || route == "deploys"
  }

  /** What `read_resource` reads: a listing or one item. */
  datatype Target =
    | Listing(route: string, input: Value, filter: Option<string>)
    | Item(kind: Kind, input: Value, filter: Option<string>)

  function BindItem(p: Parsed, kind: Kind): Result<Target, Error>
    requires p.input.Object? && RoutePrefix(kind) <= p.route
  {
    var input :- Bind(p.input, IdentityKey(kind), p.route[|RoutePrefix(kind)|..]);
    Ok(Item(kind, input, p.filter))
  }

  function Dispatch(p: Parsed): Result<Target, Error>
    requires p.input.Object?
  {
    if IsCollection(p.route) then Ok(Listing(p.route, p.input, p.filter))
    else if CAPABILITIES <= p.route then BindItem(p, Capabilities)
    else if DASHBOARDS <= p.route then BindItem(p, Dashboard)
    else Err(NotFound)
  }

  function Resolve(codec: Codec, uri: string): Result<Target, Error> {
    var parsed :- ParseUriSpec(codec, uri);
    Dispatch(parsed)
  }

  // ---------- Links ----------

  /** The link `enrich_collection` writes. */
  function Link(kind: Kind, identity: string): string
    requires IsBytes(identity)
  {
    SCHEME + RoutePrefix(kind) + Encode(identity)
  }

  lemma {:induction false} NoSplit(s: string, c: char)
    requires c !in s
    ensures IndexOf(s, c) == |s|
  {
    if s != "" {
      assert c !in s[1..];
      NoSplit(s[1..], c);
    }
  }

  lemma ParseWithoutQuery(codec: Codec, route: string)
    requires '#' !in route && '?' !in route && |SCHEME + route| <= MAX_URI_BYTES
    ensures ParseUriSpec(codec, SCHEME + route) == Ok(Parsed(route, Object(map[]), None))
  {
    var uri := SCHEME + route;
    assert '#' !in SCHEME;
    assert uri[|SCHEME|..] == route;
    NoSplit(route, '?');
    assert route[..|route|] == route;
    assert Pairs(codec, After(route, |route|)) == [];
  }

  lemma LinkIsPlain(kind: Kind, identity: string, c: char)
    requires IsBytes(identity) && (c == '#' || c == '?')
    ensures c !in RoutePrefix(kind) + Encode(identity)
  {
    EncodedShape(identity);
    assert c !in Encode(identity) && c !in DASHBOARDS && c !in CAPABILITIES;
  }

  lemma JoinedText(a: string, b: string, c: string)
    ensures a + b + c == a + (b + c)
  {
  }

  lemma LinkParses(codec: Codec, kind: Kind, identity: string)
    requires IsBytes(identity) && |Link(kind, identity)| <= MAX_URI_BYTES
    ensures ParseUriSpec(codec, Link(kind, identity)) ==
        Ok(Parsed(RoutePrefix(kind) + Encode(identity), Object(map[]), None))
  {
    var route := RoutePrefix(kind) + Encode(identity);
    LinkIsPlain(kind, identity, '#');
    LinkIsPlain(kind, identity, '?');
    JoinedText(SCHEME, RoutePrefix(kind), Encode(identity));
    ParseWithoutQuery(codec, route);
  }

  lemma PrefixedIsNoCollection(kind: Kind, rest: string)
    ensures !IsCollection(RoutePrefix(kind) + rest)
    ensures kind.Dashboard? ==> !(CAPABILITIES <= RoutePrefix(kind) + rest)
  {
    var route := RoutePrefix(kind) + rest;
    assert |route| >= |RoutePrefix(kind)|;
    if kind.Dashboard? {
      assert route[0] == 'g' && route[8] == 'd';
    } else {
      assert route[0] == 'k' && route[11] == 'c' && route[12] == 'a';
    }
  }

  lemma LinkBinds(codec: Codec, kind: Kind, identity: string)
    requires IsBytes(identity) && |Link(kind, identity)| <= MAX_URI_BYTES
    ensures Resolve(codec, Link(kind, identity))
            == BindItem(Parsed(RoutePrefix(kind) + Encode(identity), Object(map[]), None), kind)
  {
    LinkParses(codec, kind, identity);
    PrefixedIsNoCollection(kind, Encode(identity));
  }

  lemma BindsItself(kind: Kind, identity: string)
    requires IsBytes(identity)
    ensures BindItem(Parsed(RoutePrefix(kind) + Encode(identity), Object(map[]), None), kind)
            == if identity != "" && ValidUtf8(identity) && '/' !in identity
               then Ok(Item(kind, Object(map[IdentityKey(kind) := Text(identity)]), None))
               else Err(InvalidIdentity)
  {
    var route := RoutePrefix(kind) + Encode(identity);
    assert route[|RoutePrefix(kind)|..] == Encode(identity);
    DecodeEncode(identity);
    assert map[][IdentityKey(kind) := Text(identity)] == map[IdentityKey(kind) := Text(identity)];
  }

  /** A link leads back to its identity, with no further input and no filter, exactly when the identity
    is a nonempty text without a slash and the link is short enough; otherwise it is refused. */
  lemma LinkResolvesIff(codec: Codec, kind: Kind, identity: string)
    requires IsBytes(identity)
    ensures Resolve(codec, Link(kind, identity)) ==
        Ok(Item(kind, Object(map[IdentityKey(kind) := Text(identity)]), None))
       <==> identity != "" && ValidUtf8(identity) && '/' !in identity && |Link(kind, identity)| <= 8192
    ensures Resolve(codec, Link(kind, identity)).Ok?
       <==> identity != "" && ValidUtf8(identity) && '/' !in identity && |Link(kind, identity)| <= 8192
  {
    if |Link(kind, identity)| <= MAX_URI_BYTES {
      LinkBinds(codec, kind, identity);
      BindsItself(kind, identity);
    }
  }

  // ---------- `enrich_collection` ----------

  /** `valid_dashboard_uid` and `valid_catalog_name`. */
  predicate ValidIdentity(kind: Kind, identity: string) {
    && identity != "" && |identity| <= (if kind.Dashboard? then 40 else 253)
    && (forall i :: 0 <= i < |identity| ==>
        IsAlphanumeric(identity[i]) || identity[i] == '_' || identity[i] == '.' || identity[i] == '-')
    && (if kind.Dashboard? then identity[0] != '.' else identity[0] != '-')
  }

  function SourceKey(kind: Kind): string {
    if kind.Dashboard? then "uid" else "name"
  }

  function LinkKey(kind: Kind): string {
    if kind.Dashboard? then "resource_uri" else "capabilities_uri"
  }

  function Identity(kind: Kind, item: Value): Option<string> {
    var field :- Get(item, SourceKey(kind));
    AsText(field)
  }

  function EnrichItem(kind: Kind, item: Value): Value {
    var identity := Identity(kind, item);
    if identity.Some? && ValidIdentity(kind, identity.value) then
      assert forall i :: 0 <= i < |identity.value| ==> identity.value[i] as int < 256;
      Object(item.fields[LinkKey(kind) := Text(Link(kind, identity.value))])
    else item
  }

  function EnrichedItems(kind: Kind, items: seq<Value>): seq<Value> {
    seq(|items|, i requires 0 <= i < |items| => EnrichItem(kind, items[i]))
  }

  /** The listings that have items to link, and where their items are. */
  function LinkedKind(route: string): Option<Kind> {
    if route == "grafana/dashboards" then Some(Dashboard)
    else if route == "kubernetes/clusters" then Some(Capabilities)
    else None
  }

  function ItemsOf(kind: Kind, listing: Value): Option<seq<Value>> {
    var items :- if kind.Dashboard? then Get(listing, "result") else GetWithin(listing, "result", "clusters");
    if items.Array? then Some(items.items) else None
  }

  /** The listing with other items. */
  function WithItems(kind: Kind, listing: Value, items: seq<Value>): Value
    requires ItemsOf(kind, listing).Some?
  {
    var result := listing.fields["result"];
    var changed := if kind.Dashboard? then Array(items) else Object(result.fields["clusters" := Array(items)]);
    Object(listing.fields["result" := changed])
  }

  /** What `enrich_collection` leaves: each item of a linked listing enriched, any other value as it was. */
  predicate Enriched(route: string, before: Value, after: Value) {
    var kind := LinkedKind(route);
    if kind.None? || ItemsOf(kind.value, before).None? then after == before
    else after == WithItems(kind.value, before, EnrichedItems(kind.value, ItemsOf(kind.value, before).value))
  }

  /** The result of reading a resource. */
  class Output {
    var value: Value

    constructor (value: Value)
      ensures this.value == value
    {
      this.value := value;
    }

    method EnrichCollection(route: string)
      modifies this
      ensures Enriched(route, old(value), value)
    {
      var kind := LinkedKind(route);
      if kind.None? {
        return;
      }
      var found := ItemsOf(kind.value, value);
      if found.None? {
        return;
      }
      var items := found.value;
      for i := 0 to |items|
        invariant |items| == |found.value|
        invariant forall j :: 0 <= j < |items| ==>
            items[j] == if j < i then EnrichItem(kind.value, found.value[j]) else found.value[j]
      {
        items := items[i := EnrichItem(kind.value, items[i])];
      }
      assert items == EnrichedItems(kind.value, found.value);
      value := WithItems(kind.value, value, items);
    }
  }

  /** Enriching a linked listing keeps the number and order of its items and everything around them. */
  lemma OnlyItemsChange(route: string, before: Value, after: Value, key: string)
    requires Enriched(route, before, after)
    ensures key != "result" ==> Get(after, key) == Get(before, key)
    ensures LinkedKind(route).None? ==> after == before
    ensures LinkedKind(route).Some? ==>
              var kind := LinkedKind(route).value;
              && (ItemsOf(kind, after).Some? <==> ItemsOf(kind, before).Some?)
              && (ItemsOf(kind, before).Some? ==>
                  ItemsOf(kind, after).value == EnrichedItems(kind, ItemsOf(kind, before).value))
              && (kind.Capabilities? && key != "clusters" ==>
                  GetWithin(after, "result", key) == GetWithin(before, "result", key))
  {
  }

  /** Enriching changes no other field, and every link it writes leads back to the item's identity. */
  lemma EnrichedLinksResolve(codec: Codec, kind: Kind, item: Value)
    ensures var after, identity := EnrichItem(kind, item), Identity(kind, item);
            if identity.Some? && ValidIdentity(kind, identity.value) then
              && after.Object? && Get(after, LinkKey(kind)).Some? && Get(after, LinkKey(kind)).value.Text?
              && Resolve(codec, Get(after, LinkKey(kind)).value.text)
                 == Ok(Item(kind, Object(map[IdentityKey(kind) := Text(identity.value)]), None))
              && (forall k :: k != LinkKey(kind) ==> Get(after, k) == Get(item, k))
            else after == item
  {
    var identity := Identity(kind, item);
    if identity.Some? && ValidIdentity(kind, identity.value) {
      assert forall i :: 0 <= i < |identity.value| ==> identity.value[i] as int < 0x80;
      AsciiIsUtf8(identity.value);
      EncodedShape(identity.value);
      LinkResolvesIff(codec, kind, identity.value);
    }
  }
}
