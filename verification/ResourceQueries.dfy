/** Resource URIs with parameters: what a client writes into a query is what the server reads. */
module ResourceQueries {
  import opened ByteText
  import opened Json
  import opened ResourceLinks
  import opened Wrappers

  // ---------- Characters ----------

  const UPPER: string := "0123456789ABCDEF"
  const LOWER: string := "0123456789abcdef"

  /** Hexadecimal digits are read in both cases and written in upper case. */
  lemma HexIff(c: char, n: nat)
    ensures HexValue(c) == Some(n) <==> n < 16 && (c == UPPER[n] || c == LOWER[n])
    ensures n < 16 ==> HexDigit(n) == UPPER[n]
  {
  }

  /** Only letters, digits and four marks stand for themselves; every other byte is written as its two digits. */
  lemma EncodeCharIs(c: char)
    requires c as int < 256
    ensures var n := c as int;
            var plain := 48 <= n <= 57 || 65 <= n <= 90 || 97 <= n <= 122 || n == 45 || n == 46 || n == 95 || n == 126;
            EncodeChar(c) == if plain then [c] else ['%', UPPER[n / 16], UPPER[n % 16]]
  {
    HexIff(c, c as int / 16);
    HexIff(c, c as int % 16);
  }

  /** Text without a percent sign stands for itself. */
  lemma {:induction false} DecodePlain(s: string)
    requires '%' !in s
    ensures Decode(s) == s
  {
    if s != "" {
      DecodePlain(s[1..]);
    }
  }

  /** A percent sign stands for itself unless two hexadecimal digits follow. */
  lemma StrayPercent(s: string)
    ensures Decode("%" + s) ==
        if |s| >= 2 && HexValue(s[0]).Some? && HexValue(s[1]).Some?
        then [(16 * HexValue(s[0]).value + HexValue(s[1]).value) as char] + Decode(s[2..])
        else "%" + Decode(s)
  {
    assert ("%" + s)[1..] == s;
    if |s| >= 2 {
      assert ("%" + s)[3..] == s[2..];
    }
  }

  /** The identities that are linked, by the codes of their characters. */
  lemma ValidIdentityIff(kind: Kind, identity: string)
    ensures ValidIdentity(kind, identity) <==>
      && identity != ""
      && (if kind.Dashboard? then |identity| <= 40 && identity[0] != '.' else |identity| <= 253 && identity[0] != '-')
      && (forall i :: 0 <= i < |identity| ==>
            var n := identity[i] as int;
            48 <= n <= 57 || 65 <= n <= 90 || 97 <= n <= 122 || n == 95 || n == 46 || n == 45)
  {
  }

  // ---------- Writing a query ----------

  /** A parameter as a client writes it. */
  function Written(p: Pair): string
    requires IsBytes(p.key) && IsBytes(p.value)
  {
    Encode(p.key) + "=" + Encode(p.value)
  }

  predicate Writable(pairs: seq<Pair>) {
    forall i :: 0 <= i < |pairs| ==> IsBytes(pairs[i].key) && IsBytes(pairs[i].value)
  }

  function Query(pairs: seq<Pair>): string
    requires Writable(pairs)
  {
    if pairs == [] then ""
    else if |pairs| == 1 then Written(pairs[0])
    else Written(pairs[0]) + "&" + Query(pairs[1..])
  }

  /** The parameters as the server's text type holds them. */
  function Read(codec: Codec, pairs: seq<Pair>): seq<Pair> {
    seq(|pairs|, i requires 0 <= i < |pairs| => Pair(codec.text(pairs[i].key), codec.text(pairs[i].value)))
  }

  lemma {:induction false} SafeIsSpaceless(s: string)
    requires UriSafe(s)
    ensures PlusToSpace(s) == s && '&' !in s && '=' !in s && '#' !in s && '?' !in s
  {
    if s != "" {
      assert Unreserved(s[0]) || s[0] == '%';
      SafeIsSpaceless(s[1..]);
      assert s == [s[0]] + s[1..];
    }
  }

  lemma EncodedIsSpaceless(s: string)
    requires IsBytes(s)
    ensures PlusToSpace(Encode(s)) == Encode(s)
    ensures '&' !in Encode(s) && '=' !in Encode(s) && '#' !in Encode(s) && '?' !in Encode(s)
  {
    EncodedShape(s);
    SafeIsSpaceless(Encode(s));
  }

  lemma {:induction false} IndexBefore(a: string, c: char, b: string)
    requires c !in a
    ensures IndexOf(a + [c] + b, c) == |a|
    ensures (a + [c] + b)[..|a|] == a && After(a + [c] + b, |a|) == b
  {
    var s := a + [c] + b;
    if a != "" {
      assert s[1..] == a[1..] + [c] + b;
      IndexBefore(a[1..], c, b);
    }
  }

  /** One parameter is cut at its equals sign and decoded. */
  lemma WrittenIsRead(codec: Codec, p: Pair)
    requires IsBytes(p.key) && IsBytes(p.value)
    ensures var part := Written(p); var i := IndexOf(part, '=');
            && part != "" && '&' !in part && i <= |part|
            && FormText(codec, part[..i]) == codec.text(p.key)
            && FormText(codec, After(part, i)) == codec.text(p.value)
  {
    var part := Written(p);
    EncodedIsSpaceless(p.key);
    EncodedIsSpaceless(p.value);
    IndexBefore(Encode(p.key), '=', Encode(p.value));
    DecodeEncode(p.key);
    DecodeEncode(p.value);
  }

  lemma FirstIsRead(codec: Codec, p: Pair, rest: string)
    requires IsBytes(p.key) && IsBytes(p.value)
    ensures Pairs(codec, Written(p) + "&" + rest)
         == [Pair(codec.text(p.key), codec.text(p.value))] + Pairs(codec, rest)
    ensures Pairs(codec, Written(p)) == [Pair(codec.text(p.key), codec.text(p.value))]
  {
    var part := Written(p);
    WrittenIsRead(codec, p);
    IndexBefore(part, '&', rest);
    NoSplit(part, '&');
    assert part[..|part|] == part && Pairs(codec, After(part, |part|)) == [];
  }

  lemma ReadCons(codec: Codec, pairs: seq<Pair>)
    requires pairs != []
    ensures Read(codec, pairs) == [Pair(codec.text(pairs[0].key), codec.text(pairs[0].value))] + Read(codec, pairs[1..])
  {
  }

  /** The server reads from a query the parameters that were written into it, in order, each key with its value. */
  lemma {:induction false} QueryIsRead(codec: Codec, pairs: seq<Pair>)
    requires Writable(pairs)
    ensures Pairs(codec, Query(pairs)) == Read(codec, pairs)
    decreases |pairs|
  {
    if pairs != [] {
      var rest := pairs[1..];
      ReadCons(codec, pairs);
      FirstIsRead(codec, pairs[0], if rest == [] then "" else Query(rest));
      if rest == [] {
        assert Query(pairs) == Written(pairs[0]) && Read(codec, rest) == [];
      } else {
        assert Query(pairs) == Written(pairs[0]) + "&" + Query(rest);
        QueryIsRead(codec, rest);
      }
    }
  }

  // ---------- Reading a resource with parameters ----------

  lemma {:induction false} QueryIsPlain(pairs: seq<Pair>)
    requires Writable(pairs)
    ensures '#' !in Query(pairs)
    decreases |pairs|
  {
    if pairs != [] {
      EncodedIsSpaceless(pairs[0].key);
      EncodedIsSpaceless(pairs[0].value);
      if |pairs| > 1 {
        QueryIsPlain(pairs[1..]);
      }
    }
  }

  function Uri(route: string, pairs: seq<Pair>): string
    requires Writable(pairs)
  {
    SCHEME + route + "?" + Query(pairs)
  }

  lemma UriParts(route: string, query: string)
    requires '#' !in route && '?' !in route && '#' !in query
    ensures var uri := SCHEME + route + "?" + query; var rest := uri[|SCHEME|..];
            && SCHEME <= uri && '#' !in uri && rest == route + "?" + query
            && IndexOf(rest, '?') == |route| && rest[..|route|] == route && After(rest, |route|) == query
  {
    assert '#' !in SCHEME;
    assert SCHEME + route + "?" + query == SCHEME + (route + "?" + query);
    IndexBefore(route, '?', query);
  }

  /** A URI with parameters is parsed into its route and exactly these parameters. */
  lemma UriIsParsed(codec: Codec, route: string, pairs: seq<Pair>)
    requires Writable(pairs) && '#' !in route && '?' !in route && |Uri(route, pairs)| <= 8192
    ensures ParseUriSpec(codec, Uri(route, pairs)) ==
        match AcceptAll(codec, Parameters(None, None), Read(codec, pairs))
        case Ok(p) => Ok(Completed(route, p))
        case Err(e) => Err(e)
  {
    QueryIsPlain(pairs);
    QueryIsRead(codec, pairs);
    UriParts(route, Query(pairs));
  }

  /** The text type keeps the given text. */
  predicate Keeps(codec: Codec, s: string) {
    codec.text(s) == s
  }

  /** Both parameters of a resource, in the order a client may write them. */
  function Both(input: string, filter: string): seq<Pair> {
    [Pair("input", input), Pair("filter", filter)]
  }

  lemma BothAreAccepted(codec: Codec, input: string, filter: string, value: Value)
    requires Keeps(codec, "input") && Keeps(codec, "filter") && Keeps(codec, input) && Keeps(codec, filter)
    requires codec.json(input) == Some(value) && value.Object?
    ensures AcceptAll(codec, Parameters(None, None), Read(codec, Both(input, filter)))
         == Ok(Parameters(Some(value), Some(filter)))
  {
    var pairs := Read(codec, Both(input, filter));
    assert pairs == Both(input, filter);
    assert "input"[0] != "filter"[0];
    assert Accept(codec, Parameters(None, None), pairs[0]) == Ok(Parameters(Some(value), None));
    assert Accept(codec, Parameters(Some(value), None), pairs[1]) == Ok(Parameters(Some(value), Some(filter)));
    var p := Parameters(Some(value), Some(filter));
    assert AcceptAll(codec, p, pairs[1..][1..]) == Ok(p);
    assert AcceptAll(codec, Parameters(Some(value), None), pairs[1..]) == Ok(p);
  }

  lemma BothAreParsed(codec: Codec, route: string, input: string, filter: string, value: Value)
    requires '#' !in route && '?' !in route && IsBytes(input) && IsBytes(filter)
    requires Keeps(codec, "input") && Keeps(codec, "filter") && Keeps(codec, input) && Keeps(codec, filter)
    requires codec.json(input) == Some(value) && value.Object?
    requires |Uri(route, Both(input, filter))| <= 8192
    ensures Resolve(codec, Uri(route, Both(input, filter))) == Dispatch(Parsed(route, value, Some(filter)))
  {
    UriIsParsed(codec, route, Both(input, filter));
    BothAreAccepted(codec, input, filter, value);
  }

  /** A listing is read with exactly the input and the filter that the client wrote. */
  lemma ListingIsRead(codec: Codec, route: string, input: string, filter: string, value: Value)
    requires IsCollection(route) && IsBytes(input) && IsBytes(filter)
    requires Keeps(codec, "input") && Keeps(codec, "filter") && Keeps(codec, input) && Keeps(codec, filter)
    requires codec.json(input) == Some(value) && value.Object?
    requires |Uri(route, Both(input, filter))| <= 8192
    ensures Resolve(codec, Uri(route, Both(input, filter))) == Ok(Listing(route, value, Some(filter)))
  {
    CollectionsArePlain(route);
    BothAreParsed(codec, route, input, filter, value);
  }

  lemma CollectionsArePlain(route: string)
    requires IsCollection(route)
    ensures '#' !in route && '?' !in route
  {
    if |route| < 16 {
      ShortCollectionsArePlain(route);
    }
  }

  lemma ShortCollectionsArePlain(route: string)
    requires IsCollection(route) && |route| < 16
    ensures '#' !in route && '?' !in route
  {
  }

  /** An item is read with the client's input and its own identity added to it, unless the client gave that already. */
  lemma ItemIsRead(codec: Codec, kind: Kind, identity: string, input: string, filter: string, value: Value)
    requires IsBytes(identity) && IsBytes(input) && IsBytes(filter)
    requires Keeps(codec, "input") && Keeps(codec, "filter") && Keeps(codec, input) && Keeps(codec, filter)
    requires codec.json(input) == Some(value) && value.Object?
    requires |Uri(RoutePrefix(kind) + Encode(identity), Both(input, filter))| <= 8192
    ensures Resolve(codec, Uri(RoutePrefix(kind) + Encode(identity), Both(input, filter))) ==
        if identity != "" && ValidUtf8(identity) && '/' !in identity && IdentityKey(kind) !in value.fields
        then Ok(Item(kind, Object(value.fields[IdentityKey(kind) := Text(identity)]), Some(filter)))
        else Err(InvalidIdentity)
  {
    var route := RoutePrefix(kind) + Encode(identity);
    LinkIsPlain(kind, identity, '#');
    LinkIsPlain(kind, identity, '?');
    BothAreParsed(codec, route, input, filter, value);
    ItemIsBound(kind, identity, value, filter);
  }

  lemma ItemIsBound(kind: Kind, identity: string, value: Value, filter: string)
    requires IsBytes(identity) && value.Object?
    ensures Dispatch(Parsed(RoutePrefix(kind) + Encode(identity), value, Some(filter))) ==
        if identity != "" && ValidUtf8(identity) && '/' !in identity && IdentityKey(kind) !in value.fields
        then Ok(Item(kind, Object(value.fields[IdentityKey(kind) := Text(identity)]), Some(filter)))
        else Err(InvalidIdentity)
  {
    var route := RoutePrefix(kind) + Encode(identity);
    PrefixedIsNoCollection(kind, Encode(identity));
    assert route[|RoutePrefix(kind)|..] == Encode(identity);
    DecodeEncode(identity);
  }

  /** Without parameters a listing is read whole: no input and no filter. */
  lemma BareListingIsRead(codec: Codec, route: string)
    requires IsCollection(route)
    ensures Resolve(codec, SCHEME + route) == Ok(Listing(route, Object(map[]), None))
  {
    CollectionsArePlain(route);
    ParseWithoutQuery(codec, route);
  }

  /** The resources that are read as listings. */
  const COLLECTIONS: seq<string> := [
    "kubernetes/clusters", "ceph/clusters", "grafana/dashboards", "grafana/alert-rules", "grafana/recording-rules",
    "tekton/repositories", "tekton/workflows", "machines", "deploys"]

  lemma CollectionsAreRead(codec: Codec, i: nat)
    requires i < |COLLECTIONS|
    ensures Resolve(codec, SCHEME + COLLECTIONS[i]) == Ok(Listing(COLLECTIONS[i], Object(map[]), None))
  {
    assert IsCollection(COLLECTIONS[i]);
    BareListingIsRead(codec, COLLECTIONS[i]);
  }

  // ---------- Links as they are written ----------

  lemma {:induction false} EncodePlain(s: string)
    requires forall i :: 0 <= i < |s| ==> Unreserved(s[i])
    ensures IsBytes(s) && Encode(s) == s
  {
    if s != "" {
      EncodePlain(s[1..]);
    }
  }

  /** A dashboard with a valid uid gets its link under `resource_uri`. */
  lemma DashboardLink(item: Value, uid: string)
    requires Get(item, "uid") == Some(Text(uid)) && ValidIdentity(Dashboard, uid)
    ensures Get(EnrichItem(Dashboard, item), "resource_uri") == Some(Text("homelab://" + "grafana/dashboards/" + uid))
  {
    EncodePlain(uid);
  }

  /** A cluster with a valid name gets the link to its capabilities under `capabilities_uri`. */
  lemma CapabilitiesLink(item: Value, name: string)
    requires Get(item, "name") == Some(Text(name)) && ValidIdentity(Capabilities, name)
    ensures Get(EnrichItem(Capabilities, item), "capabilities_uri") ==
        Some(Text("homelab://" + "kubernetes/capabilities/" + name))
  {
    EncodePlain(name);
  }

  /** The two listings with links: dashboards as the result itself, clusters as the list within it. */
  lemma LinkedListings(listing: Value, after: Value, items: seq<Value>)
    ensures Get(listing, "result") == Some(Array(items)) && Enriched("grafana/dashboards", listing, after) ==>
            Get(after, "result") == Some(Array(EnrichedItems(Dashboard, items)))
    ensures GetWithin(listing, "result", "clusters") == Some(Array(items)) &&
            Enriched("kubernetes/clusters", listing, after) ==>
            GetWithin(after, "result", "clusters") == Some(Array(EnrichedItems(Capabilities, items)))
  {
    assert "grafana/dashboards"[0] != "kubernetes/clusters"[0];
  }
}
