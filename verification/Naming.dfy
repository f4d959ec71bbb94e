/** Names of Ceph clusters: what they confirm, which variables hold their credentials, and that an
  accepted configuration always makes a catalog. */
module Naming {
  import opened Decimals
  import opened RustText
  import opened Wrappers

  predicate NameChar(c: char) {
    'a' <= c <= 'z' || '0' <= c <= '9' || c == '-'
  }

  /** `valid_cluster` and `valid_ceph_cluster_name`. */
  predicate ValidCluster(name: string) {
    && 1 <= |name| <= 63 && (forall i :: 0 <= i < |name| ==> NameChar(name[i]))
    && name[0] != '-' && name[|name| - 1] != '-'
  }

  // ---------- Confirmations ----------

  datatype Destruction = Destroying | Purging

  function Verb(d: Destruction): string {
    if d.Destroying? then "destroy" else "purge"
  }

  function Confirmation(d: Destruction, cluster: string, osd: nat): string {
    Verb(d) + " osd." + Numeral(osd) + " on " + cluster
  }

  // A weight that is no number or infinite is `NotFinite`.
  datatype Weight = Finite(value: real) | NotFinite

  datatype MarkState = In | Out | Down

  datatype ScrubKind = Normal | Deep

  datatype ExecInput =
    | Mark(cluster: string, osd: nat, state: MarkState)
    | Reweight(cluster: string, osd: nat, weight: Weight)
    | Scrub(cluster: string, osd: nat, kind: ScrubKind)
    | Destroy(cluster: string, osd: nat, confirmation: string)
    | Purge(cluster: string, osd: nat, confirmation: string)

  datatype ExecCommand =
    | MarkOsd(cluster: string, osd: nat, state: MarkState)
    | ReweightOsd(cluster: string, osd: nat, weight: real)
    | ScrubOsd(cluster: string, osd: nat, kind: ScrubKind)
    | DestroyOsd(cluster: string, osd: nat)
    | PurgeOsd(cluster: string, osd: nat)

  /** `ExecInput::validate`. */
  function Validate(input: ExecInput): Option<ExecCommand> {
    if !ValidCluster(input.cluster) then None
    else
      match input
      case Mark(cluster, osd, state) => Some(MarkOsd(cluster, osd, state))
      case Reweight(cluster, osd, weight) =>
        if weight.Finite? && 0.0 <= weight.value <= 1.0 then Some(ReweightOsd(cluster, osd, weight.value)) else None
      case Scrub(cluster, osd, kind) => Some(ScrubOsd(cluster, osd, kind))
      case Destroy(cluster, osd, confirmation) =>
        if confirmation == Confirmation(Destroying, cluster, osd) then Some(DestroyOsd(cluster, osd)) else None
      case Purge(cluster, osd, confirmation) =>
        if confirmation == Confirmation(Purging, cluster, osd) then Some(PurgeOsd(cluster, osd)) else None
  }

  /** Lower-case letters and digits, by their codes. */
  predicate Alphanumeric(c: char) {
    97 <= c as int <= 122 || 48 <= c as int <= 57
  }

  /** A cluster name is at most 63 lower-case letters, digits and inner hyphens. */
  lemma ValidClusterIff(name: string)
    ensures ValidCluster(name) <==>
      && name != "" && |name| < 64 && Alphanumeric(name[0]) && Alphanumeric(name[|name| - 1])
      && (forall i :: 0 <= i < |name| ==> name[i] == '-' || Alphanumeric(name[i]))
  {
  }

  /** Which command each request becomes, over all requests: a destructive one only its own, behind its exact text. */
  lemma ValidateIff(input: ExecInput, c: string, osd: nat)
    ensures Validate(input) == Some(DestroyOsd(c, osd)) <==>
      input == Destroy(c, osd, "destroy" + " osd." + Numeral(osd) + " on " + c) && ValidCluster(c)
    ensures Validate(input) == Some(PurgeOsd(c, osd)) <==>
      input == Purge(c, osd, "purge" + " osd." + Numeral(osd) + " on " + c) && ValidCluster(c)
    ensures forall state :: Validate(input) == Some(MarkOsd(c, osd, state)) <==>
      input == Mark(c, osd, state) && ValidCluster(c)
    ensures forall kind :: Validate(input) == Some(ScrubOsd(c, osd, kind)) <==>
      input == Scrub(c, osd, kind) && ValidCluster(c)
    ensures forall w :: Validate(input) == Some(ReweightOsd(c, osd, w)) <==>
      input == Reweight(c, osd, Finite(w)) && ValidCluster(c) && 0.0 <= w <= 1.0
  {
  }

  /** A confirmation as an administrator types it. */
  lemma ConfirmationText()
    ensures Validate(Destroy("ceph-a", 13, "destroy osd.13 on ceph-a")) == Some(DestroyOsd("ceph-a", 13))
    ensures Validate(Purge("ceph-a", 13, "purge osd.13 on ceph-a")) == Some(PurgeOsd("ceph-a", 13))
    ensures Validate(Destroy("ceph-a", 13, "purge osd.13 on ceph-a")) == None
  {
    assert Numeral(1) == "1" && Numeral(13) == "13";
    assert ValidCluster("ceph-a");
    assert "purge osd.13 on ceph-a"[0] != Confirmation(Destroying, "ceph-a", 13)[0];
  }

  /** Digits end where something else begins. */
  lemma {:induction false} DigitsEnd(a: string, b: string, x: string, y: string)
    requires AllDigits(a) && AllDigits(b) && x != "" && y != "" && !IsDigit(x[0]) && !IsDigit(y[0])
    requires a + x == b + y
    ensures a == b && x == y
  {
    assert (a == "" ==> a + x == x) && (b == "" ==> b + y == y);
    if a == "" || b == "" {
      assert (a + x)[0] == (b + y)[0];
    } else {
      assert (a + x)[0] == a[0] && (b + y)[0] == b[0];
      assert (a + x)[1..] == a[1..] + x && (b + y)[1..] == b[1..] + y;
      DigitsEnd(a[1..], b[1..], x, y);
    }
  }

  lemma TailOfConfirmation(d: Destruction, cluster: string, osd: nat)
    ensures Confirmation(d, cluster, osd) == (Verb(d) + " osd.") + (Numeral(osd) + (" on " + cluster))
  {
  }

  lemma CutBoth(a: string, b: string, x: string, y: string)
    requires a + x == b + y && |a| == |b|
    ensures a == b && x == y
  {
    assert (a + x)[..|a|] == a && (b + y)[..|b|] == b;
    assert (a + x)[|a|..] == x && (b + y)[|b|..] == y;
  }

  /** A confirmation names one action on one OSD of one cluster. */
  lemma ConfirmationIsInjective(d: Destruction, cluster: string, osd: nat, d': Destruction, cluster': string, osd': nat)
    requires Confirmation(d, cluster, osd) == Confirmation(d', cluster', osd')
    ensures d == d' && cluster == cluster' && osd == osd'
  {
    TailOfConfirmation(d, cluster, osd);
    TailOfConfirmation(d', cluster', osd');
    assert Confirmation(d, cluster, osd)[0] == Verb(d)[0] && Confirmation(d', cluster', osd')[0] == Verb(d')[0];
    CutBoth(Verb(d) + " osd.", Verb(d') + " osd.",
            Numeral(osd) + (" on " + cluster), Numeral(osd') + (" on " + cluster'));
    DigitsEnd(Numeral(osd), Numeral(osd'), " on " + cluster, " on " + cluster');
    CutBoth(" on ", " on ", cluster, cluster');
    NumeralIsInjective(osd, osd');
  }

  function DestructionOf(c: ExecCommand): Option<Destruction> {
    if c.DestroyOsd? then Some(Destroying) else if c.PurgeOsd? then Some(Purging) else None
  }

  predicate Destructive(input: ExecInput) {
    input.Destroy? || input.Purge?
  }

  /** Two accepted destructive requests with the same confirmation are the same command, and each
    command is accepted with exactly one confirmation. */
  lemma OneConfirmationOneCommand(a: ExecInput, b: ExecInput)
    requires Destructive(a) && Destructive(b) && Validate(a).Some? && Validate(b).Some?
    ensures a.confirmation == b.confirmation <==> Validate(a) == Validate(b)
    ensures DestructionOf(Validate(a).value).Some?
  {
    if a.confirmation == b.confirmation {
      ConfirmationIsInjective(DestructionOf(Validate(a).value).value, a.cluster, a.osd,
                              DestructionOf(Validate(b).value).value, b.cluster, b.osd);
    }
  }

  // ---------- Credential variables ----------

  datatype Credential = Username | Password

  function EnvironmentChar(c: char): char {
    if c == '-' then '_' else if 'a' <= c <= 'z' then (c as int - 32) as char else c
  }

  function EnvironmentPart(name: string): (s: string)
    ensures |s| == |name| && forall i :: 0 <= i < |name| ==> s[i] == EnvironmentChar(name[i])
  {
    seq(|name|, i requires 0 <= i < |name| => EnvironmentChar(name[i]))
  }

  function Suffix(c: Credential): (s: string)
    ensures |s| == 9
  {
    if c.Username? then "_USERNAME" else "_PASSWORD"
  }

  function Variable(name: string, c: Credential): string {
    "HOMELAB_MCP_CEPH_" + (EnvironmentPart(name) + Suffix(c))
  }

  /** The variables of a cluster as an administrator sets them. */
  lemma VariableText()
    ensures Variable("lab-2a", Username) == "HOMELAB_MCP_CEPH_LAB_2A_USERNAME"
    ensures Variable("lab-2a", Password) == "HOMELAB_MCP_CEPH_LAB_2A_PASSWORD"
  {
    assert EnvironmentPart("lab-2a") == "LAB_2A";
  }

  lemma VariableIsInjective(name: string, c: Credential, name': string, c': Credential)
    requires ValidCluster(name) && ValidCluster(name') && Variable(name, c) == Variable(name', c')
    ensures name == name' && c == c'
  {
    var part, part' := EnvironmentPart(name), EnvironmentPart(name');
    CutBoth("HOMELAB_MCP_CEPH_", "HOMELAB_MCP_CEPH_", part + Suffix(c), part' + Suffix(c'));
    CutBoth(part, part', Suffix(c), Suffix(c'));
    assert Suffix(c)[1] == Suffix(c')[1];
    forall i | 0 <= i < |name|
      ensures name[i] == name'[i]
    {
      assert part[i] == part'[i] && NameChar(name[i]) && NameChar(name'[i]);
    }
  }

  // ---------- `parse_ceph_clusters` ----------

  const MAX_CLUSTERS: nat := 32
  const MAX_CLUSTERS_JSON_BYTES: nat := 65_536
  const MAJOR_RELEASE: nat := 19

  datatype RawCluster = RawCluster(name: string, origin: string, release: nat, usernameEnv: string, passwordEnv: string)

  datatype Cluster = Cluster(name: string, origin: string, username: string, password: string)

  datatype ConfigError = Invalid | Missing(variable: string)

  /** `secure_origin` and the process environment. */
  datatype Surroundings = Surroundings(origin: string -> Option<string>, variable: string -> Option<string>)

  predicate Blank(s: string) {
    forall i :: 0 <= i < |s| ==> IsWhitespace(s[i])
  }

  predicate Given(env: Surroundings, variable: string) {
    env.variable(variable).Some? && !Blank(env.variable(variable).value)
  }

  predicate WellNamed(raw: RawCluster) {
    && ValidCluster(raw.name) && raw.release == MAJOR_RELEASE
    && raw.usernameEnv == Variable(raw.name, Username) && raw.passwordEnv == Variable(raw.name, Password)
  }

  /** One entry, after the entries with the names `seen`. */
  function ParseCluster(env: Surroundings, raw: RawCluster, seen: set<string>): Result<Cluster, ConfigError> {
    var username, password := Variable(raw.name, Username), Variable(raw.name, Password);
    if !WellNamed(raw) || raw.name in seen || env.origin(raw.origin).None? then Err(Invalid)
    else if !Given(env, username) then Err(Missing(username))
    else if !Given(env, password) then Err(Missing(password))
    else Ok(Cluster(raw.name, env.origin(raw.origin).value, env.variable(username).value, env.variable(password).value))
  }

  function ParseFrom(env: Surroundings, raws: seq<RawCluster>, seen: set<string>): Result<seq<Cluster>, ConfigError>
    decreases raws
  {
    if raws == [] then Ok([])
    else
      var first :- ParseCluster(env, raws[0], seen);
      var rest :- ParseFrom(env, raws[1..], seen + {raws[0].name});
      Ok([first] + rest)
  }

  predicate Usable(env: Surroundings, raw: RawCluster) {
    && WellNamed(raw) && env.origin(raw.origin).Some?
    && Given(env, raw.usernameEnv) && Given(env, raw.passwordEnv)
  }

  predicate DistinctNames(raws: seq<RawCluster>) {
    forall i, j :: 0 <= i < j < |raws| ==> raws[i].name != raws[j].name
  }

  /** Each entry is usable and its name is not taken. */
  predicate AllUsable(env: Surroundings, raws: seq<RawCluster>, seen: set<string>) {
    forall i :: 0 <= i < |raws| ==> Usable(env, raws[i]) && raws[i].name !in seen
  }

  /** `parse_ceph_clusters`; `size` is the length of the JSON text and `decoded` what it decodes to. */
  method ParseCephClusters(env: Surroundings, size: nat, decoded: Option<seq<RawCluster>>)
    returns (r: Result<seq<Cluster>, ConfigError>)
    ensures r == if size > 65536 || decoded.None? || |decoded.value| > 32 then Err(Invalid)
                 else ParseFrom(env, decoded.value, {})
  {
    if size > MAX_CLUSTERS_JSON_BYTES || decoded.None? || |decoded.value| > MAX_CLUSTERS {
      return Err(Invalid);
    }
    var raws := decoded.value;
    var names: set<string>, clusters: seq<Cluster> := {}, [];
    assert raws[0..] == raws;
    assert forall rest: seq<Cluster> :: [] + rest == rest;
    for i := 0 to |raws|
      invariant ParseFrom(env, raws, {}) == AfterClusters(clusters, ParseFrom(env, raws[i..], names))
    {
      assert raws[i..][0] == raws[i] && raws[i..][1..] == raws[i + 1..];
      var cluster := ParseCluster(env, raws[i], names);
      if cluster.Err? {
        return Err(cluster.error);
      }
      ghost var rest := ParseFrom(env, raws[i + 1..], names + {raws[i].name});
      assert rest.Ok? ==> clusters + ([cluster.value] + rest.value) == (clusters + [cluster.value]) + rest.value;
      names := names + {raws[i].name};
      clusters := clusters + [cluster.value];
    }
    assert clusters + [] == clusters;
    return Ok(clusters);
  }

  function AfterClusters(done: seq<Cluster>, rest: Result<seq<Cluster>, ConfigError>)
    : Result<seq<Cluster>, ConfigError>
  {
    if rest.Err? then rest else Ok(done + rest.value)
  }

  /** The entries are accepted exactly when each is usable and all names differ. */
  lemma {:induction false} ParseIff(env: Surroundings, raws: seq<RawCluster>, seen: set<string>)
    ensures ParseFrom(env, raws, seen).Ok? <==> AllUsable(env, raws, seen) && DistinctNames(raws)
    decreases raws
  {
    if raws != [] {
      var rest := raws[1..];
      ParseIff(env, rest, seen + {raws[0].name});
      assert forall i :: 0 <= i < |rest| ==> rest[i] == raws[i + 1];
      assert forall i :: 1 <= i < |raws| ==> raws[i] == rest[i - 1];
    }
  }

  /** The clusters are the entries in their order, each with its own origin, user name and password. */
  lemma {:induction false} ParsedClusters(env: Surroundings, raws: seq<RawCluster>, seen: set<string>)
    requires ParseFrom(env, raws, seen).Ok?
    ensures |ParseFrom(env, raws, seen).value| == |raws|
    ensures forall i :: 0 <= i < |raws| ==>
      var cluster := ParseFrom(env, raws, seen).value[i];
      && cluster.name == raws[i].name && raws[i].release == 19
      && env.origin(raws[i].origin) == Some(cluster.origin)
      && env.variable(raws[i].usernameEnv) == Some(cluster.username)
      && env.variable(raws[i].passwordEnv) == Some(cluster.password)
    decreases raws
  {
    if raws != [] {
      ParsedClusters(env, raws[1..], seen + {raws[0].name});
      assert forall i :: 1 <= i < |raws| ==> raws[i] == raws[1..][i - 1];
    }
  }

  /** A refused configuration is refused for its first unusable entry: a missing user name is named before a missing
    password, and everything else wrong with the entry before both. */
  lemma {:induction false} ParseErrors(env: Surroundings, raws: seq<RawCluster>, seen: set<string>) returns (k: nat)
    requires ParseFrom(env, raws, seen).Err?
    ensures k < |raws| && ParseFrom(env, raws[..k], seen).Ok?
    ensures var e, raw := ParseFrom(env, raws, seen).error, raws[k];
            var sound := WellNamed(raw) && raw.name !in seen && raw.name !in Names(raws[..k]) &&
                env.origin(raw.origin).Some?;
            && (e == Invalid <==> !sound)
            && (e.Missing? && !Given(env, raw.usernameEnv) ==> e.variable == raw.usernameEnv)
            && (e.Missing? && Given(env, raw.usernameEnv) ==>
                  e.variable == raw.passwordEnv && !Given(env, raw.passwordEnv))
    decreases raws
  {
    k := 0;
    assert ParseFrom(env, raws[..0], seen) == Ok([]);
    if ParseCluster(env, raws[0], seen).Ok? {
      k := ParseErrors(env, raws[1..], seen + {raws[0].name});
      k := k + 1;
      assert raws[..k][0] == raws[0] && raws[..k][1..] == raws[1..][..k - 1];
      assert Names(raws[..k]) == {raws[0].name} + Names(raws[1..][..k - 1]) by {
        assert raws[..k] == [raws[0]] + raws[1..][..k - 1];
      }
    }
  }

  function Names(raws: seq<RawCluster>): set<string> {
    set raw | raw in raws :: raw.name
  }

  /** No credential variable is read twice by an accepted configuration. */
  lemma VariablesAreDistinct(env: Surroundings, raws: seq<RawCluster>, i: nat, c: Credential, j: nat, d: Credential)
    requires ParseFrom(env, raws, {}).Ok? && i < |raws| && j < |raws|
    requires Variable(raws[i].name, c) == Variable(raws[j].name, d)
    ensures i == j && c == d
  {
    ParseIff(env, raws, {});
    assert Usable(env, raws[i]) && Usable(env, raws[j]);
    VariableIsInjective(raws[i].name, c, raws[j].name, d);
  }

  // ---------- `CephCatalog::new` ----------

  datatype CatalogError = InvalidName | TooMany | Duplicate

  /** The first `i` entries have distinct valid names and are what the map holds. */
  ghost predicate Collected<Client>(clients: map<string, Client>, entries: seq<(string, Client)>, i: nat)
    requires i <= |entries|
  {
    && |clients| == i
    && (forall j :: 0 <= j < i ==>
        ValidCluster(entries[j].0) && entries[j].0 in clients && clients[entries[j].0] == entries[j].1)
    && (forall k :: k in clients ==> exists j :: 0 <= j < i && entries[j].0 == k)
    && (forall j, k :: 0 <= j < k < i ==> entries[j].0 != entries[k].0)
  }

  lemma Collect<Client>(clients: map<string, Client>, entries: seq<(string, Client)>, i: nat)
    requires i < |entries| && Collected(clients, entries, i)
    requires ValidCluster(entries[i].0) && entries[i].0 !in clients
    ensures Collected(clients[entries[i].0 := entries[i].1], entries, i + 1)
  {
    assert forall k :: k in clients ==> k != entries[i].0;
  }

  /** Entries that are all added. */
  predicate Sound<Client>(entries: seq<(string, Client)>) {
    |entries| <= 32 && (forall i :: 0 <= i < |entries| ==> ValidCluster(entries[i].0)) && DistinctKeys(entries)
  }

  /** What is wrong with the first entry that is not added. */
  function Objection<Client>(entries: seq<(string, Client)>, i: nat): CatalogError
    requires i < |entries|
  {
    if !ValidCluster(entries[i].0) then InvalidName else if i == 32 then TooMany else Duplicate
  }

  method NewCatalog<Client>(entries: seq<(string, Client)>) returns (r: Result<map<string, Client>, CatalogError>)
    ensures r.Ok? <==> Sound(entries)
    ensures r.Ok? ==> forall i :: 0 <= i < |entries| ==>
        entries[i].0 in r.value && r.value[entries[i].0] == entries[i].1
    ensures r.Ok? ==> |r.value| == |entries|
    ensures r.Err? ==> exists i :: 0 <= i < |entries| && Sound(entries[..i]) && r.error == Objection(entries, i)
  {
    var clients: map<string, Client> := map[];
    for i := 0 to |entries|
      invariant i <= MAX_CLUSTERS && Collected(clients, entries, i)
    {
      assert Sound(entries[..i]);
      var name, client := entries[i].0, entries[i].1;
      if !ValidCluster(name) {
        return Err(InvalidName);
      }
      if |clients| >= MAX_CLUSTERS {
        return Err(TooMany);
      }
      if name in clients {
        return Err(Duplicate);
      }
      Collect(clients, entries, i);
      clients := clients[name := client];
    }
    return Ok(clients);
  }

  predicate DistinctKeys<Client>(entries: seq<(string, Client)>) {
    forall i, j :: 0 <= i < j < |entries| ==> entries[i].0 != entries[j].0
  }

  /** The configured clusters, each with its client. */
  function Entries<Client>(clusters: seq<Cluster>, connect: Cluster -> Client): seq<(string, Client)> {
    seq(|clusters|, i requires 0 <= i < |clusters| => (clusters[i].name, connect(clusters[i])))
  }

  /** Every accepted configuration passes the catalog's own checks. */
  lemma AcceptedConfigurationsMakeACatalog<Client>(env: Surroundings, raws: seq<RawCluster>, connect: Cluster -> Client)
    requires |raws| <= 32 && ParseFrom(env, raws, {}).Ok?
    ensures var entries := Entries(ParseFrom(env, raws, {}).value, connect);
            |entries| <= 32 && (forall i :: 0 <= i < |entries| ==> ValidCluster(entries[i].0)) && DistinctKeys(entries)
  {
    ParseIff(env, raws, {});
    ParsedClusters(env, raws, {});
    var entries := Entries(ParseFrom(env, raws, {}).value, connect);
    forall i | 0 <= i < |raws|
      ensures entries[i].0 == raws[i].name && ValidCluster(entries[i].0)
    {
      assert Usable(env, raws[i]);
    }
  }
}
