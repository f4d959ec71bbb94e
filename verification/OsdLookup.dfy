/** Looking up one OSD: its detail, then its inventory entry page by page. */
module OsdLookup {
  import opened Bounds
  import opened Wrappers
  import opened Json
  import opened CephReplies
  import RustText

  const PAGE_SIZE: nat := 100
  const MAX_PAGES: nat := 5

  /** An inventory entry is searched by its `id` field alone. */
  predicate HasId(v: Value, osd: nat) {
    Get(v, "id").Some? && AsU64(Get(v, "id").value) == Some(osd)
  }

  /** The first entry with the id. */
  function FirstWithId(entries: seq<Value>, osd: nat): Option<Value> {
    if entries == [] then None
    else if HasId(entries[0], osd) then Some(entries[0])
    else FirstWithId(entries[1..], osd)
  }

  // ---------- The normalised record ----------

  datatype Record = Record(id: nat, detail: Value, inventory: Value)

  /** `normalize::osd_id`: the `id` field, or else the `osd` field. */
  function OsdId(v: Value): Option<nat> {
    var field :- if Get(v, "id").Some? then Get(v, "id") else Get(v, "osd");
    AsU64(field)
  }

  function OsdMap(detail: Value): Value {
    if Get(detail, "osd_map").Some? then Get(detail, "osd_map").value else detail
  }

  predicate Presentable(detail: Value, inventory: Value) {
    && BoundedTexts(Get(OsdMap(detail), "state"), 16, 128)
    && BoundedText(GetWithin(inventory, "tree", "device_class"), 128)
    && BoundedText(GetWithin(detail, "osd_metadata", "default_device_class"), 128)
    && BoundedText(GetWithin(detail, "osd_metadata", "hostname"), 256)
    && BoundedText(Get(detail, "operational_status"), 128)
  }

  /** `normalize::osd`: the detail and the inventory entry must name the same OSD. */
  function Normalise(detail: Value, inventory: Value): Result<Record, Error> {
    match OsdId(OsdMap(detail))
    case None => Err(InvalidResponse)
    case Some(id) =>
      if OsdId(inventory) == Some(id) && Presentable(detail, inventory) then Ok(Record(id, detail, inventory))
      else Err(InvalidResponse)
  }

  /** The object names this OSD, by `id` or, only without one, by `osd`. */
  predicate Names(v: Value, osd: nat) {
    && v.Object? && osd < U64_LIMIT
    && (if "id" in v.fields then v.fields["id"] == Number(osd) else "osd" in v.fields && v.fields["osd"] == Number(osd))
  }

  predicate ModestWithin(v: Value, outer: string, key: string, limit: nat) {
    v.Object? && outer in v.fields ==> Modest(v.fields[outer], key, limit)
  }

  predicate ModestState(v: Value) {
    v.Object? && "state" in v.fields ==>
      && v.fields["state"].Array? && |v.fields["state"].items| <= 16
      && forall i :: 0 <= i < |v.fields["state"].items| ==>
           var item := v.fields["state"].items[i];
           item.Text? && RustText.ByteLength(item.text) <= 128 && Clean(item.text)
  }

  predicate ModestRecord(detail: Value, shown: Value, inventory: Value) {
    && ModestState(shown)
    && ModestWithin(inventory, "tree", "device_class", 128)
    && ModestWithin(detail, "osd_metadata", "default_device_class", 128)
    && ModestWithin(detail, "osd_metadata", "hostname", 256)
    && Modest(detail, "operational_status", 128)
  }

  lemma WithinIff(v: Value, outer: string, key: string, limit: nat)
    ensures BoundedText(GetWithin(v, outer, key), limit) <==> ModestWithin(v, outer, key, limit)
  {
    if Get(v, outer).Some? {
      BoundedTextIff(Get(v, outer).value, key, limit);
    }
  }

  lemma StateIff(v: Value)
    ensures BoundedTexts(Get(v, "state"), 16, 128) <==> ModestState(v)
  {
    CleanIff();
  }

  lemma PresentableIff(detail: Value, inventory: Value)
    ensures Presentable(detail, inventory) <==> ModestRecord(detail, OsdMap(detail), inventory)
  {
    StateIff(OsdMap(detail));
    WithinIff(inventory, "tree", "device_class", 128);
    WithinIff(detail, "osd_metadata", "default_device_class", 128);
    WithinIff(detail, "osd_metadata", "hostname", 256);
    BoundedTextIff(detail, "operational_status", 128);
  }

  lemma NamesIff(v: Value, osd: nat)
    ensures OsdId(v) == Some(osd) <==> Names(v, osd)
  {
  }

  /** A detail and an inventory entry make a record exactly when both name the same OSD and every text shown is short
    and clean; otherwise the response is invalid. */
  lemma NormaliseIff(detail: Value, inventory: Value, osd: nat)
    ensures var shown := if detail.Object? && "osd_map" in detail.fields then detail.fields["osd_map"] else detail;
            Normalise(detail, inventory) == Ok(Record(osd, detail, inventory)) <==>
              Names(shown, osd) && Names(inventory, osd) && ModestRecord(detail, shown, inventory)
    ensures match Normalise(detail, inventory)
            case Ok(r) => r.detail == detail && r.inventory == inventory
            case Err(e) => e == InvalidResponse
  {
    NamesIff(OsdMap(detail), osd);
    NamesIff(inventory, osd);
    PresentableIff(detail, inventory);
  }

  // ---------- Paging ----------

  type Page = Result<Value, Error>

  /** The entry found by asking for pages in order until one is short. */
  function Scan(pages: seq<Page>, osd: nat): Result<Option<Value>, Error> {
    if pages == [] then Ok(None)
    else if pages[0].Err? then Err(pages[0].error)
    else if !pages[0].value.Array? || |pages[0].value.items| > PAGE_SIZE then Err(InvalidResponse)
    else
      var entries := pages[0].value.items;
      if FirstWithId(entries, osd).Some? then Ok(FirstWithId(entries, osd))
      else if |entries| < PAGE_SIZE then Ok(None)
      else Scan(pages[1..], osd)
  }

  function Lookup(detail: Page, pages: seq<Page>, osd: nat): Result<Record, Error> {
    if detail.Err? then Err(detail.error)
    else
      match Scan(pages, osd)
      case Err(e) => Err(e)
      case Ok(None) => Err(InvalidResponse)
      case Ok(Some(entry)) => Normalise(detail.value, entry)
  }

  /** `CephClient::osd`; `pages[k]` is the reply to the request for offset `100 * k`. */
  method FetchOsd(detail: Page, pages: seq<Page>, osd: nat) returns (r: Result<Record, Error>)
    requires |pages| == MAX_PAGES
    ensures r == Lookup(detail, pages, osd)
  {
    if detail.Err? {
      return Err(detail.error);
    }
    var inventory: Option<Value> := None;
    var more := true;
    var page := 0;
    assert pages[0..] == pages;
    while page < MAX_PAGES && more
      invariant 0 <= page <= MAX_PAGES
      invariant inventory.Some? ==> !more
      invariant Scan(pages, osd) == if more then Scan(pages[page..], osd) else Ok(inventory)
      decreases MAX_PAGES - page
    {
      assert pages[page..][0] == pages[page] && pages[page..][1..] == pages[page + 1..];
      if pages[page].Err? {
        return Err(pages[page].error);
      }
      if !pages[page].value.Array? || |pages[page].value.items| > PAGE_SIZE {
        return Err(InvalidResponse);
      }
      var values := pages[page].value.items;
      var found := FindById(values, osd);
      if found.Some? {
        inventory, more := found, false;
      } else if |values| < PAGE_SIZE {
        more := false;
      }
      page := page + 1;
    }
    if inventory.None? {
      return Err(InvalidResponse);
    }
    return Normalise(detail.value, inventory.value);
  }

  method FindById(values: seq<Value>, osd: nat) returns (r: Option<Value>)
    ensures r == FirstWithId(values, osd)
  {
    assert values[0..] == values;
    for i := 0 to |values|
      invariant FirstWithId(values, osd) == FirstWithId(values[i..], osd)
    {
      assert values[i..][1..] == values[i + 1..];
      if HasId(values[i], osd) {
        return Some(values[i]);
      }
    }
    return None;
  }

  // ---------- Against a whole inventory ----------

  /** The page a server that holds `inventory` returns for an offset. */
  function PageOf(inventory: seq<Value>, k: nat): Page {
    var low := Smaller(PAGE_SIZE * k, |inventory|);
    Ok(Array(inventory[low..Smaller(low + PAGE_SIZE, |inventory|)]))
  }

  function Served(inventory: seq<Value>): (pages: seq<Page>)
    ensures |pages| == MAX_PAGES
  {
    seq(MAX_PAGES, k requires k >= 0 => PageOf(inventory, k))
  }

  lemma {:induction false} FirstAcross(a: seq<Value>, b: seq<Value>, osd: nat)
    ensures FirstWithId(a + b, osd) == if FirstWithId(a, osd).Some? then FirstWithId(a, osd) else FirstWithId(b, osd)
  {
    if a == [] {
      assert a + b == b;
    } else {
      assert (a + b)[1..] == a[1..] + b;
      FirstAcross(a[1..], b, osd);
    }
  }

  lemma {:induction false} ScanFrom(inventory: seq<Value>, k: nat, osd: nat)
    requires k <= MAX_PAGES
    ensures var end := Smaller(PAGE_SIZE * MAX_PAGES, |inventory|);
            Scan(Served(inventory)[k..], osd) == Ok(FirstWithId(inventory[Smaller(PAGE_SIZE * k, end)..end], osd))
    decreases MAX_PAGES - k
  {
    var end := Smaller(PAGE_SIZE * MAX_PAGES, |inventory|);
    var low := Smaller(PAGE_SIZE * k, end);
    if k < MAX_PAGES {
      var pages := Served(inventory)[k..];
      var high := Smaller(low + PAGE_SIZE, end);
      assert pages[0] == Ok(Array(inventory[low..high]));
      assert pages[1..] == Served(inventory)[k + 1..];
      assert inventory[low..end] == inventory[low..high] + inventory[high..end];
      FirstAcross(inventory[low..high], inventory[high..end], osd);
      ScanFrom(inventory, k + 1, osd);
    }
  }

  /** Over a consistently served inventory the paged lookup is a linear search of its first 500 entries. */
  lemma PagedIsLinear(detail: Page, inventory: seq<Value>, osd: nat)
    ensures var first := FirstWithId(inventory[..Smaller(500, |inventory|)], osd);
            Lookup(detail, Served(inventory), osd)
            == if detail.Err? then Err(detail.error)
               else if first.None? then Err(InvalidResponse)
               else Normalise(detail.value, first.value)
  {
    ScanFrom(inventory, 0, osd);
    assert Served(inventory)[0..] == Served(inventory);
  }

  lemma {:induction false} FirstHasId(entries: seq<Value>, osd: nat)
    ensures match FirstWithId(entries, osd)
            case Some(v) => v in entries && HasId(v, osd)
            case None => forall v :: v in entries ==> !HasId(v, osd)
  {
    if entries != [] {
      FirstHasId(entries[1..], osd);
    }
  }

  lemma {:induction false} ScannedHasId(pages: seq<Page>, osd: nat)
    requires Scan(pages, osd).Ok? && Scan(pages, osd).value.Some?
    ensures HasId(Scan(pages, osd).value.value, osd)
  {
    FirstHasId(pages[0].value.items, osd);
    if FirstWithId(pages[0].value.items, osd).None? {
      ScannedHasId(pages[1..], osd);
    }
  }

  /** However the pages came about, a record carries the requested id, and so do its detail and
    its inventory entry, although only these two are compared with each other. */
  lemma RecordIsTheRequestedOne(detail: Page, pages: seq<Page>, osd: nat)
    requires Lookup(detail, pages, osd).Ok?
    ensures var record := Lookup(detail, pages, osd).value;
            && record.id == osd
            && OsdId(OsdMap(record.detail)) == Some(osd) && HasId(record.inventory, osd)
            && detail == Ok(record.detail)
  {
    ScannedHasId(pages, osd);
  }
}
