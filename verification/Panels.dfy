/** Flattening a dashboard's nested panels into one bounded list. */
module Panels {
  import opened Wrappers
  import opened Json
  import opened RustText
  import Decimals

  const MAX_PANELS: nat := 500
  const MAX_DEPTH: nat := 64

  datatype Entry = Entry(id: string, title: string, kind: string)

  predicate PanelIdChar(c: char) {
    'a' <= c <= 'z' || 'A' <= c <= 'Z' || '0' <= c <= '9' || c == '_' || c == '.' || c == '-'
  }

  predicate ValidPanelId(id: string) {
    1 <= |id| <= 64 && forall i :: 0 <= i < |id| ==> PanelIdChar(id[i])
  }

  /** A panel's id: a valid text, or a number printed in decimal. */
  function PanelId(panel: Value): Option<string> {
    var field :- Get(panel, "id");
    var id :- if field.Text? then Some(field.text)
              else if AsU64(field).Some? then Some(Decimals.Numeral(AsU64(field).value))
              else None;
    if ValidPanelId(id) then Some(id) else None
  }

  /** The summary of a panel without its children. */
  function Summary(panel: Value): Option<Entry> {
    var id :- PanelId(panel);
    var titleField :- Get(panel, "title");
    var title :- AsText(titleField);
    var kindField :- Get(panel, "type");
    var kind :- AsText(kindField);
    if ByteLength(title) <= 512 && kind != "" && ByteLength(kind) <= 128 then Some(Entry(id, title, kind)) else None
  }

  /** Letters, digits, underscore, dot and hyphen, by their codes. */
  predicate PlainIdentifier(id: string) {
    && 1 <= |id| < 65
    && forall i :: 0 <= i < |id| ==>
         var n := id[i] as int; 97 <= n <= 122 || 65 <= n <= 90 || 48 <= n <= 57 || n == 95 || n == 46 || n == 45
  }

  /** A panel is summarised exactly when its three fields are well formed, each in its own place: the id a plain
    identifier or an unsigned number of 64 bits printed in decimal, the title at most 512 bytes, the type 1 to 128. */
  lemma SummaryIff(panel: Value, e: Entry)
    ensures Summary(panel) == Some(e) <==>
      && panel.Object? && "id" in panel.fields && "title" in panel.fields && "type" in panel.fields
      && (|| panel.fields["id"] == Text(e.id)
          || (exists n: nat :: n < U64_LIMIT && panel.fields["id"] == Number(n) && e.id == Decimals.Numeral(n)))
      && PlainIdentifier(e.id)
      && panel.fields["title"] == Text(e.title) && ByteLength(e.title) <= 512
      && panel.fields["type"] == Text(e.kind) && e.kind != "" && ByteLength(e.kind) <= 128
  {
    assert ValidPanelId(e.id) <==> PlainIdentifier(e.id);
  }

  // ---------- The traversal ----------

  /** Whether it succeeded, and what it pushed so far. */
  datatype Flat = Flat(ok: bool, output: seq<Entry>)

  function Flatten(panels: seq<Value>, output: seq<Entry>, depth: nat): Flat
    decreases panels, 1
  {
    if depth > MAX_DEPTH then Flat(false, output) else FlattenEach(panels, output, depth)
  }

  function FlattenEach(panels: seq<Value>, output: seq<Entry>, depth: nat): Flat
    decreases panels, 0
  {
    if panels == [] then Flat(true, output)
    else
      var first := FlattenOne(panels[0], output, depth);
      if first.ok then FlattenEach(panels[1..], first.output, depth) else first
  }

  function FlattenOne(panel: Value, output: seq<Entry>, depth: nat): Flat
    decreases panel, 2
  {
    if |output| >= MAX_PANELS || Summary(panel).None? then Flat(false, output)
    else
      var pushed := output + [Summary(panel).value];
      if "panels" !in panel.fields then Flat(true, pushed)
      else if !panel.fields["panels"].Array? then Flat(false, pushed)
      else Flatten(panel.fields["panels"].items, pushed, depth + 1)
  }

  /** The shared output vector. */
  class PanelList {
    var items: seq<Entry>

    constructor ()
      ensures items == []
    {
      items := [];
    }

    method Push(entry: Entry)
      modifies this
      ensures items == old(items) + [entry]
    {
      items := items + [entry];
    }
  }

  /** `flatten_panels`: pushes onto the shared output while it walks down. */
  method FlattenPanels(panels: seq<Value>, output: PanelList, depth: nat) returns (ok: bool)
    modifies output
    ensures Flat(ok, output.items) == Flatten(panels, old(output.items), depth)
    decreases panels
  {
    if depth > MAX_DEPTH {
      return false;
    }
    ghost var start := output.items;
    assert panels[0..] == panels;
    for i := 0 to |panels|
      invariant FlattenEach(panels, start, depth) == FlattenEach(panels[i..], output.items, depth)
    {
      var panel := panels[i];
      assert panels[i..][0] == panel && panels[i..][1..] == panels[i + 1..];
      if |output.items| >= MAX_PANELS {
        return false;
      }
      var summary := Summary(panel);
      if summary.None? {
        return false;
      }
      output.Push(summary.value);
      if "panels" in panel.fields {
        if !panel.fields["panels"].Array? {
          return false;
        }
        var nested := FlattenPanels(panel.fields["panels"].items, output, depth + 1);
        if !nested {
          return false;
        }
      }
    }
    return true;
  }

  // ---------- What it computes ----------

  predicate WellFormedPanel(panel: Value)
    decreases panel, 1
  {
    && Summary(panel).Some?
    && ("panels" in panel.fields ==> panel.fields["panels"].Array? && WellFormed(panel.fields["panels"].items))
  }

  /** Every panel, at every level, is well formed. */
  predicate WellFormed(panels: seq<Value>)
    decreases panels, 0
  {
    panels == [] || (WellFormedPanel(panels[0]) && WellFormed(panels[1..]))
  }

  /** The levels of `panels` arrays, even empty ones, below a list of panels. */
  function Levels(panels: seq<Value>): nat
    decreases panels, 0
  {
    if panels == [] then 0 else Larger(LevelsOf(panels[0]), Levels(panels[1..]))
  }

  function LevelsOf(panel: Value): nat
    decreases panel, 1
  {
    if panel.Object? && "panels" in panel.fields && panel.fields["panels"].Array?
    then 1 + Levels(panel.fields["panels"].items)
    else 0
  }

  function Larger(a: nat, b: nat): nat {
    if a < b then b else a
  }

  /** The pre-order listing. */
  function Listing(panels: seq<Value>): seq<Entry>
    requires WellFormed(panels)
    decreases panels, 0
  {
    if panels == [] then [] else ListingOf(panels[0]) + Listing(panels[1..])
  }

  function ListingOf(panel: Value): (entries: seq<Entry>)
    requires WellFormedPanel(panel)
    ensures entries != [] && entries[0] == Summary(panel).value
    decreases panel, 1
  {
    [Summary(panel).value]
    + (if "panels" in panel.fields then Listing(panel.fields["panels"].items) else [])
  }

  /** The listing of one panel and all below it fits after `used` entries, no deeper than allowed. */
  predicate FitsPanel(panel: Value, used: nat, depth: nat) {
    WellFormedPanel(panel) && depth + LevelsOf(panel) <= 64 && used + |ListingOf(panel)| <= 500
  }

  predicate Fits(panels: seq<Value>, used: nat, depth: nat) {
    WellFormed(panels) && depth + Levels(panels) <= 64 && (panels == [] || used + |Listing(panels)| <= 500)
  }

  /** Flattening succeeds exactly for well-formed panels with no `panels` array past depth 64 and
    at most 500 entries in all, and then appends the pre-order listing. */
  lemma {:induction false} FlattenIff(panels: seq<Value>, output: seq<Entry>, depth: nat)
    ensures Flatten(panels, output, depth).ok <==> Fits(panels, |output|, depth)
    ensures Flatten(panels, output, depth).ok ==> Flatten(panels, output, depth).output == output + Listing(panels)
    decreases panels, 3
  {
    if depth <= MAX_DEPTH {
      FlattenEachIff(panels, output, depth);
    }
  }

  lemma {:induction false} FlattenEachIff(panels: seq<Value>, output: seq<Entry>, depth: nat)
    requires depth <= MAX_DEPTH
    ensures FlattenEach(panels, output, depth).ok <==> Fits(panels, |output|, depth)
    ensures FlattenEach(panels, output, depth).ok ==>
        FlattenEach(panels, output, depth).output == output + Listing(panels)
    decreases panels, 2
  {
    if panels != [] {
      FlattenOneIff(panels[0], output, depth);
      var first := FlattenOne(panels[0], output, depth);
      if first.ok {
        FlattenEachIff(panels[1..], first.output, depth);
      }
      if Fits(panels, |output|, depth) {
        assert |Listing(panels)| == |ListingOf(panels[0])| + |Listing(panels[1..])|;
        assert FitsPanel(panels[0], |output|, depth);
      }
    }
  }

  lemma {:induction false} FlattenOneIff(panel: Value, output: seq<Entry>, depth: nat)
    requires depth <= MAX_DEPTH
    ensures FlattenOne(panel, output, depth).ok <==> FitsPanel(panel, |output|, depth)
    ensures FlattenOne(panel, output, depth).ok ==> FlattenOne(panel, output, depth).output == output + ListingOf(panel)
    decreases panel, 4
  {
    if Summary(panel).Some? && "panels" in panel.fields && panel.fields["panels"].Array? {
      FlattenIff(panel.fields["panels"].items, output + [Summary(panel).value], depth + 1);
    }
  }
}
