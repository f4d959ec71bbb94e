/** Bounded lists from Grafana: log lines over all streams, rules of one kind, silences in one state.
  `None` is an invalid response throughout. */
module GrafanaLists {
  import opened Bounds
  import opened Json
  import opened RustText
  import opened Wrappers
  import Decimals

  function Take<T>(items: seq<T>, limit: nat): seq<T> {
    items[..Smaller(limit, |items|)]
  }

  /** What a loop returns that has selected some items and has others still to come. */
  function Completed<T>(selected: seq<T>, coming: seq<T>, limit: nat): seq<T>
    requires |selected| <= limit
  {
    selected + Take(coming, limit - |selected|)
  }

  function Pushed<T>(selected: seq<T>, item: T, limit: nat): seq<T> {
    if |selected| < limit then selected + [item] else selected
  }

  lemma StartAndEnd<T>(selected: seq<T>, coming: seq<T>, limit: nat)
    requires |selected| <= limit
    ensures Completed([], coming, limit) == Take(coming, limit) && Completed(selected, [], limit) == selected
  {
    assert [] + Take(coming, limit) == Take(coming, limit);
    assert selected + [] == selected;
  }

  lemma Push<T>(selected: seq<T>, item: T, coming: seq<T>, limit: nat)
    requires |selected| <= limit
    ensures Completed(selected, [item] + coming, limit) == Completed(Pushed(selected, item, limit), coming, limit)
  {
    if |selected| < limit {
      var room := limit - |selected|;
      assert Take([item] + coming, room) == [item] + Take(coming, room - 1);
    }
  }

  // ---------- Log streams ----------

  datatype Line = Line(nanoseconds: int, text: string)

  datatype Stream = Stream(labels: map<string, string>, lines: seq<Line>)

  /** `str::parse::<i64>`: an optional sign and at least one digit. */
  function ParseI64(s: string): Option<int> {
    var digits := if s != "" && (s[0] == '-' || s[0] == '+') then s[1..] else s;
    if digits == "" || !Decimals.AllDigits(digits) then None
    else
      var n: int := if s[0] == '-' then -(Decimals.Value(digits) as int) else Decimals.Value(digits);
      if -0x8000_0000_0000_0000 <= n < 0x8000_0000_0000_0000 then Some(n) else None
  }

  function LineOf(v: Value): Option<Line> {
    if !v.Array? || |v.items| != 2 then None
    else
      var timestamp :- AsText(v.items[0]);
      var nanoseconds :- ParseI64(timestamp);
      var line :- AsText(v.items[1]);
      Some(Line(nanoseconds, line))
  }

  function LinesOf(values: seq<Value>): Option<seq<Line>> {
    if values == [] then Some([])
    else
      var line :- LineOf(values[0]);
      var rest :- LinesOf(values[1..]);
      Some([line] + rest)
  }

  function StringMap(v: Value): Option<map<string, string>> {
    if v.Object? && forall k :: k in v.fields ==> v.fields[k].Text? then Some(map k | k in v.fields :: v.fields[k].text)
    else None
  }

  function StreamOf(v: Value): Option<Stream> {
    var stream :- Get(v, "stream");
    var labels :- StringMap(stream);
    var values :- Get(v, "values");
    if !values.Array? then None
    else
      var lines :- LinesOf(values.items);
      Some(Stream(labels, lines))
  }

  /** All streams with all their lines; one malformed entry anywhere spoils the whole. */
  function StreamsOf(series: seq<Value>): Option<seq<Stream>> {
    if series == [] then Some([])
    else
      var first :- StreamOf(series[0]);
      var rest :- StreamsOf(series[1..]);
      Some([first] + rest)
  }

  function NonEmpty(streams: seq<Stream>): seq<Stream> {
    if streams == [] then []
    else if streams[0].lines == [] then NonEmpty(streams[1..])
    else [streams[0]] + NonEmpty(streams[1..])
  }

  /** Each stream in turn takes what is left of the limit. */
  function Budget(streams: seq<Stream>, limit: nat): seq<Stream> {
    if streams == [] then []
    else
      var taken := Take(streams[0].lines, limit);
      var rest := Budget(streams[1..], limit - |taken|);
      if taken == [] then rest else [streams[0].(lines := taken)] + rest
  }

  /** `normalize_streams`, the inner loop. */
  method TakeLines(values: seq<Value>, limit: nat) returns (r: Option<seq<Line>>, remaining: nat)
    ensures r == if LinesOf(values).Some? then Some(Take(LinesOf(values).value, limit)) else None
    ensures r.Some? ==> remaining == limit - |r.value|
  {
    remaining := limit;
    var selected: seq<Line> := [];
    assert values[0..] == values;
    if LinesOf(values).Some? {
      StartAndEnd(selected, LinesOf(values).value, limit);
    }
    for i := 0 to |values|
      invariant remaining + |selected| == limit
      invariant LinesOf(values).Some? <==> LinesOf(values[i..]).Some?
      invariant LinesOf(values).Some? ==>
        Take(LinesOf(values).value, limit) == Completed(selected, LinesOf(values[i..]).value, limit)
    {
      assert values[i..][0] == values[i] && values[i..][1..] == values[i + 1..];
      var line := LineOf(values[i]);
      if line.None? {
        return None, remaining;
      }
      if LinesOf(values[i + 1..]).Some? {
        Push(selected, line.value, LinesOf(values[i + 1..]).value, limit);
      }
      if remaining > 0 {
        selected := selected + [line.value];
        remaining := remaining - 1;
      }
    }
    StartAndEnd(selected, [], limit);
    return Some(selected), remaining;
  }

  /** All streams, cut to a common budget of lines. */
  function Selected(series: seq<Value>, limit: nat): Option<seq<Stream>> {
    var streams :- StreamsOf(series);
    Some(Budget(streams, limit))
  }

  function Prepend(normalized: seq<Stream>, coming: Option<seq<Stream>>): Option<seq<Stream>> {
    if coming.None? then None else Some(normalized + coming.value)
  }

  /** The outer loop's step from one stream to the next. */
  lemma SelectStep(normalized: seq<Stream>, series: seq<Value>, first: Stream, limit: nat)
    requires series != [] && StreamOf(series[0]) == Some(first)
    ensures var taken := Take(first.lines, limit);
            Prepend(normalized, Selected(series, limit))
            == Prepend(if taken == [] then normalized else normalized + [first.(lines := taken)],
                       Selected(series[1..], limit - |taken|))
  {
    if StreamsOf(series[1..]).Some? {
      var taken := Take(first.lines, limit);
      var coming := StreamsOf(series[1..]).value;
      var rest := Budget(coming, limit - |taken|);
      assert StreamsOf(series).value[1..] == coming;
      assert normalized + ([first.(lines := taken)] + rest) == (normalized + [first.(lines := taken)]) + rest;
    }
  }

  /** `normalize_streams`, one entry: its labels and as many of its lines as the limit leaves. */
  method TakeStream(entry: Value, limit: nat) returns (r: Option<Stream>, remaining: nat)
    ensures r == if StreamOf(entry).None? then None
                 else Some(StreamOf(entry).value.(lines := Take(StreamOf(entry).value.lines, limit)))
    ensures r.Some? ==> remaining == limit - |r.value.lines|
  {
    var stream, values := Get(entry, "stream"), Get(entry, "values");
    if stream.None? || StringMap(stream.value).None? || values.None? || !values.value.Array? {
      return None, limit;
    }
    var selected, left := TakeLines(values.value.items, limit);
    if selected.None? {
      return None, limit;
    }
    return Some(Stream(StringMap(stream.value).value, selected.value)), left;
  }

  /** `normalize_streams`. */
  method NormalizeStreams(result: Value, limit: nat) returns (r: Option<seq<Stream>>)
    ensures r == if result.Array? then Selected(result.items, limit) else None
  {
    if !result.Array? {
      return None;
    }
    var series, remaining := result.items, limit;
    var normalized: seq<Stream> := [];
    assert series[0..] == series;
    assert forall s: seq<Stream> :: [] + s == s;
    for i := 0 to |series|
      invariant Selected(series, limit) == Prepend(normalized, Selected(series[i..], remaining))
    {
      assert series[i..][0] == series[i] && series[i..][1..] == series[i + 1..];
      var taken, left := TakeStream(series[i], remaining);
      if taken.None? {
        return None;
      }
      SelectStep(normalized, series[i..], StreamOf(series[i]).value, remaining);
      if taken.value.lines != [] {
        normalized := normalized + [taken.value];
      }
      remaining := left;
    }
    assert normalized + [] == normalized;
    return Some(normalized);
  }

  /** A malformed stream fails the whole list wherever it stands, whatever the limit. */
  lemma {:induction false} EveryStreamIsChecked(series: seq<Value>, limit: nat)
    ensures Selected(series, limit).Some? <==> forall i :: 0 <= i < |series| ==> StreamOf(series[i]).Some?
  {
    if series != [] {
      EveryStreamIsChecked(series[1..], limit);
      assert forall i :: 0 <= i < |series[1..]| ==> series[1..][i] == series[i + 1];
      if StreamOf(series[0]).Some? && forall i :: 0 <= i < |series[1..]| ==> StreamOf(series[1..][i]).Some? {
        forall i | 0 <= i < |series| ensures StreamOf(series[i]).Some? {
          assert i > 0 ==> series[i] == series[1..][i - 1];
        }
      }
    }
  }

  /** So does a malformed line. */
  lemma {:induction false} EveryLineIsChecked(values: seq<Value>)
    ensures LinesOf(values).Some? <==> forall i :: 0 <= i < |values| ==> LineOf(values[i]).Some?
  {
    if values != [] {
      EveryLineIsChecked(values[1..]);
      assert forall i :: 0 <= i < |values[1..]| ==> values[1..][i] == values[i + 1];
      if LineOf(values[0]).Some? && forall i :: 0 <= i < |values[1..]| ==> LineOf(values[1..][i]).Some? {
        forall i | 0 <= i < |values| ensures LineOf(values[i]).Some? {
          assert i > 0 ==> values[i] == values[1..][i - 1];
        }
      }
    }
  }

  /** All lines in the order of their streams. */
  function Lines(streams: seq<Stream>): seq<Line> {
    if streams == [] then [] else streams[0].lines + Lines(streams[1..])
  }

  lemma TakeOver(a: seq<Line>, b: seq<Line>, limit: nat)
    ensures Take(a + b, limit) == Take(a, limit) + Take(b, limit - |Take(a, limit)|)
  {
  }

  lemma LinesOfFirst(first: Stream, rest: seq<Stream>)
    ensures Lines([first] + rest) == first.lines + Lines(rest)
  {
    assert ([first] + rest)[1..] == rest;
  }

  /** The lines kept over all streams are exactly the first `limit` of the concatenation. */
  lemma {:induction false} BudgetTakesTheFirstLines(streams: seq<Stream>, limit: nat)
    ensures Lines(Budget(streams, limit)) == Take(Lines(streams), limit)
  {
    if streams != [] {
      var taken := Take(streams[0].lines, limit);
      var rest := Budget(streams[1..], limit - |taken|);
      BudgetTakesTheFirstLines(streams[1..], limit - |taken|);
      TakeOver(streams[0].lines, Lines(streams[1..]), limit);
      LinesOfFirst(streams[0].(lines := taken), rest);
      assert [] + Lines(rest) == Lines(rest);
    }
  }

  /** No stream is kept without a line. */
  lemma {:induction false} NoStreamIsEmpty(streams: seq<Stream>, limit: nat)
    ensures forall i :: 0 <= i < |Budget(streams, limit)| ==> Budget(streams, limit)[i].lines != []
  {
    if streams != [] {
      NoStreamIsEmpty(streams[1..], limit - |Take(streams[0].lines, limit)|);
    }
  }

  /** How many lines of stream `i` are among the first `limit`. */
  function Share(streams: seq<Stream>, limit: nat, i: nat): (n: nat)
    requires i < |streams|
    ensures n <= |streams[i].lines|
  {
    var before := |Lines(streams[..i])|;
    Smaller(if before < limit then limit - before else 0, |streams[i].lines|)
  }

  function Shares(streams: seq<Stream>, limit: nat): seq<Stream> {
    seq(|streams|, i requires 0 <= i < |streams| => streams[i].(lines := streams[i].lines[..Share(streams, limit, i)]))
  }

  /** Each stream keeps its labels and its own first lines, as many as the streams before it leave. */
  lemma {:induction false} BudgetIsByShares(streams: seq<Stream>, limit: nat)
    ensures Budget(streams, limit) == NonEmpty(Shares(streams, limit))
  {
    if streams != [] {
      var taken := Take(streams[0].lines, limit);
      BudgetIsByShares(streams[1..], limit - |taken|);
      assert streams[..0] == [];
      assert Shares(streams, limit)[0] == streams[0].(lines := taken);
      forall i | 1 <= i < |streams|
        ensures Share(streams, limit, i) == Share(streams[1..], limit - |taken|, i - 1)
      {
        assert streams[..i][1..] == streams[1..][..i - 1];
      }
      assert Shares(streams, limit)[1..] == Shares(streams[1..], limit - |taken|);
    }
  }

  // ---------- Rules ----------

  datatype RuleKind = Alert | Recording

  /** A rule is told by its `record` field; the other fields are not looked at. */
  function KindOf(v: Value): Option<RuleKind> {
    if !v.Object? then None
    else if Get(v, "record") == None || Get(v, "record") == Some(Null) then Some(Alert)
    else if Get(v, "record").value.Object? then Some(Recording)
    else None
  }

  predicate AllTold(rules: seq<Value>) {
    forall i :: 0 <= i < |rules| ==> KindOf(rules[i]).Some?
  }

  function OfKind(rules: seq<Value>, kind: RuleKind): seq<Value> {
    if rules == [] then []
    else if KindOf(rules[0]) == Some(kind) then [rules[0]] + OfKind(rules[1..], kind)
    else OfKind(rules[1..], kind)
  }

  /** `select_rules`. */
  method SelectRules(limit: nat, wrapper: Value, kind: RuleKind) returns (r: Option<seq<Value>>)
    ensures r == if wrapper.Array? && AllTold(wrapper.items) then Some(Take(OfKind(wrapper.items, kind), limit))
                 else None
  {
    if !wrapper.Array? {
      return None;
    }
    var rules := wrapper.items;
    var selected: seq<Value> := [];
    assert rules[0..] == rules;
    StartAndEnd(selected, OfKind(rules, kind), limit);
    for i := 0 to |rules|
      invariant |selected| <= limit && forall j :: 0 <= j < i ==> KindOf(rules[j]).Some?
      invariant Take(OfKind(rules, kind), limit) == Completed(selected, OfKind(rules[i..], kind), limit)
    {
      assert rules[i..][0] == rules[i] && rules[i..][1..] == rules[i + 1..];
      var told := KindOf(rules[i]);
      if told.None? {
        return None;
      }
      if told.value == kind {
        Push(selected, rules[i], OfKind(rules[i + 1..], kind), limit);
      }
      if told.value == kind && |selected| < limit {
        selected := selected + [rules[i]];
      }
    }
    StartAndEnd(selected, [], limit);
    return Some(selected);
  }

  lemma {:induction false} SelectedAreOfKind(rules: seq<Value>, kind: RuleKind)
    ensures forall v :: v in OfKind(rules, kind) ==> KindOf(v) == Some(kind)
  {
    if rules != [] {
      SelectedAreOfKind(rules[1..], kind);
    }
  }

  lemma HeadAndTail(rules: seq<Value>)
    requires rules != []
    ensures multiset(rules) == multiset{rules[0]} + multiset(rules[1..])
  {
    assert rules == [rules[0]] + rules[1..];
  }

  lemma SplitStep(first: Value, alerts: multiset<Value>, recordings: multiset<Value>)
    ensures (multiset{first} + alerts) + recordings == multiset{first} + (alerts + recordings)
    ensures alerts + (multiset{first} + recordings) == multiset{first} + (alerts + recordings)
  {
  }

  lemma FirstOfKind(rules: seq<Value>, kind: RuleKind)
    requires rules != []
    ensures multiset(OfKind(rules, kind))
         == if KindOf(rules[0]) == Some(kind) then multiset{rules[0]} + multiset(OfKind(rules[1..], kind))
            else multiset(OfKind(rules[1..], kind))
  {
  }

  lemma TailIsTold(rules: seq<Value>)
    requires rules != [] && AllTold(rules)
    ensures AllTold(rules[1..]) && (KindOf(rules[0]) == Some(Alert) || KindOf(rules[0]) == Some(Recording))
  {
    assert forall i :: 0 <= i < |rules[1..]| ==> rules[1..][i] == rules[i + 1];
    assert KindOf(rules[0]).Some?;
  }

  /** The two selections split the list: every rule is in exactly one of them. */
  lemma {:induction false} KindsSplitTheRules(rules: seq<Value>)
    requires AllTold(rules)
    ensures multiset(OfKind(rules, Alert)) + multiset(OfKind(rules, Recording)) == multiset(rules)
  {
    if rules != [] {
      TailIsTold(rules);
      KindsSplitTheRules(rules[1..]);
      HeadAndTail(rules);
      FirstOfKind(rules, Alert);
      FirstOfKind(rules, Recording);
      SplitStep(rules[0], multiset(OfKind(rules[1..], Alert)), multiset(OfKind(rules[1..], Recording)));
    }
  }

  // ---------- Silences ----------

  datatype SilenceState = Active | Pending | Expired

  datatype Matcher = Matcher(name: string, operator: string, value: string)

  datatype Silence = Silence(
    id: string, state: SilenceState, startsAt: string, endsAt: string, createdBy: string, comment: string,
    matchers: seq<Matcher>)

  /** How an RFC 3339 timestamp is rewritten, if it is one. */
  type Timestamps = string -> Option<string>

  /** `bounded_string`: a text field that is neither empty nor too long. */
  function Field(v: Value, key: string, limit: nat): Option<string> {
    var field :- Get(v, key);
    var text :- AsText(field);
    if text != "" && ByteLength(text) <= limit then Some(text) else None
  }

  function Instant(times: Timestamps, v: Value, key: string): Option<string> {
    var text :- Field(v, key, 128);
    times(text)
  }

  function StateOf(v: Value): Option<SilenceState> {
    var status :- Get(v, "status");
    var state :- Field(status, "state", 128);
    if state == "active" then Some(Active)
    else if state == "pending" then Some(Pending)
    else if state == "expired" then Some(Expired)
    else None
  }

  predicate NameStart(c: char) {
    'a' <= c <= 'z' || 'A' <= c <= 'Z' || c == '_'
  }

  predicate ValidName(name: string) {
    name != "" && NameStart(name[0]) && forall i :: 0 <= i < |name| ==> NameStart(name[i]) || Decimals.IsDigit(name[i])
  }

  function Operator(isRegex: bool, isEqual: bool): string {
    if isRegex then (if isEqual then "=~" else "!~") else (if isEqual then "=" else "!=")
  }

  function MatcherOf(v: Value): Option<Matcher> {
    var name :- Field(v, "name", 128);
    var valueField :- Get(v, "value");
    var value :- AsText(valueField);
    var regexField :- Get(v, "isRegex");
    var isRegex :- AsBool(regexField);
    var equalField :- Get(v, "isEqual");
    var isEqual :- AsBool(equalField);
    if ValidName(name) && ByteLength(value) <= 1024 then Some(Matcher(name, Operator(isRegex, isEqual), value))
    else None
  }

  function MatchersOf(items: seq<Value>): Option<seq<Matcher>> {
    if items == [] then Some([])
    else
      var first :- MatcherOf(items[0]);
      var rest :- MatchersOf(items[1..]);
      Some([first] + rest)
  }

  function SilenceOf(times: Timestamps, v: Value): Option<Silence> {
    var state :- StateOf(v);
    var matchersField :- Get(v, "matchers");
    if !matchersField.Array? || !(1 <= |matchersField.items| <= 20) then None
    else
      var matchers :- MatchersOf(matchersField.items);
      var id :- Field(v, "id", 128);
      var startsAt :- Instant(times, v, "startsAt");
      var endsAt :- Instant(times, v, "endsAt");
      var createdBy :- Field(v, "createdBy", 512);
      var comment :- Field(v, "comment", 4096);
      Some(Silence(id, state, startsAt, endsAt, createdBy, comment, matchers))
  }

  function AllNormal(silences: seq<Value>, times: Timestamps): Option<seq<Silence>> {
    if silences == [] then Some([])
    else
      var first :- SilenceOf(times, silences[0]);
      var rest :- AllNormal(silences[1..], times);
      Some([first] + rest)
  }

  predicate Wanted(filter: Option<SilenceState>, s: Silence) {
    filter.None? || filter.value == s.state
  }

  function InState(silences: seq<Silence>, filter: Option<SilenceState>): seq<Silence> {
    if silences == [] then []
    else if Wanted(filter, silences[0]) then [silences[0]] + InState(silences[1..], filter)
    else InState(silences[1..], filter)
  }

  /** `normalize_silences`: every silence is validated, also those that are not wanted or come after
    the limit. */
  method NormalizeSilences(filter: Option<SilenceState>, limit: nat, wrapper: Value, times: Timestamps)
    returns (r: Option<seq<Silence>>)
    ensures r == if wrapper.Array? && AllNormal(wrapper.items, times).Some?
                 then Some(Take(InState(AllNormal(wrapper.items, times).value, filter), limit))
                 else None
  {
    if !wrapper.Array? {
      return None;
    }
    var silences := wrapper.items;
    var result: seq<Silence> := [];
    assert silences[0..] == silences;
    if AllNormal(silences, times).Some? {
      StartAndEnd(result, InState(AllNormal(silences, times).value, filter), limit);
    }
    for i := 0 to |silences|
      invariant |result| <= limit
      invariant AllNormal(silences, times).Some? <==> AllNormal(silences[i..], times).Some?
      invariant AllNormal(silences, times).Some? ==>
        Take(InState(AllNormal(silences, times).value, filter), limit)
        == Completed(result, InState(AllNormal(silences[i..], times).value, filter), limit)
    {
      assert silences[i..][0] == silences[i] && silences[i..][1..] == silences[i + 1..];
      var normalized := SilenceOf(times, silences[i]);
      if normalized.None? {
        return None;
      }
      if AllNormal(silences[i + 1..], times).Some? {
        assert AllNormal(silences[i..], times).value[1..] == AllNormal(silences[i + 1..], times).value;
        Push(result, normalized.value, InState(AllNormal(silences[i + 1..], times).value, filter), limit);
      }
      if Wanted(filter, normalized.value) && |result| < limit {
        result := result + [normalized.value];
      }
    }
    StartAndEnd(result, [], limit);
    return Some(result);
  }

  /** A malformed silence fails the whole list, wanted or not, before the limit or after it. */
  lemma {:induction false} EverySilenceIsChecked(silences: seq<Value>, times: Timestamps)
    ensures AllNormal(silences, times).Some? <==>
        forall i :: 0 <= i < |silences| ==> SilenceOf(times, silences[i]).Some?
  {
    if silences != [] {
      EverySilenceIsChecked(silences[1..], times);
      assert forall i :: 0 <= i < |silences[1..]| ==> silences[1..][i] == silences[i + 1];
      if SilenceOf(times, silences[0]).Some? &&
         forall i :: 0 <= i < |silences[1..]| ==> SilenceOf(times, silences[1..][i]).Some? {
        forall i | 0 <= i < |silences| ensures SilenceOf(times, silences[i]).Some? {
          assert i > 0 ==> silences[i] == silences[1..][i - 1];
        }
      }
    }
  }

  /** The three states split the silences, and without a filter all of them are wanted. */
  lemma {:induction false} StatesSplitTheSilences(silences: seq<Silence>)
    ensures InState(silences, None) == silences
    ensures forall state, s :: s in InState(silences, Some(state)) ==> s.state == state
    ensures multiset(InState(silences, Some(Active))) + multiset(InState(silences, Some(Pending)))
          + multiset(InState(silences, Some(Expired))) == multiset(silences)
  {
    if silences != [] {
      var first, rest := silences[0], silences[1..];
      StatesSplitTheSilences(rest);
      assert silences == [first] + rest;
      FirstInState(silences, Active);
      FirstInState(silences, Pending);
      FirstInState(silences, Expired);
      SplitThree(first, multiset(InState(rest, Some(Active))), multiset(InState(rest, Some(Pending))),
                 multiset(InState(rest, Some(Expired))));
    }
  }

  lemma FirstInState(silences: seq<Silence>, state: SilenceState)
    requires silences != []
    ensures multiset(InState(silences, Some(state)))
         == if silences[0].state == state then multiset{silences[0]} + multiset(InState(silences[1..], Some(state)))
            else multiset(InState(silences[1..], Some(state)))
  {
  }

  lemma SplitThree(first: Silence, a: multiset<Silence>, b: multiset<Silence>, c: multiset<Silence>)
    ensures (multiset{first} + a) + b + c == multiset{first} + (a + b + c)
    ensures a + (multiset{first} + b) + c == multiset{first} + (a + b + c)
    ensures a + b + (multiset{first} + c) == multiset{first} + (a + b + c)
  {
  }
}
