/** What the fields of Grafana's lists must be, and where each normalised field comes from. */
module GrafanaFields {
  import opened GrafanaLists
  import opened Json
  import opened RustText
  import opened Wrappers
  import Decimals

  predicate Has(v: Value, key: string, field: Value) {
    v.Object? && key in v.fields && v.fields[key] == field
  }

  // ---------- Log lines ----------

  /** The sign, zeroes and numeral of a number. */
  predicate WrittenWith(s: string, n: int, sign: string, z: nat) {
    && s == sign + (Decimals.Zeros(z) + Decimals.Numeral(if n < 0 then -n else n))
    && (if n < 0 then sign == "-" else if n > 0 then sign == "" || sign == "+"
        else sign == "" || sign == "+" || sign == "-")
  }

  /** The decimal texts of a signed number: its numeral behind zeroes and, where it fits, a sign. */
  ghost predicate Writes(s: string, n: int) {
    exists sign, z :: WrittenWith(s, n, sign, z)
  }

  /** A timestamp is the decimal text of a number of 64 bits with a sign. */
  lemma ParseI64Iff(s: string, n: int)
    ensures ParseI64(s) == Some(n) <==> -9223372036854775808 <= n <= 9223372036854775807 && Writes(s, n)
  {
    if ParseI64(s) == Some(n) {
      ParsedIsWritten(s, n);
    }
    if -9223372036854775808 <= n <= 9223372036854775807 && Writes(s, n) {
      var sign, z :| WrittenWith(s, n, sign, z);
      WrittenIsParsed(s, n, sign, z);
    }
  }

  lemma ParsedIsWritten(s: string, n: int)
    requires ParseI64(s) == Some(n)
    ensures Writes(s, n)
  {
    var signed := s[0] == '-' || s[0] == '+';
    var sign, digits := if signed then s[..1] else "", if signed then s[1..] else s;
    var m: nat := if n < 0 then -n else n;
    assert Decimals.AllDigits(digits) && Decimals.Value(digits) == m;
    var z := Decimals.LeadingZeros(digits);
    assert s == sign + digits;
    assert WrittenWith(s, n, sign, z);
  }

  lemma WrittenIsParsed(s: string, n: int, sign: string, z: nat)
    requires -9223372036854775808 <= n <= 9223372036854775807 && WrittenWith(s, n, sign, z)
    ensures ParseI64(s) == Some(n)
  {
    var m: nat := if n < 0 then -n else n;
    var digits := Decimals.Zeros(z) + Decimals.Numeral(m);
    Decimals.ZerosAddNothing(z, Decimals.Numeral(m));
    Decimals.ValueOfNumeral(m);
    SignedDigits(s, sign, digits);
  }

  lemma SignedDigits(s: string, sign: string, digits: string)
    requires s == sign + digits && (sign == "" || sign == "+" || sign == "-")
    requires digits != "" && Decimals.AllDigits(digits)
    ensures (s[0] == '-' <==> sign == "-") && (s[0] == '+' <==> sign == "+")
    ensures digits == if s[0] == '-' || s[0] == '+' then s[1..] else s
  {
    if sign == "" {
      assert s == digits && Decimals.IsDigit(s[0]);
    } else {
      assert s[1..] == digits;
    }
  }

  /** A log line is a pair of texts, the first of which is a timestamp. */
  lemma LineIff(v: Value, line: Line)
    ensures LineOf(v) == Some(line) <==>
      exists time: string :: v == Array([Text(time), Text(line.text)]) && ParseI64(time) == Some(line.nanoseconds)
  {
    if LineOf(v) == Some(line) {
      var time := v.items[0].text;
      assert v.items == [Text(time), Text(line.text)];
    }
  }

  predicate Labels(v: Value, labels: map<string, string>) {
    v.Object? && v.fields.Keys == labels.Keys && forall k :: k in labels ==> v.fields[k] == Text(labels[k])
  }

  lemma LabelsIff(v: Value, labels: map<string, string>)
    ensures StringMap(v) == Some(labels) <==> Labels(v, labels)
  {
    if Labels(v, labels) {
      assert StringMap(v).Some? && StringMap(v).value == labels;
    }
  }

  lemma {:induction false} LinesIff(values: seq<Value>, lines: seq<Line>)
    ensures LinesOf(values) == Some(lines) <==>
      |values| == |lines| && forall i :: 0 <= i < |lines| ==> LineOf(values[i]) == Some(lines[i])
  {
    if values != [] && lines != [] {
      LinesIff(values[1..], lines[1..]);
      assert lines == [lines[0]] + lines[1..];
      assert forall i :: 0 <= i < |lines[1..]| && i < |values[1..]| ==>
          values[1..][i] == values[i + 1] && lines[1..][i] == lines[i + 1];
      if |values| == |lines| && forall i :: 0 <= i < |lines| ==> LineOf(values[i]) == Some(lines[i]) {
        assert forall i :: 0 <= i < |lines[1..]| ==> LineOf(values[1..][i]) == Some(lines[1..][i]);
      }
      if LinesOf(values) == Some(lines) {
        forall i | 0 <= i < |lines|
          ensures LineOf(values[i]) == Some(lines[i])
        {
          assert i > 0 ==> values[i] == values[1..][i - 1] && lines[i] == lines[1..][i - 1];
        }
      }
    }
  }

  /** A stream is an object with its labels under `stream` and its lines, in order, under `values`. */
  lemma StreamIff(v: Value, stream: Stream)
    ensures StreamOf(v) == Some(stream) <==>
      && v.Object? && "stream" in v.fields && Labels(v.fields["stream"], stream.labels)
      && "values" in v.fields && v.fields["values"].Array?
      && |v.fields["values"].items| == |stream.lines|
      && forall i :: 0 <= i < |stream.lines| ==> LineOf(v.fields["values"].items[i]) == Some(stream.lines[i])
  {
    if v.Object? && "stream" in v.fields && "values" in v.fields && v.fields["values"].Array? {
      LabelsIff(v.fields["stream"], stream.labels);
      LinesIff(v.fields["values"].items, stream.lines);
    }
  }

  // ---------- Rules ----------

  /** Which objects count as which kind of rule. */
  lemma KindIff(v: Value)
    ensures KindOf(v) == Some(Recording) <==> v.Object? && "record" in v.fields && v.fields["record"].Object?
    ensures KindOf(v) == Some(Alert) <==> v.Object? && ("record" in v.fields ==> v.fields["record"] == Null)
  {
  }

  // ---------- Silences ----------

  /** The field is this text, which is neither empty nor too long. */
  predicate Says(v: Value, key: string, text: string, limit: nat) {
    Has(v, key, Text(text)) && text != "" && ByteLength(text) <= limit
  }

  lemma FieldIff(v: Value, key: string, limit: nat, text: string)
    ensures Field(v, key, limit) == Some(text) <==> Says(v, key, text, limit)
  {
  }

  /** A name of a matcher: a letter or underscore, then letters, digits and underscores. */
  predicate Identifier(name: string) {
    && name != "" && !(48 <= name[0] as int <= 57)
    && forall i :: 0 <= i < |name| ==>
         var n := name[i] as int; 97 <= n <= 122 || 65 <= n <= 90 || n == 95 || 48 <= n <= 57
  }

  lemma IdentifierIff(name: string)
    ensures ValidName(name) <==> Identifier(name)
  {
  }

  /** How Grafana writes an operator. */
  predicate OperatorFlags(operator: string, isRegex: bool, isEqual: bool) {
    || (operator == "=" && !isRegex && isEqual) || (operator == "!=" && !isRegex && !isEqual)
    || (operator == "=~" && isRegex && isEqual) || (operator == "!~" && isRegex && !isEqual)
  }

  predicate Matches(v: Value, m: Matcher) {
    && Says(v, "name", m.name, 128) && Identifier(m.name)
    && Has(v, "value", Text(m.value)) && ByteLength(m.value) <= 1024
    && "isRegex" in v.fields && v.fields["isRegex"].Bool? && "isEqual" in v.fields && v.fields["isEqual"].Bool?
    && OperatorFlags(m.operator, v.fields["isRegex"].bit, v.fields["isEqual"].bit)
  }

  /** A matcher has a name, a value and the operator its two flags stand for. */
  lemma MatcherIff(v: Value, m: Matcher)
    ensures MatcherOf(v) == Some(m) <==> Matches(v, m)
  {
    IdentifierIff(m.name);
    FieldIff(v, "name", 128, m.name);
  }

  lemma {:induction false} MatchersIff(items: seq<Value>, matchers: seq<Matcher>)
    ensures MatchersOf(items) == Some(matchers) <==>
      |items| == |matchers| && forall i :: 0 <= i < |items| ==> Matches(items[i], matchers[i])
  {
    if items != [] && matchers != [] {
      MatchersIff(items[1..], matchers[1..]);
      MatcherIff(items[0], matchers[0]);
      assert matchers == [matchers[0]] + matchers[1..];
      if |items| == |matchers| && forall i :: 0 <= i < |items| ==> Matches(items[i], matchers[i]) {
        assert forall i :: 0 <= i < |items[1..]| ==> Matches(items[1..][i], matchers[1..][i]);
      }
      if MatchersOf(items) == Some(matchers) {
        forall i | 0 <= i < |items|
          ensures Matches(items[i], matchers[i])
        {
          assert i > 0 ==> items[i] == items[1..][i - 1] && matchers[i] == matchers[1..][i - 1];
        }
      }
    }
  }

  function StateText(state: SilenceState): string {
    match state
    case Active => "active"
    case Pending => "pending"
    case Expired => "expired"
  }

  predicate InGivenState(v: Value, state: SilenceState) {
    v.Object? && "status" in v.fields && Has(v.fields["status"], "state", Text(StateText(state)))
  }

  lemma StateTexts()
    ensures "active" != "pending" && "pending" != "expired" && "active" != "expired"
    ensures forall state :: StateText(state) != "" && ByteLength(StateText(state)) <= 128
  {
    forall state
      ensures ByteLength(StateText(state)) == |StateText(state)| <= 128
    {
      AsciiByteLength(StateText(state));
    }
    assert "active"[0] != "pending"[0] && "active"[0] != "expired"[0] && "pending"[0] != "expired"[0];
  }

  lemma StateIff(v: Value, state: SilenceState)
    ensures StateOf(v) == Some(state) <==> InGivenState(v, state)
  {
    StateTexts();
    if v.Object? && "status" in v.fields {
      FieldIff(v.fields["status"], "state", 128, StateText(state));
    }
  }

  /** The field is a text of at most 128 bytes that is this time. */
  ghost predicate Times(times: Timestamps, v: Value, key: string, time: string) {
    exists text :: Says(v, key, text, 128) && times(text) == Some(time)
  }

  lemma InstantIff(times: Timestamps, v: Value, key: string, time: string)
    ensures Instant(times, v, key) == Some(time) <==> Times(times, v, key, time)
  {
    if Instant(times, v, key) == Some(time) {
      FieldIff(v, key, 128, Field(v, key, 128).value);
    }
    if text :| Says(v, key, text, 128) && times(text) == Some(time) {
      FieldIff(v, key, 128, text);
    }
  }

  /** A silence is normalised exactly when every field is well formed, and each part comes from its own field. */
  lemma SilenceIff(times: Timestamps, v: Value, s: Silence)
    ensures SilenceOf(times, v) == Some(s) <==>
      && InGivenState(v, s.state) && Says(v, "id", s.id, 128)
      && Times(times, v, "startsAt", s.startsAt) && Times(times, v, "endsAt", s.endsAt)
      && Says(v, "createdBy", s.createdBy, 512) && Says(v, "comment", s.comment, 4096)
      && "matchers" in v.fields && v.fields["matchers"].Array? && 1 <= |s.matchers| <= 20
      && |v.fields["matchers"].items| == |s.matchers|
      && forall i :: 0 <= i < |s.matchers| ==> Matches(v.fields["matchers"].items[i], s.matchers[i])
  {
    StateIff(v, s.state);
    FieldIff(v, "id", 128, s.id);
    InstantIff(times, v, "startsAt", s.startsAt);
    InstantIff(times, v, "endsAt", s.endsAt);
    FieldIff(v, "createdBy", 512, s.createdBy);
    FieldIff(v, "comment", 4096, s.comment);
    if v.Object? && "matchers" in v.fields && v.fields["matchers"].Array? {
      MatchersIff(v.fields["matchers"].items, s.matchers);
    }
  }
}
