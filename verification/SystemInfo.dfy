/** The framed system-information output: the shell script that prints it and the
  parser that reads it back out of the captured standard output. */
module SystemInfo {
  import opened Wrappers
  import opened ByteText

  const MAX_SECTION_BYTES: nat := 32768

  /** Section names in printing order, and the two outer markers. */
  datatype Protocol = Protocol(names: seq<string>, begin: string, end: string)

  // The ten required sections followed by the optional one.
  const V1 := Protocol(
    ["hostname", "uptime", "boot_time", "os_release", "kernel_arch", "cpu",
     "memory", "filesystems", "block_devices", "interfaces", "default_routes"],
    "HOMELAB_SYSTEM_INFO_V1_BEGIN\n",
    "HOMELAB_SYSTEM_INFO_V1_END")

  type Sections = map<string, string>

  function Opening(name: string): string {
    "--- " + name + " BEGIN ---\n"
  }

  function Closing(name: string): string {
    "\n--- " + name + " END ---\n"
  }

  // ---------- Printer ----------

  function Frame(name: string, value: string): string {
    Opening(name) + value + Closing(name)
  }

  /** The frames of `values` under `names`, one after the other. */
  function Frames(names: seq<string>, values: seq<string>): string
    requires |names| == |values|
  {
    if names == [] then "" else Frame(names[0], values[0]) + Frames(names[1..], values[1..])
  }

  /** `head -c 32768`: at most the first 32768 bytes of a command's output. */
  function Head(output: string): string {
    if |output| <= MAX_SECTION_BYTES then output else output[..MAX_SECTION_BYTES]
  }

  function Heads(outputs: seq<string>): (heads: seq<string>)
    ensures |heads| == |outputs|
    ensures forall i :: 0 <= i < |outputs| ==> heads[i] == Head(outputs[i])
  {
    seq(|outputs|, i requires 0 <= i < |outputs| => Head(outputs[i]))
  }

  lemma {:induction false} FramesSnoc(names: seq<string>, values: seq<string>, name: string, value: string)
    requires |names| == |values|
    ensures Frames(names + [name], values + [value]) == Frames(names, values) + Frame(name, value)
  {
    if names == [] {
      assert names + [name] == [name] && values + [value] == [value];
      assert Frames([name][1..], [value][1..]) == "";
    } else {
      assert (names + [name])[1..] == names[1..] + [name];
      assert (values + [value])[1..] == values[1..] + [value];
      FramesSnoc(names[1..], values[1..], name, value);
    }
  }

  lemma FramesStep(begin: string, names: seq<string>, values: seq<string>, i: nat)
    requires i < |names| == |values|
    ensures begin + Frames(names[..i + 1], values[..i + 1]) ==
        begin + Frames(names[..i], values[..i]) + Frame(names[i], values[i])
  {
    assert names[..i + 1] == names[..i] + [names[i]] && values[..i + 1] == values[..i] + [values[i]];
    FramesSnoc(names[..i], values[..i], names[i], values[i]);
  }

  /** One `emit` of the script. */
  method Emit(stdout: string, key: string, output: string) returns (r: string)
    ensures r == stdout + Frame(key, Head(output))
  {
    r := stdout + ("--- " + key + " BEGIN ---\n");
    r := r + (if |output| <= 32768 then output else output[..32768]);
    r := r + ("\n--- " + key + " END ---\n");
  }

  /** The remote script: begin marker, one `emit` per section, end marker. */
  method RunScript(p: Protocol, outputs: seq<string>) returns (stdout: string)
    requires |outputs| == |p.names|
    ensures stdout == p.begin + Frames(p.names, Heads(outputs)) + p.end + "\n"
  {
    stdout := p.begin;
    ghost var heads := Heads(outputs);
    for i := 0 to |p.names|
      invariant stdout == p.begin + Frames(p.names[..i], heads[..i])
    {
      FramesStep(p.begin, p.names, heads, i);
      stdout := Emit(stdout, p.names[i], outputs[i]);
    }
    assert p.names[..|p.names|] == p.names && heads[..|p.names|] == heads;
    stdout := stdout + p.end + "\n";
  }

  /** What the operation callback writes: the output, closed by a newline if it had none. */
  function CallbackOutput(output: string): string {
    if output == "" then ""
    else if output[|output| - 1] == '\n' then output
    else output + "\n"
  }

  /** The bound keeps a prefix, and all of an output that fits. */
  lemma HeadIs(output: string)
    ensures Head(output) <= output && |Head(output)| <= 32768
    ensures Head(output) == output || |Head(output)| == 32768
  {
  }

  /** What the callback writes ends its line, adds nothing but that, and is empty only for no output. */
  lemma CallbackOutputIs(output: string)
    ensures var r := CallbackOutput(output);
            && (r == "" <==> output == "")
            && (r != "" ==> r[|r| - 1] == '\n')
            && (r == output || r == output + "\n")
            && (output != "" && output[|output| - 1] == '\n' ==> r == output)
  {
  }

  // ---------- Parser ----------

  /** Reads one frame: its value and what follows it. */
  function TakeFrame(name: string, text: string): Option<(string, string)> {
    if !(Opening(name) <= text) then None
    else
      var rest := text[|Opening(name)|..];
      var end :- Find(rest, Closing(name));
      if end > MAX_SECTION_BYTES || '\0' in rest[..end] then None
      else Some((rest[..end], rest[end + |Closing(name)|..]))
  }

  /** The sections of a payload; nothing may remain after the last one. */
  function ParseFrames(names: seq<string>, payload: string): (r: Option<seq<string>>)
    ensures r.Some? ==> |r.value| == |names|
  {
    if names == [] then (if payload == "" then Some([]) else None)
    else
      var (value, rest) :- TakeFrame(names[0], payload);
      var others :- ParseFrames(names[1..], rest);
      Some([value] + others)
  }

  /** The text between the markers, provided the end marker occurs once after the begin marker. */
  function Payload(p: Protocol, stdout: string): Option<string> {
    var begin :- Find(stdout, p.begin);
    var tail := stdout[begin + |p.begin|..];
    var end :- Find(tail, p.end);
    if Find(tail[end + |p.end|..], p.end).Some? then None else Some(tail[..end])
  }

  function Parse(p: Protocol, stdout: string): (r: Option<seq<string>>)
    ensures r.Some? ==> |r.value| == |p.names|
  {
    if !ValidUtf8(stdout) then None
    else
      var payload :- Payload(p, stdout);
      ParseFrames(p.names, payload)
  }

  function SectionMap(names: seq<string>, values: seq<string>): Sections
    requires |names| == |values|
  {
    if names == [] then map[]
    else SectionMap(names[..|names| - 1], values[..|names| - 1])[names[|names| - 1] := values[|names| - 1]]
  }

  /** With distinct names every section is found under its own name. */
  lemma {:induction false} SectionMapHolds(names: seq<string>, values: seq<string>)
    requires |names| == |values|
    requires forall i, j :: 0 <= i < j < |names| ==> names[i] != names[j]
    ensures SectionMap(names, values).Keys == set i | 0 <= i < |names| :: names[i]
    ensures forall i :: 0 <= i < |names| ==>
      names[i] in SectionMap(names, values) && SectionMap(names, values)[names[i]] == values[i]
  {
    if names != [] {
      SectionMapHolds(names[..|names| - 1], values[..|names| - 1]);
    }
  }

  lemma SectionMapSnoc(names: seq<string>, values: seq<string>, i: nat, value: string)
    requires i == |values| < |names|
    ensures SectionMap(names[..i + 1], values + [value]) == SectionMap(names[..i], values)[names[i] := value]
  {
    assert names[..i + 1][..i] == names[..i] && (values + [value])[..i] == values;
  }

  /** The result of reading the rest, seen from the values already read. */
  function After(done: seq<string>, rest: Option<seq<string>>): Option<seq<string>> {
    match rest
    case None => None
    case Some(more) => Some(done + more)
  }

  lemma ParseFramesStep(names: seq<string>, text: string, done: seq<string>)
    requires names != [] && TakeFrame(names[0], text).Some?
    ensures var frame := TakeFrame(names[0], text).value;
            After(done, ParseFrames(names, text)) == After(done + [frame.0], ParseFrames(names[1..], frame.1))
  {
    var frame := TakeFrame(names[0], text).value;
    match ParseFrames(names[1..], frame.1)
    case None =>
    case Some(more) => assert done + ([frame.0] + more) == done + [frame.0] + more;
  }

  /** `normalize::system_info`: finds the markers, then reads and removes one frame at a time. */
  method ParseStdout(p: Protocol, stdout: string) returns (r: Option<Sections>)
    ensures r == (match Parse(p, stdout) case None => None case Some(values) => Some(SectionMap(p.names, values)))
  {
    if !ValidUtf8(stdout) {
      return None;
    }
    var payload := Payload(p, stdout);
    if payload.None? {
      return None;
    }
    r := ReadSections(p.names, payload.value);
  }

  method ReadSections(names: seq<string>, payload: string) returns (r: Option<Sections>)
    ensures r ==
        (match ParseFrames(names, payload) case None => None case Some(values) => Some(SectionMap(names, values)))
  {
    var remaining := payload;
    var sections: Sections := map[];
    ghost var values: seq<string> := [];
    assert names[0..] == names;
    assert forall more: seq<string> :: [] + more == more;
    for i := 0 to |names|
      invariant |values| == i
      invariant sections == SectionMap(names[..i], values)
      invariant ParseFrames(names, payload) == After(values, ParseFrames(names[i..], remaining))
    {
      var frame := TakeFrame(names[i], remaining);
      assert names[i..][0] == names[i] && names[i..][1..] == names[i + 1..];
      if frame.None? {
        return None;
      }
      ParseFramesStep(names[i..], remaining, values);
      SectionMapSnoc(names, values, i, frame.value.0);
      sections := sections[names[i] := frame.value.0];
      values := values + [frame.value.0];
      remaining := frame.value.1;
    }
    assert names[..|names|] == names;
    if remaining != "" {
      return None;
    }
    assert values + [] == values;
    return Some(sections);
  }

  // ---------- What the frames mean ----------

  /** A section name that cannot disturb the markers around it. */
  predicate PlainName(name: string) {
    Ascii(name) && '\n' !in name && 'H' !in name
  }

  /** A value the parser gives back from its frame. The closing marker starts and ends
    with a newline, so it must be absent from the value followed by a newline. */
  ghost predicate Frameable(name: string, value: string) {
    |value| <= MAX_SECTION_BYTES && '\0' !in value && !Occurs(value + "\n", Closing(name))
  }

  /** The properties of the names and markers that the theorems rest on. */
  ghost predicate Regular(p: Protocol) {
    && (forall i :: 0 <= i < |p.names| ==> PlainName(p.names[i]))
    && (forall i, j :: 0 <= i < j < |p.names| ==> p.names[i] != p.names[j])
    && MeetsItselfWithin(p.begin, 0) && Ascii(p.begin)
    && MeetsItselfWithin(p.end, 0) && Ascii(p.end) && '\n' !in p.end && p.end[0] == 'H'
  }

  lemma V1IsRegular()
    ensures Regular(V1) && |V1.names| == 11
  {
    V1NamesArePlain();
    V1NamesDiffer();
    V1MarkersMeetNowhere();
  }

  lemma V1NamesArePlain()
    ensures forall i :: 0 <= i < |V1.names| ==> PlainName(V1.names[i])
  {
    ShortNamesArePlain();
    LongNamesArePlain();
  }

  lemma ShortNamesArePlain()
    ensures PlainName("hostname") && PlainName("uptime") && PlainName("boot_time") && PlainName("os_release")
    ensures PlainName("cpu") && PlainName("memory")
  {
  }

  lemma LongNamesArePlain()
    ensures PlainName("kernel_arch") && PlainName("filesystems") && PlainName("block_devices")
    ensures PlainName("interfaces") && PlainName("default_routes")
  {
  }

  lemma V1NamesDiffer()
    ensures forall i, j :: 0 <= i < j < |V1.names| ==> V1.names[i] != V1.names[j]
  {
    // Names with the same first letter have different lengths.
    var letters := "hubokcmfbid";
    forall i, j | 0 <= i < j < |V1.names|
      ensures V1.names[i] != V1.names[j]
    {
      assert V1.names[i][0] == letters[i] && V1.names[j][0] == letters[j];
      assert letters[i] == letters[j] ==> |V1.names[i]| == 9 && |V1.names[j]| == 13;
    }
  }

  lemma V1MarkersMeetNowhere()
    ensures MeetsItselfWithin(V1.begin, 0) && Ascii(V1.begin)
    ensures MeetsItselfWithin(V1.end, 0) && Ascii(V1.end) && '\n' !in V1.end && V1.end[0] == 'H'
  {
    BeginMeetsNowhere();
    EndMeetsNowhere();
  }

  lemma BeginMeetsNowhere()
    ensures MeetsItselfWithin("HOMELAB_SYSTEM_INFO_V1_BEGIN\n", 0) && Ascii("HOMELAB_SYSTEM_INFO_V1_BEGIN\n")
  {
  }

  lemma EndMeetsNowhere()
    ensures MeetsItselfWithin("HOMELAB_SYSTEM_INFO_V1_END", 0)
    ensures Ascii("HOMELAB_SYSTEM_INFO_V1_END") && '\n' !in "HOMELAB_SYSTEM_INFO_V1_END"
    ensures "HOMELAB_SYSTEM_INFO_V1_END"[0] == 'H'
  {
  }

  lemma ClosingMeetsItself(name: string)
    requires PlainName(name)
    ensures MeetsItselfWithin(Closing(name), 1) && Closing(name)[..1] == "\n"
  {
  }

  /** A frame is read back, with its own value and rest, exactly when the value is frameable. */
  lemma TakeFrameIff(name: string, text: string, value: string, rest: string)
    requires PlainName(name)
    ensures TakeFrame(name, text) == Some((value, rest))
       <==> text == Frame(name, value) + rest && Frameable(name, value)
  {
    if TakeFrame(name, text) == Some((value, rest)) {
      TakenIsFrame(name, text, value, rest);
    }
    if text == Frame(name, value) + rest {
      TakesFrame(name, text, value, rest);
    }
  }

  lemma TakenIsFrame(name: string, text: string, value: string, rest: string)
    requires TakeFrame(name, text) == Some((value, rest))
    ensures text == Frame(name, value) + rest
  {
    var closing := Closing(name);
    var tail := text[|Opening(name)|..];
    CutAt(tail, closing, |value|);
    Reassociate(Opening(name), value, closing, rest);
    assert text == Opening(name) + tail;
  }

  lemma CutAt(s: string, p: string, i: nat)
    requires At(s, p, i)
    ensures s == s[..i] + p + s[i + |p|..]
  {
  }

  lemma Reassociate(a: string, b: string, c: string, d: string)
    ensures a + (b + c + d) == a + b + c + d
  {
  }

  lemma TakesFrame(name: string, text: string, value: string, rest: string)
    requires PlainName(name) && text == Frame(name, value) + rest
    ensures TakeFrame(name, text) == Some((value, rest)) <==> Frameable(name, value)
  {
    var opening, closing := Opening(name), Closing(name);
    ClosingMeetsItself(name);
    var after := value + closing + rest;
    FindsWrittenIff(value, closing, rest, 1);
    assert text == opening + after;
    assert text[|opening|..] == after;
    assert after[..|value|] == value && after[|value| + |closing|..] == rest;
  }

  /** A value can be free of the closing marker and still complete one with the newline after it: it
    then does not come back from its own frame. */
  lemma ClosingCanStraddle(name: string, rest: string) returns (value: string)
    requires PlainName(name)
    ensures !Occurs(value, Closing(name)) && Occurs(value + "\n", Closing(name))
    ensures TakeFrame(name, Frame(name, value) + rest) != Some((value, rest))
  {
    value := "\n--- " + name + " END ---";
    assert value + "\n" == Closing(name);
    assert At(value + "\n", Closing(name), 0);
    TakesFrame(name, Frame(name, value) + rest, value, rest);
  }

  /** Parsing a payload and framing values are inverse, on exactly the frameable values. */
  lemma {:induction false} ParseFramesIff(names: seq<string>, payload: string, values: seq<string>)
    requires forall i :: 0 <= i < |names| ==> PlainName(names[i])
    ensures ParseFrames(names, payload) == Some(values)
       <==> |values| == |names| && payload == Frames(names, values)
            && forall i :: 0 <= i < |names| ==> Frameable(names[i], values[i])
  {
    if names != [] && |values| == |names| {
      assert values == [values[0]] + values[1..];
      FrameableTail(names, values);
      var more := Frames(names[1..], values[1..]);
      TakeFrameIff(names[0], payload, values[0], more);
      ParseFramesIff(names[1..], more, values[1..]);
      if ParseFrames(names, payload) == Some(values) {
        var (value, rest) := TakeFrame(names[0], payload).value;
        assert ([value] + ParseFrames(names[1..], rest).value)[1..] == ParseFrames(names[1..], rest).value;
        ParseFramesIff(names[1..], rest, values[1..]);
      }
    }
  }

  lemma FrameableTail(names: seq<string>, values: seq<string>)
    requires |values| == |names| > 0
    ensures (forall i :: 0 <= i < |names| ==> Frameable(names[i], values[i]))
       <==> Frameable(names[0], values[0])
            && forall i :: 0 <= i < |names[1..]| ==> Frameable(names[1..][i], values[1..][i])
  {
    if forall i :: 0 <= i < |names[1..]| ==> Frameable(names[1..][i], values[1..][i]) {
      forall i | 1 <= i < |names|
        ensures Frameable(names[i], values[i])
      {
        assert Frameable(names[1..][i - 1], values[1..][i - 1]);
      }
    }
  }

  // ---------- Whole outputs ----------

  /** `stdout` is some noise, the marked frames of `values`, and more noise. */
  ghost predicate Rendered(p: Protocol, stdout: string, pre: string, values: seq<string>, post: string) {
    |values| == |p.names| && stdout == pre + p.begin + (Frames(p.names, values) + p.end + post)
  }

  /** Nothing but the two markers themselves looks like a marker, and every value fits its frame. */
  ghost predicate Unambiguous(p: Protocol, pre: string, values: seq<string>, post: string) {
    && |values| == |p.names|
    && !Occurs(pre, p.begin) && !Occurs(post, p.end)
    && forall i :: 0 <= i < |p.names| ==> Frameable(p.names[i], values[i]) && !Occurs(values[i], p.end)
  }

  /** The end marker occurs in a frame and what follows only in the value or in what follows. */
  lemma EndAcrossFrame(p: Protocol, name: string, value: string, more: string)
    requires Regular(p) && PlainName(name)
    ensures Occurs(Frame(name, value) + more, p.end) <==> Occurs(value, p.end) || Occurs(more, p.end)
  {
    var open, close := "--- " + name + " BEGIN ---", "--- " + name + " END ---";
    assert Frame(name, value) + more == open + ['\n'] + (value + ['\n'] + (close + ['\n'] + more));
    OccursAcrossForeign(open, '\n', value + ['\n'] + (close + ['\n'] + more), p.end);
    OccursAcrossForeign(value, '\n', close + ['\n'] + more, p.end);
    OccursAcrossForeign(close, '\n', more, p.end);
    NoStartNoOccurrence(open, p.end);
    NoStartNoOccurrence(close, p.end);
  }

  /** The end marker occurs in the frames only inside a value. */
  lemma {:induction false} EndInFramesIff(p: Protocol, names: seq<string>, values: seq<string>)
    requires Regular(p) && |names| == |values|
    requires forall i :: 0 <= i < |names| ==> PlainName(names[i])
    ensures Occurs(Frames(names, values), p.end) <==> exists i :: 0 <= i < |names| && Occurs(values[i], p.end)
  {
    if names != [] {
      EndAcrossFrame(p, names[0], values[0], Frames(names[1..], values[1..]));
      EndInFramesIff(p, names[1..], values[1..]);
      if i :| 0 <= i < |names| && Occurs(values[i], p.end) {
        assert i > 0 ==> Occurs(values[1..][i - 1], p.end);
      }
    }
  }

  /** The payload is what the two markers enclose. */
  lemma PayloadIff(p: Protocol, stdout: string, pre: string, payload: string, post: string)
    requires Regular(p)
    requires stdout == pre + p.begin + (payload + p.end + post)
    requires !Occurs(pre, p.begin)
    ensures Payload(p, stdout) == Some(payload) <==> !Occurs(payload, p.end) && !Occurs(post, p.end)
  {
    var tail := payload + p.end + post;
    assert pre + p.begin[..0] == pre && payload + p.end[..0] == payload;
    FindsWrittenIff(pre, p.begin, tail, 0);
    assert stdout[|pre| + |p.begin|..] == tail;
    FindsWrittenIff(payload, p.end, post, 0);
    assert tail[..|payload|] == payload && tail[|payload| + |p.end|..] == post;
  }

  /** Where a payload is found, the text around it free of stray markers can be named. */
  lemma PayloadSplits(p: Protocol, stdout: string) returns (pre: string, post: string)
    requires Regular(p) && Payload(p, stdout).Some?
    ensures stdout == pre + p.begin + (Payload(p, stdout).value + p.end + post)
    ensures !Occurs(pre, p.begin) && !Occurs(Payload(p, stdout).value, p.end) && !Occurs(post, p.end)
  {
    var tail;
    pre, tail := SplitAtFirst(stdout, p.begin);
    var payload;
    payload, post := SplitAtFirst(tail, p.end);
    assert stdout[|pre| + |p.begin|..] == tail;
    assert tail[..|payload|] == payload && tail[|payload| + |p.end|..] == post;
  }

  lemma SplitAtFirst(s: string, marker: string) returns (before: string, after: string)
    requires MeetsItselfWithin(marker, 0) && Find(s, marker).Some?
    ensures |before| == Find(s, marker).value && s == before + marker + after && !Occurs(before, marker)
  {
    var i := Find(s, marker).value;
    before, after := s[..i], s[i + |marker|..];
    assert s == s[..i] + s[i..i + |marker|] + s[i + |marker|..];
    assert before + marker[..0] == before;
    FindsWrittenIff(before, marker, after, 0);
  }

  /** An unambiguous rendering of valid text parses back to its values. */
  lemma RenderedParses(p: Protocol, stdout: string, pre: string, values: seq<string>, post: string)
    requires Regular(p) && ValidUtf8(stdout)
    requires Rendered(p, stdout, pre, values, post) && Unambiguous(p, pre, values, post)
    ensures Parse(p, stdout) == Some(values)
  {
    var payload := Frames(p.names, values);
    EndInFramesIff(p, p.names, values);
    PayloadIff(p, stdout, pre, payload, post);
    ParseFramesIff(p.names, payload, values);
  }

  /** Every accepted output is an unambiguous rendering of the values it yields. */
  lemma ParsedIsRendered(p: Protocol, stdout: string) returns (pre: string, post: string)
    requires Regular(p) && Parse(p, stdout).Some?
    ensures ValidUtf8(stdout)
    ensures Rendered(p, stdout, pre, Parse(p, stdout).value, post)
    ensures Unambiguous(p, pre, Parse(p, stdout).value, post)
  {
    pre, post := PayloadSplits(p, stdout);
    var payload, values := Payload(p, stdout).value, Parse(p, stdout).value;
    ParseFramesIff(p.names, payload, values);
    EndInFramesIff(p, p.names, values);
  }

  /** The parser accepts exactly the valid unambiguous renderings, with their values. */
  lemma ParseIff(p: Protocol, stdout: string, values: seq<string>)
    requires Regular(p)
    ensures Parse(p, stdout) == Some(values)
       <==> ValidUtf8(stdout)
            && exists pre, post :: Rendered(p, stdout, pre, values, post) && Unambiguous(p, pre, values, post)
  {
    if Parse(p, stdout) == Some(values) {
      var pre, post := ParsedIsRendered(p, stdout);
    }
    if ValidUtf8(stdout) &&
       exists pre, post :: Rendered(p, stdout, pre, values, post) && Unambiguous(p, pre, values, post) {
      var pre, post :| Rendered(p, stdout, pre, values, post) && Unambiguous(p, pre, values, post);
      RenderedParses(p, stdout, pre, values, post);
    }
  }

  /** Two occurrences of a marker that meets itself nowhere are at least a marker apart. */
  lemma OccurrencesApart(s: string, marker: string, i: nat, j: nat)
    requires MeetsItselfWithin(marker, 0) && At(s, marker, i) && At(s, marker, j) && i < j
    ensures i + |marker| <= j
  {
    var e := i + |marker| - 1;
    ElementAt(s, marker, i, e);
    if j <= e {
      ElementAt(s, marker, j, e);
      assert false;
    }
  }

  lemma ElementAt(s: string, marker: string, i: nat, e: nat)
    requires At(s, marker, i) && i <= e < i + |marker|
    ensures s[e] == marker[e - i]
  {
    assert s[e] == s[i..i + |marker|][e - i];
  }

  /** The noise around the values of an accepted output is determined by the output. */
  lemma RenderingIsUnique(p: Protocol, stdout: string, pre: string, pre': string, values: seq<string>, post: string,
          post': string)
    requires Regular(p)
    requires Rendered(p, stdout, pre, values, post) && Unambiguous(p, pre, values, post)
    requires Rendered(p, stdout, pre', values, post')
    ensures pre == pre' && post == post'
  {
    var frames := Frames(p.names, values);
    var tail, tail' := frames + p.end + post, frames + p.end + post';
    assert pre + p.begin[..0] == pre;
    FindsWrittenIff(pre, p.begin, tail, 0);
    assert At(stdout, p.begin, |pre'|);
    TailsOverlap(stdout, p.begin, pre, tail, pre', tail');
    if |pre| < |pre'| {
      EndRepeats(frames, p.end, post, |pre'| - |pre|, post');
      assert false;
    }
    assert tail[|frames| + |p.end|..] == post && tail'[|frames| + |p.end|..] == post';
  }

  lemma TailsOverlap(s: string, marker: string, pre: string, tail: string, pre': string, tail': string)
    requires s == pre + marker + tail == pre' + marker + tail' && |pre| <= |pre'|
    ensures tail[|pre'| - |pre|..] == tail'
    ensures |pre| == |pre'| ==> pre == pre'
  {
    assert s[|pre| + |marker|..] == tail && s[|pre'| + |marker|..] == tail';
    assert s[..|pre|] == pre && s[..|pre'|] == pre';
  }

  /** A second rendering that starts later brings a second end marker. */
  lemma EndRepeats(frames: string, end: string, post: string, gap: nat, post': string)
    requires MeetsItselfWithin(end, 0) && 0 < gap <= |frames + end + post|
    requires (frames + end + post)[gap..] == frames + end + post'
    ensures Occurs(post, end)
  {
    var tail, tail' := frames + end + post, frames + end + post';
    var start := |frames|;
    assert At(tail, end, start) && At(tail', end, start);
    assert tail'[start..start + |end|] == tail[start + gap..start + gap + |end|];
    OccurrencesApart(tail, end, start, start + gap);
    assert post == tail[start + |end|..];
    assert At(post, end, gap - |end|);
  }

  /** A rendering of `values` parses back to them exactly when it is valid and unambiguous. */
  lemma RenderedParsesIff(p: Protocol, stdout: string, pre: string, values: seq<string>, post: string)
    requires Regular(p) && Rendered(p, stdout, pre, values, post)
    ensures Parse(p, stdout) == Some(values) <==> ValidUtf8(stdout) && Unambiguous(p, pre, values, post)
  {
    if Parse(p, stdout) == Some(values) {
      var pre', post' := ParsedIsRendered(p, stdout);
      RenderingIsUnique(p, stdout, pre', pre, values, post', post);
    }
    if ValidUtf8(stdout) && Unambiguous(p, pre, values, post) {
      RenderedParses(p, stdout, pre, values, post);
    }
  }

  /** Framed text is valid exactly when every value and what follows are. */
  lemma {:induction false} FramesUtf8(names: seq<string>, values: seq<string>, rest: string)
    requires |names| == |values|
    requires forall i :: 0 <= i < |names| ==> PlainName(names[i])
    ensures ValidUtf8(Frames(names, values) + rest)
       <==> ValidUtf8(rest) && forall i :: 0 <= i < |values| ==> ValidUtf8(values[i])
  {
    if names == [] {
      assert Frames(names, values) + rest == rest;
    } else {
      var more := Frames(names[1..], values[1..]) + rest;
      assert Frames(names, values) + rest == Opening(names[0]) + (values[0] + Closing(names[0]) + more);
      AsciiPrefix(Opening(names[0]), values[0] + Closing(names[0]) + more);
      Utf8IgnoresAsciiFrame(values[0], Closing(names[0]), more);
      FramesUtf8(names[1..], values[1..], rest);
      assert forall i :: 1 <= i < |values| ==> values[i] == values[1..][i - 1];
    }
  }

  /** What a command's output must satisfy for its section to survive the trip. */
  ghost predicate Survives(p: Protocol, name: string, output: string) {
    var value := Head(output);
    ValidUtf8(value) && Frameable(name, value) && !Occurs(value, p.end)
  }

  /** Each output survives exactly when all heads are valid text and fit their frames. */
  lemma SurvivalSplits(p: Protocol, outputs: seq<string>)
    requires |outputs| == |p.names|
    ensures (forall i :: 0 <= i < |p.names| ==> Survives(p, p.names[i], outputs[i])) <==>
            && (forall i :: 0 <= i < |outputs| ==> ValidUtf8(Heads(outputs)[i]))
            && (forall i :: 0 <= i < |p.names| ==>
                Frameable(p.names[i], Heads(outputs)[i]) && !Occurs(Heads(outputs)[i], p.end))
  {
    assert forall i :: 0 <= i < |outputs| ==> Heads(outputs)[i] == Head(outputs[i]);
  }

  lemma EndAfterNewline(p: Protocol, post: string)
    requires Regular(p)
    ensures Occurs("\n" + post, p.end) <==> Occurs(post, p.end)
  {
    assert "\n" + post == "" + ['\n'] + post;
    OccursAcrossForeign("", '\n', post, p.end);
    assert !Occurs("", p.end);
  }

  lemma PrintedAndUnambiguous(p: Protocol, pre: string, heads: seq<string>, post: string)
    requires Regular(p) && |heads| == |p.names|
    ensures Parse(p, pre + p.begin + (Frames(p.names, heads) + p.end + ("\n" + post))) == Some(heads)
       <==> ValidUtf8(pre) && ValidUtf8(post) && (forall i :: 0 <= i < |heads| ==> ValidUtf8(heads[i]))
            && Unambiguous(p, pre, heads, "\n" + post)
  {
    RenderedParsesIff(p, pre + p.begin + (Frames(p.names, heads) + p.end + ("\n" + post)), pre, heads, "\n" + post);
    RenderingUtf8(p, pre, heads, post);
  }

  /** End to end: the script's output, written by the callback between other log text, is read
    back as the bounded command outputs exactly under conditions on each part alone. */
  lemma PrintedParsesIff(p: Protocol, script: string, pre: string, outputs: seq<string>, post: string)
    requires Regular(p) && |outputs| == |p.names|
    requires script == p.begin + Frames(p.names, Heads(outputs)) + p.end + "\n"
    ensures Parse(p, pre + CallbackOutput(script) + post) == Some(Heads(outputs))
       <==> ValidUtf8(pre) && !Occurs(pre, p.begin) && ValidUtf8(post) && !Occurs(post, p.end)
            && forall i :: 0 <= i < |p.names| ==> Survives(p, p.names[i], outputs[i])
  {
    Regroup(pre, p.begin, Frames(p.names, Heads(outputs)), p.end, post);
    PrintedAndUnambiguous(p, pre, Heads(outputs), post);
    EndAfterNewline(p, post);
    SurvivalSplits(p, outputs);
  }

  lemma RenderingUtf8(p: Protocol, pre: string, values: seq<string>, post: string)
    requires Regular(p) && |values| == |p.names|
    ensures ValidUtf8(pre + p.begin + (Frames(p.names, values) + p.end + ("\n" + post)))
       <==> ValidUtf8(pre) && ValidUtf8(post) && forall i :: 0 <= i < |values| ==> ValidUtf8(values[i])
  {
    var frames, last := Frames(p.names, values), p.end + "\n";
    Utf8IgnoresAsciiFrame(pre, p.begin, frames + p.end + ("\n" + post));
    assert frames + p.end + ("\n" + post) == frames + (last + post);
    FramesUtf8(p.names, values, last + post);
    AsciiPrefix(last, post);
  }

  lemma Regroup(pre: string, begin: string, frames: string, end: string, post: string)
    ensures pre + (begin + frames + end + "\n") + post == pre + begin + (frames + end + ("\n" + post))
  {
  }

  /** The byte bound can cut a character: a command whose whole output is valid text
    then makes the report unreadable. */
  lemma HeadCanCutACharacter() returns (output: string)
    ensures ValidUtf8(output) && !ValidUtf8(Head(output))
  {
    var letters := seq(MAX_SECTION_BYTES - 1, _ => 'x');
    var character := [0xC3 as char, 0xA9 as char];
    output := letters + character;
    AsciiPrefix(letters, character);
    AsciiPrefix(letters, character[..1]);
    assert ValidUtf8(character[2..]);
    assert Head(output) == letters + character[..1];
  }
}
