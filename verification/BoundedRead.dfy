/** Bounded readers over streams that arrive in chunks. */
module BoundedRead {
  import opened Wrappers

  datatype Read = Chunk(bytes: string) | Failed

  datatype LimitError = TooLarge | ReadFailed

  // ---------- Process output: an empty read marks the end ----------

  /** The bytes before the end of the stream, or nothing when a read fails first. */
  function Content(input: seq<Read>): Option<string> {
    if input == [] then Some("")
    else match input[0]
      case Failed => None
      case Chunk(bytes) =>
        if bytes == "" then Some("")
        else
          var rest :- Content(input[1..]);
          Some(bytes + rest)
  }

  /** What a reader that keeps at most `limit` bytes must return. */
  function Bounded(content: Option<string>, limit: nat): Option<string> {
    if content.Some? && |content.value| <= limit then content else None
  }

  function Prepend(done: string, content: Option<string>): Option<string> {
    match content
    case None => None
    case Some(rest) => Some(done + rest)
  }

  /** `drain`: nothing is returned on a failed read or once the limit would be passed. */
  method Drain(input: seq<Read>, limit: nat) returns (r: Option<string>)
    ensures r == Bounded(Content(input), limit)
  {
    var output := "";
    assert input[0..] == input;
    assert forall rest: string :: "" + rest == rest;
    for i := 0 to |input|
      invariant |output| <= limit
      invariant Content(input) == Prepend(output, Content(input[i..]))
    {
      ghost var before := output;
      match input[i] {
        case Failed =>
          return None;
        case Chunk(bytes) =>
          if bytes == "" {
            assert output + "" == output;
            return Some(output);
          }
          if |bytes| > limit - |output| {
            return None;
          }
          output := output + bytes;
          assert input[i..][1..] == input[i + 1..];
          assert forall rest: string :: before + (bytes + rest) == before + bytes + rest;
      }
    }
    assert output + "" == output;
    return Some(output);
  }

  function Concat(chunks: seq<string>): string {
    if chunks == [] then "" else chunks[0] + Concat(chunks[1..])
  }

  function AsReads(chunks: seq<string>): seq<Read> {
    seq(|chunks|, i requires 0 <= i < |chunks| => Chunk(chunks[i]))
  }

  /** Without failures only the joined bytes matter, not where the chunks were cut. */
  lemma {:induction false} ContentOfChunks(chunks: seq<string>, rest: seq<Read>)
    requires forall i :: 0 <= i < |chunks| ==> chunks[i] != ""
    ensures Content(AsReads(chunks) + [Chunk("")] + rest) == Some(Concat(chunks))
    ensures Content(AsReads(chunks)) == Some(Concat(chunks))
  {
    if chunks != [] {
      assert (AsReads(chunks) + [Chunk("")] + rest)[1..] == AsReads(chunks[1..]) + [Chunk("")] + rest;
      assert AsReads(chunks)[1..] == AsReads(chunks[1..]);
      ContentOfChunks(chunks[1..], rest);
    }
  }

  // ---------- HTTP bodies: a declared length, then chunks until the end ----------

  /** The bytes received before the first failed read. */
  function Received(input: seq<Read>): string {
    if input == [] || input[0].Failed? then "" else input[0].bytes + Received(input[1..])
  }

  /** The limit is judged on the bytes received before any failure. */
  function LimitedBody(declared: Option<nat>, input: seq<Read>, limit: nat): Result<string, LimitError> {
    if declared.Some? && declared.value > limit then Err(TooLarge)
    else if |Received(input)| > limit then Err(TooLarge)
    else if Failed in input then Err(ReadFailed)
    else Ok(Received(input))
  }

  /** `read_limited` and `read_json`: the body within the limit, or the first thing that went wrong. */
  method ReadLimited(declared: Option<nat>, input: seq<Read>, limit: nat) returns (r: Result<string, LimitError>)
    ensures r == LimitedBody(declared, input, limit)
  {
    if declared.Some? && declared.value > limit {
      return Err(TooLarge);
    }
    var bytes := "";
    assert input[0..] == input;
    for i := 0 to |input|
      invariant |bytes| <= limit
      invariant Received(input) == bytes + Received(input[i..])
      invariant forall j :: 0 <= j < i ==> input[j] != Failed
    {
      assert input[i..][1..] == input[i + 1..];
      match input[i] {
        case Failed =>
          assert input[i] in input;
          return Err(ReadFailed);
        case Chunk(chunk) =>
          assert Received(input) == bytes + chunk + Received(input[i + 1..]);
          if |chunk| > limit - |bytes| {
            return Err(TooLarge);
          }
          bytes := bytes + chunk;
      }
    }
    assert bytes + "" == bytes;
    return Ok(bytes);
  }

  lemma {:induction false} ReceivedOfChunks(chunks: seq<string>)
    ensures Received(AsReads(chunks)) == Concat(chunks) && Failed !in AsReads(chunks)
  {
    if chunks != [] {
      assert AsReads(chunks)[1..] == AsReads(chunks[1..]);
      ReceivedOfChunks(chunks[1..]);
    }
  }

  /** An undeclared or honestly bounded body is returned whole, whatever its chunking, exactly when it fits. */
  lemma LimitedBodyIff(declared: Option<nat>, chunks: seq<string>, limit: nat)
    ensures LimitedBody(declared, AsReads(chunks), limit) == Ok(Concat(chunks))
       <==> |Concat(chunks)| <= limit && (declared.Some? ==> declared.value <= limit)
    ensures LimitedBody(declared, AsReads(chunks), limit).Err?
       ==> LimitedBody(declared, AsReads(chunks), limit).error == TooLarge
  {
    ReceivedOfChunks(chunks);
  }

  lemma {:induction false} ReceivedBeforeFailure(chunks: seq<string>, rest: seq<Read>)
    ensures Received(AsReads(chunks) + [Failed] + rest) == Concat(chunks)
  {
    if chunks != [] {
      assert (AsReads(chunks) + [Failed] + rest)[1..] == AsReads(chunks[1..]) + [Failed] + rest;
      ReceivedBeforeFailure(chunks[1..], rest);
    }
  }

  /** A body whose reading fails is too large if it was declared or already received as such, and else unreadable. */
  lemma LimitedBodyFails(declared: Option<nat>, chunks: seq<string>, rest: seq<Read>, limit: nat)
    ensures LimitedBody(declared, AsReads(chunks) + [Failed] + rest, limit) ==
        Err(if |Concat(chunks)| > limit || (declared.Some? && declared.value > limit) then TooLarge else ReadFailed)
  {
    ReceivedBeforeFailure(chunks, rest);
    assert (AsReads(chunks) + [Failed] + rest)[|chunks|] == Failed;
  }

  /** Process output whose reading fails before its end is lost. */
  lemma {:induction false} FailedContent(chunks: seq<string>, rest: seq<Read>)
    requires forall i :: 0 <= i < |chunks| ==> chunks[i] != ""
    ensures Content(AsReads(chunks) + [Failed] + rest) == None
  {
    if chunks != [] {
      assert (AsReads(chunks) + [Failed] + rest)[1..] == AsReads(chunks[1..]) + [Failed] + rest;
      FailedContent(chunks[1..], rest);
    }
  }
}
