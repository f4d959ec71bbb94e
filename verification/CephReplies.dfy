/** How the Ceph client reads one HTTP reply: errors, response bodies, task identities. */
module CephReplies {
  import opened Wrappers
  import opened Json
  import opened RustText
  import opened Decimals
  import BoundedRead

  datatype Error =
    | InvalidArguments
    | CapacityExhausted
    | Timeout
    | Unauthorized
    | NotFound
    | UnsupportedAction
    | QueryRejected
    | MutationRejected
    | MutationOutcomeUnknown
    | UnsafeToDestroy
    | UpstreamUnavailable
    | InvalidResponse
    | ResponseTooLarge

  /** The errors the tool reports as worth retrying. */
  predicate Retryable(e: Error) {
    e.CapacityExhausted? || e.Timeout? || e.UpstreamUnavailable?
  }

  /** The errors that remain once a mutation may have reached the cluster. */
  predicate PossibleAfterDispatch(e: Error) {
    e.Unauthorized? || e.NotFound? || e.MutationRejected? || e.MutationOutcomeUnknown?
  }

  const MAX_RESPONSE_BYTES: nat := 4 * 1024 * 1024

  datatype Operation = Query | Mutation

  // `decoded` is what JSON decoding makes of the bytes received.
  datatype Reply =
    | NoReply
    | Response(status: nat, declared: Option<nat>, chunks: seq<BoundedRead.Read>, decoded: Option<Value>)

  datatype Sent = Answered(status: nat, body: Value) | Refused(error: Error)

  predicate Success(status: nat) {
    200 <= status < 300
  }

  predicate ClientError(status: nat) {
    400 <= status < 500
  }

  function FailureOf(op: Operation): Error {
    if op.Query? then UpstreamUnavailable else MutationOutcomeUnknown
  }

  function TooLargeOf(op: Operation): Error {
    if op.Query? then ResponseTooLarge else MutationOutcomeUnknown
  }

  /** `parse_bytes` after `read_limited`. */
  function ReadBody(op: Operation, reply: Reply): Sent
    requires reply.Response?
  {
    match BoundedRead.LimitedBody(reply.declared, reply.chunks, MAX_RESPONSE_BYTES)
    case Err(error) => Refused(if error.TooLarge? then TooLargeOf(op) else FailureOf(op))
    case Ok(bytes) =>
      if bytes == "" then Answered(reply.status, Null)
      else if reply.decoded.Some? then Answered(reply.status, reply.decoded.value)
      else Refused(if op.Query? then InvalidResponse else MutationOutcomeUnknown)
  }

  /** What `send` makes of a reply. */
  function Classify(op: Operation, reply: Reply): Sent {
    if reply.NoReply? then Refused(FailureOf(op))
    else if reply.status == 401 then Refused(Unauthorized)
    else if reply.status == 403 then Refused(if op.Query? then Unauthorized else MutationRejected)
    else if reply.status == 404 then Refused(NotFound)
    else if !Success(reply.status) then
      Refused(if op.Query? then (if ClientError(reply.status) then QueryRejected else UpstreamUnavailable)
              else (if ClientError(reply.status) then MutationRejected else MutationOutcomeUnknown))
    else ReadBody(op, reply)
  }

  // ---------- Login replies ----------

  /** The token in the body of a login reply: a nonempty text of at most 16 kibibytes without control characters. */
  function TokenIn(body: Value): Option<string> {
    var field :- Get(body, "token");
    var token :- AsText(field);
    if token != "" && ByteLength(token) <= 16 * 1024 && !HasControl(token) then Some(token) else None
  }

  /** Why a login fails, if it does. */
  function LoginFailure(reply: Reply): Option<Error> {
    if reply.NoReply? then Some(UpstreamUnavailable)
    else if reply.status == 401 || reply.status == 403 then Some(Unauthorized)
    else if !Success(reply.status) then Some(UpstreamUnavailable)
    else
      match ReadBody(Query, reply)
      case Refused(error) => Some(error)
      case Answered(_, body) => if TokenIn(body).Some? then None else Some(InvalidResponse)
  }

  // ---------- Mutation results ----------

  datatype Action = Mark | Reweight | Scrub | Destroy | Purge

  predicate Destructive(a: Action) {
    a.Destroy? || a.Purge?
  }

  datatype Outcome = Answer | Completed | Accepted(task: nat) | Failed(error: Error)

  /** `numeric_osd_id`: a number, or at most ten digits, within 32 bits. */
  function NumericOsdId(v: Value): Option<nat> {
    if AsU64(v).Some? then (if AsU64(v).value < U32_LIMIT then AsU64(v) else None)
    else
      var s :- AsText(v);
      if s != "" && ByteLength(s) <= 10 && AllDigits(s) && Decimals.Value(s) < U32_LIMIT
      then Some(Decimals.Value(s))
      else None
  }

  /** The OSD a task entry deletes. */
  function DeleteTask(v: Value): Option<nat> {
    var name :- Get(v, "name");
    if name != Text("osd/delete") then None
    else
      var metadata :- Get(v, "metadata");
      var id :- Get(metadata, "svc_id");
      NumericOsdId(id)
  }

  /** `mutation_result` over `mutation_task`. */
  function MutationOutcome(a: Action, osd: nat, status: nat, body: Value): Outcome {
    if status == 200 then Completed
    else if status == 202 && Destructive(a) && DeleteTask(body) == Some(osd) then Accepted(osd)
    else Failed(MutationOutcomeUnknown)
  }

  // ---------- The safe-to-destroy preflight ----------

  predicate Plain(s: string, limit: nat) {
    ByteLength(s) <= limit && !HasControl(s)
  }

  predicate BoundedScalars(v: Option<Value>) {
    v.Some? ==>
      v.value.Array? && |v.value.items| <= 100
      && forall i :: 0 <= i < |v.value.items| ==>
           var item := v.value.items[i];
           item.Bool? || item.Number? || item.Fraction? || (item.Text? && Plain(item.text, 128))
  }

  predicate BoundedText(v: Option<Value>, limit: nat) {
    v.Some? ==> v.value.Null? || (v.value.Text? && Plain(v.value.text, limit))
  }

  predicate BoundedTexts(v: Option<Value>, count: nat, limit: nat) {
    v.Some? ==>
      v.value.Array? && |v.value.items| <= count
      && forall i :: 0 <= i < |v.value.items| ==> v.value.items[i].Text? && Plain(v.value.items[i].text, limit)
  }

  /** `normalize::safe_to_destroy`: what the reply says about safety, if it is well formed. */
  function ReportsSafe(body: Value): Option<bool> {
    var field :- Get(body, "is_safe_to_destroy");
    var safe :- AsBool(field);
    if BoundedScalars(Get(body, "active")) && BoundedScalars(Get(body, "missing_stats"))
       && BoundedScalars(Get(body, "stored_pgs")) && BoundedText(Get(body, "message"), 4096)
    then Some(safe) else None
  }

  /** No control characters, by their codes. */
  predicate Clean(s: string) {
    forall i :: 0 <= i < |s| ==> 0x20 <= s[i] as int <= 0x7E || 0xA0 <= s[i] as int
  }

  lemma CleanIff()
    ensures forall s :: Clean(s) <==> !HasControl(s)
  {
  }

  /** The field is absent, null, or a short text without control characters. */
  predicate Modest(v: Value, key: string, limit: nat) {
    v.Object? && key in v.fields ==>
      var field := v.fields[key];
      field == Null || (field.Text? && ByteLength(field.text) <= limit && Clean(field.text))
  }

  lemma BoundedTextIff(v: Value, key: string, limit: nat)
    ensures BoundedText(Get(v, key), limit) <==> Modest(v, key, limit)
  {
    CleanIff();
  }

  /** The field is absent or a list of at most 100 truth values, numbers and short clean texts. */
  predicate ModestScalars(v: Value, key: string) {
    v.Object? && key in v.fields ==>
      && v.fields[key].Array? && |v.fields[key].items| <= 100
      && forall i :: 0 <= i < |v.fields[key].items| ==>
           var item := v.fields[key].items[i];
           && !item.Null? && !item.Array? && !item.Object?
           && (item.Text? ==> ByteLength(item.text) <= 128 && Clean(item.text))
  }

  lemma BoundedScalarsIff(v: Value, key: string)
    ensures BoundedScalars(Get(v, key)) <==> ModestScalars(v, key)
  {
    CleanIff();
  }

  /** What a preflight answer says, over all answers: its flag must be a truth value and its other fields modest. */
  lemma ReportsSafeIff(body: Value, safe: bool)
    ensures ReportsSafe(body) == Some(safe) <==>
      && body.Object? && "is_safe_to_destroy" in body.fields && body.fields["is_safe_to_destroy"] == Bool(safe)
      && ModestScalars(body, "active") && ModestScalars(body, "missing_stats") && ModestScalars(body, "stored_pgs")
      && Modest(body, "message", 4096)
  {
    BoundedScalarsIff(body, "active");
    BoundedScalarsIff(body, "missing_stats");
    BoundedScalarsIff(body, "stored_pgs");
    BoundedTextIff(body, "message", 4096);
  }

  // ---------- What the classification guarantees ----------

  /** A mutation's reply is never turned into a retryable error, a query's never into a mutation error. */
  lemma ClassifyErrors(op: Operation, reply: Reply)
    requires Classify(op, reply).Refused?
    ensures op.Mutation? ==> PossibleAfterDispatch(Classify(op, reply).error) && !Retryable(Classify(op, reply).error)
    ensures op.Query? ==>
        !Classify(op, reply).error.MutationRejected? && !Classify(op, reply).error.MutationOutcomeUnknown?
    ensures Classify(op, reply).error.Unauthorized? <==>
      reply.Response? && (reply.status == 401 || (reply.status == 403 && op.Query?))
  {
  }

  /** An answer is a success status with the whole body within the limit, however it was cut. */
  lemma ClassifyAnswers(op: Operation, status: nat, declared: Option<nat>, chunks: seq<string>,
          decoded: Option<Value>, body: Value)
    ensures Classify(op, Response(status, declared, BoundedRead.AsReads(chunks), decoded)) == Answered(status, body)
       <==> Success(status) && (declared.Some? ==> declared.value <= MAX_RESPONSE_BYTES)
            && |BoundedRead.Concat(chunks)| <= MAX_RESPONSE_BYTES
            && (if BoundedRead.Concat(chunks) == "" then body == Null else decoded == Some(body))
  {
    BoundedRead.ReceivedOfChunks(chunks);
    BoundedRead.LimitedBodyIff(declared, chunks, MAX_RESPONSE_BYTES);
  }

  // ---------- Replies by their raw fields ----------

  predicate Succeeds(reply: Reply) {
    reply.Response? && 200 <= reply.status <= 299
  }

  predicate TooBig(reply: Reply) {
    Succeeds(reply) && ((reply.declared.Some? && reply.declared.value > 4194304) ||
        |BoundedRead.Received(reply.chunks)| > 4194304)
  }

  predicate CutOff(reply: Reply) {
    Succeeds(reply) && !TooBig(reply) && BoundedRead.Failed in reply.chunks
  }

  /** A whole body within the limit. */
  predicate Whole(reply: Reply) {
    Succeeds(reply) && !TooBig(reply) && BoundedRead.Failed !in reply.chunks
  }

  predicate Garbled(reply: Reply) {
    Whole(reply) && BoundedRead.Received(reply.chunks) != "" && reply.decoded.None?
  }

  predicate Delivers(reply: Reply, body: Value) {
    Whole(reply) && (if BoundedRead.Received(reply.chunks) == "" then body == Null else reply.decoded == Some(body))
  }

  predicate Rejects(reply: Reply) {
    reply.Response? && 400 <= reply.status <= 499
  }

  /** A reply that says neither that the request was refused nor that it succeeded. */
  predicate Unclear(reply: Reply) {
    reply.NoReply? || (!Succeeds(reply) && !Rejects(reply)) || CutOff(reply)
  }

  /** Which replies become which result, over all replies. */
  lemma ClassifyTable(op: Operation, reply: Reply)
    ensures var r := Classify(op, reply); var query := op.Query?;
            && (r == Refused(Unauthorized) <==>
                  reply.Response? && (reply.status == 401 || (reply.status == 403 && query)))
            && (r == Refused(NotFound) <==> reply.Response? && reply.status == 404)
            && (r == Refused(QueryRejected) <==>
                  query && Rejects(reply) && reply.status != 401 && reply.status != 403 && reply.status != 404)
            && (r == Refused(MutationRejected) <==>
                  !query && Rejects(reply) && reply.status != 401 && reply.status != 404)
            && (r == Refused(UpstreamUnavailable) <==> query && Unclear(reply))
            && (r == Refused(ResponseTooLarge) <==> query && TooBig(reply))
            && (r == Refused(InvalidResponse) <==> query && Garbled(reply))
            && (r == Refused(MutationOutcomeUnknown) <==>
                  !query && (Unclear(reply) || TooBig(reply) || Garbled(reply)))
            && (forall body :: Delivers(reply, body) <==> reply.Response? && r == Answered(reply.status, body))
            && (r.Answered? ==> reply.Response? && r.status == reply.status)
  {
  }

  /** The body shows a token. */
  predicate ShowsToken(body: Value) {
    && body.Object? && "token" in body.fields && body.fields["token"].Text?
    && body.fields["token"].text != "" && ByteLength(body.fields["token"].text) <= 16384
    && Clean(body.fields["token"].text)
  }

  /** Which replies to a login grant a token, and how each other one fails. */
  lemma LoginTable(reply: Reply)
    ensures var r := LoginFailure(reply);
            && (r == None <==>
                  && Whole(reply) && !Garbled(reply) && BoundedRead.Received(reply.chunks) != ""
                  && ShowsToken(reply.decoded.value))
            && (r == Some(Unauthorized) <==> reply.Response? && (reply.status == 401 || reply.status == 403))
            && (r == Some(UpstreamUnavailable) <==>
                  || reply.NoReply? || CutOff(reply)
                  || (reply.Response? && !Succeeds(reply) && reply.status != 401 && reply.status != 403))
            && (r == Some(ResponseTooLarge) <==> TooBig(reply))
            && (r == Some(InvalidResponse) <==>
                  && Whole(reply)
                  && (Garbled(reply) || BoundedRead.Received(reply.chunks) == "" || !ShowsToken(reply.decoded.value)))
            && (r.Some? ==>
                  r.value.Unauthorized? || r.value.UpstreamUnavailable? || r.value.ResponseTooLarge? ||
                      r.value.InvalidResponse?)
  {
    CleanIff();
  }

  /** A task names its OSD as a number below two to the 32nd, or as a text of at most ten characters that is the
    number's numeral, possibly behind zeroes. */
  lemma NumericOsdIdIff(v: Value, osd: nat)
    ensures NumericOsdId(v) == Some(osd) <==>
      osd < 4294967296 &&
          (v == Number(osd) || exists z: nat :: z + |Numeral(osd)| <= 10 && v == Text(Zeros(z) + Numeral(osd)))
  {
    if v.Text? {
      DenotesIff(v.text, osd);
      if AllDigits(v.text) {
        AsciiByteLength(v.text);
      }
    }
  }
}
