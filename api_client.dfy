/**
 * The HTTP client of the harness (`client/api_client.py`): the headers it
 * sends, the request bodies it builds, the retry budget of its requests, the
 * state `login` leaves behind, and the line decoder of its SSE streams.
 *
 * The network is an oracle: the reply to the n-th attempt of a request is
 * `replies(n)` (attempts count from 1), and `json.loads` is the partial
 * function `parse`. The sleeps between attempts are recorded, in whole
 * milliseconds, instead of being waited for.
 */
module ApiClient {
  import opened Json
  import opened Text
  import opened Cards

  /** A `str | None` attribute that `if self.x:` finds set: present and non-empty. */
  predicate IsSetText(o: Option<string>)
  {
    o.Some? && o.value != ""
  }

  /** `s.rstrip("/")` */
  function RStripSlash(s: string): (r: string)
    ensures r <= s
    ensures r == [] || r[|r| - 1] != '/'
    ensures forall i :: |r| <= i < |s| ==> s[i] == '/'
  {
    if s != [] && s[|s| - 1] == '/' then RStripSlash(s[..|s| - 1]) else s
  }

  // ---------------------------------------------------------------------
  // Retry budget

  /** What the server does with one attempt: a status and a body (None when it is not JSON), or a transport failure. */
  datatype Reply = Reply(status: int, body: Option<Json>) | TransportFailure

  /** The gateway statuses a restarting service produces. */
  predicate Gateway(status: int)
  {
    status == 502 || status == 503 || status == 504
  }

  /** The statuses `raise_for_status` lets through. */
  predicate Success(status: int)
  {
    200 <= status < 300
  }

  /** A request's result together with the number of attempts it made. */
  datatype Outcome = Outcome(result: Result<Json>, attempts: nat)

  /**
   * `int(os.getenv("E2E_HTTP_GET_RETRIES", "60") or 60)`: 60 when the
   * variable is unset or empty, its integer value otherwise, and a
   * ValueError when it is not an integer.
   */
  function GetRetries(env: Option<string>): (r: Result<int>)
    ensures env.None? || env == Some("") ==> r == Ok(60)
    ensures r.Err? ==> r.error == ValueError && env.Some? && ParseInt(env.value).None?
    ensures env.Some? && env.value != "" && ParseInt(env.value).Some? ==> r == Ok(ParseInt(env.value).value)
    ensures env.Some? && env.value != "" && ParseInt(env.value).None? ==> r == Err(ValueError)
  {
    if env.None? || env.value == "" then Ok(60)
    else match ParseInt(env.value)
      case None => Err(ValueError)
      case Some(n) => Ok(n)
  }

  /** A retry count written back as text is read again as the same count. */
  lemma GetRetriesReadsBack(n: int)
    ensures GetRetries(Some(IntToString(n))) == Ok(n)
  {
    IntRoundTrip(n);
  }

  /** The attempt budget: the GET retry count for GET, whatever its case, and one attempt for every other verb. */
  function MaxAttempts(verb: string, retries: int): int
  {
    if Upper(verb) == "GET" then retries else 1
  }

  /** `min(4.0, 0.5 * attempt)` seconds, in milliseconds: half a second more per attempt, at most four seconds. */
  function Backoff(attempt: nat): (ms: nat)
    ensures ms <= 4000
    ensures attempt <= 8 ==> ms == 500 * attempt
    ensures attempt >= 8 ==> ms == 4000
  {
    if 500 * attempt < 4000 then 500 * attempt else 4000
  }

  /** What one attempt of `_request` yields when it is not retried: the decoded body, or the exception it raises. */
  function AttemptResult(reply: Reply): (r: Result<Json>)
    ensures r.Ok? <==> reply.Reply? && Success(reply.status) && reply.body.Some?
    ensures reply.Reply? && !Success(reply.status) ==> r == Err(HttpStatusError(reply.status))
  {
    match reply
    case TransportFailure => Err(TransportError)
    case Reply(status, body) =>
      if !Success(status) then Err(HttpStatusError(status))
      else if body.None? then Err(ValueError)
      else Ok(body.value)
  }

  /**
   * Attempts `n` to `max`: the first attempt that succeeds is returned; every
   * failure before the last attempt is retried, and the last one is raised.
   */
  function RequestFrom(n: nat, max: nat, replies: nat -> Reply): (o: Outcome)
    requires 1 <= n <= max
    ensures n <= o.attempts <= max
    ensures o.result == AttemptResult(replies(o.attempts))
    ensures forall m :: n <= m < o.attempts ==> AttemptResult(replies(m)).Err?
    ensures o.result.Err? ==> o.attempts == max
    decreases max - n
  {
    var res := AttemptResult(replies(n));
    if res.Ok? || n == max then Outcome(res, n) else RequestFrom(n + 1, max, replies)
  }

  /** A failed attempt that is not the last hands over to the next one. */
  lemma RequestFromNext(n: nat, max: nat, replies: nat -> Reply)
    requires 1 <= n < max && AttemptResult(replies(n)).Err?
    ensures RequestFrom(n, max, replies) == RequestFrom(n + 1, max, replies)
  {
  }

  /** `_request`: the result and attempt count of a request with the given verb and environment. */
  function RequestSpec(verb: string, env: Option<string>, replies: nat -> Reply): Outcome
  {
    match GetRetries(env)
    case Err(e) => Outcome(Err(e), 0)
    case Ok(retries) =>
      var max := MaxAttempts(verb, retries);
      if max < 1 then Outcome(Err(RuntimeError), 0) else RequestFrom(1, max, replies)
  }

  /** Any verb but GET makes exactly one attempt and raises its failure at once. */
  lemma NonGetSingleAttempt(verb: string, env: Option<string>, replies: nat -> Reply)
    requires Upper(verb) != "GET" && GetRetries(env).Ok?
    ensures RequestSpec(verb, env, replies) == Outcome(AttemptResult(replies(1)), 1)
  {
  }

  /**
   * A GET succeeds exactly when one of its first `retries` attempts does, and
   * then with the first successful reply; otherwise it raises what the last
   * attempt raised.
   */
  lemma {:induction false} GetFirstSuccess(verb: string, env: Option<string>, replies: nat -> Reply)
    requires Upper(verb) == "GET" && GetRetries(env).Ok? && GetRetries(env).value >= 1
    ensures RequestSpec(verb, env, replies).result.Ok? <==>
      exists m :: 1 <= m <= GetRetries(env).value && AttemptResult(replies(m)).Ok?
    ensures RequestSpec(verb, env, replies).result.Err? ==>
      RequestSpec(verb, env, replies).result == AttemptResult(replies(GetRetries(env).value))
  {
    var max: nat := GetRetries(env).value;
    var o := RequestFrom(1, max, replies);
    if exists m :: 1 <= m <= max && AttemptResult(replies(m)).Ok? {
      var m :| 1 <= m <= max && AttemptResult(replies(m)).Ok?;
      if o.result.Err? {
        assert m < o.attempts || m == o.attempts;
      }
    }
  }

  /** A retry count that is not positive makes no attempt and raises the fallback RuntimeError. */
  lemma NoBudgetNoAttempt(env: Option<string>, replies: nat -> Reply)
    requires GetRetries(env).Ok? && GetRetries(env).value < 1
    ensures RequestSpec("GET", env, replies) == Outcome(Err(RuntimeError), 0)
  {
    assert Upper("GET") == "GET";
  }

  /** An unreadable retry count raises ValueError before any attempt, whatever the verb. */
  lemma BadRetriesRaiseFirst(verb: string, env: Option<string>, replies: nat -> Reply)
    requires env.Some? && env.value != "" && ParseInt(env.value).None?
    ensures RequestSpec(verb, env, replies) == Outcome(Err(ValueError), 0)
  {
  }

  // ---------------------------------------------------------------------
  // SSE decoding

  /** How the line stream ends once its lines are read: cleanly, cut by the proxy (RemoteProtocolError, ReadTimeout), or by another transport error. */
  datatype Ending = Closed | Cut(message: string) | Broken

  /** The server's answer to one SSE attempt. */
  datatype SseReply = SseReply(status: int, lines: seq<string>, ending: Ending) | SseTransportFailure

  /** The event names that end a stream. */
  predicate Terminal(evt: Json)
  {
    evt == Str("end") || evt == Str("complete")
  }

  /** The name an `event: ` line leaves pending: the stripped rest of the line, None when blank. */
  function PendingEvent(rest: string): (r: Option<string>)
    ensures r.Some? ==> r.value != [] && r.value == Strip(rest)
    ensures r.None? <==> IsBlank(rest)
  {
    StripEmpty(rest);
    var s := Strip(rest);
    if s == "" then None else Some(s)
  }

  /** The payload of a data line: None when blank, the parsed JSON, or `{"raw": text}` when it does not parse. */
  function Payload(raw: string, parse: string -> Option<Json>): Json
  {
    if raw == "" then Null
    else match parse(raw)
      case Some(v) => v
      case None => Obj([Field("raw", Str(raw))])
  }

  /**
   * The event name recorded for a data line. As written, the conditional
   * binds loosest: the pending name, or the payload's own `event`, only when
   * the payload is a dict; None otherwise, pending name or not.
   */
  function EventName(pending: Option<string>, payload: Json): Json
  {
    if payload.Obj? then (if pending.Some? then Str(pending.value) else Get(payload, "event")) else Null
  }

  /** The event a data line appends. */
  function DataEvent(pending: Option<string>, rest: string, parse: string -> Option<Json>): (e: Json)
  {
    var payload := Payload(Strip(rest), parse);
    Obj([Field("event", EventName(pending, payload)), Field("data", payload)])
  }

  /** The name field of a decoded event. */
  function EventOf(e: Json): Json
  {
    Get(e, "event")
  }

  lemma DataEventFields(pending: Option<string>, rest: string, parse: string -> Option<Json>)
    ensures EventOf(DataEvent(pending, rest, parse)) == EventName(pending, Payload(Strip(rest), parse))
    ensures Get(DataEvent(pending, rest, parse), "data") == Payload(Strip(rest), parse)
  {
    var e := DataEvent(pending, rest, parse);
    assert FieldIndex(e.fields, "event") == 0;
    assert FieldIndex(e.fields[1..], "data") == 0;
  }

  predicate IsEventLine(line: string) { StartsWith(line, "event: ") }
  predicate IsDataLine(line: string) { !IsEventLine(line) && StartsWith(line, "data: ") }

  /** How many of the lines from index `i` on are data lines. */
  function DataLines(lines: seq<string>, i: nat): nat
    requires i <= |lines|
    decreases |lines| - i
  {
    if i == |lines| then 0 else (if IsDataLine(lines[i]) then 1 else 0) + DataLines(lines, i + 1)
  }

  /** The events decoded so far and whether a terminal event stopped the decoding. */
  datatype Decoded = Decoded(events: seq<Json>, stopped: bool)

  /**
   * The decoder from line `i` on, given the pending event name: each data
   * line appends one event and clears the name, an event line sets it, any
   * other line is skipped, and the first terminal event stops the decoding.
   */
  function Decode(lines: seq<string>, i: nat, pending: Option<string>, parse: string -> Option<Json>): (d: Decoded)
    requires i <= |lines|
    decreases |lines| - i
  {
    if i == |lines| then Decoded([], false)
    else
      var line := lines[i];
      if IsEventLine(line) then Decode(lines, i + 1, PendingEvent(line[7..]), parse)
      else if StartsWith(line, "data: ") then
        var e := DataEvent(pending, line[6..], parse);
        if Terminal(EventOf(e)) then Decoded([e], true)
        else
          var rest := Decode(lines, i + 1, None, parse);
          Decoded([e] + rest.events, rest.stopped)
      else Decode(lines, i + 1, pending, parse)
  }

  /**
   * Decoding stops exactly on a terminal event, which is then the last event
   * and the only terminal one.
   */
  lemma {:induction false} DecodeStops(lines: seq<string>, i: nat, pending: Option<string>, parse: string -> Option<Json>)
    requires i <= |lines|
    ensures var d := Decode(lines, i, pending, parse);
      && (d.stopped <==> d.events != [] && Terminal(EventOf(d.events[|d.events| - 1])))
      && (forall j :: 0 <= j < |d.events| - 1 ==> !Terminal(EventOf(d.events[j])))
    decreases |lines| - i
  {
    if i < |lines| {
      var line := lines[i];
      if IsEventLine(line) {
        DecodeStops(lines, i + 1, PendingEvent(line[7..]), parse);
      } else if StartsWith(line, "data: ") {
        DecodeStops(lines, i + 1, None, parse);
      } else {
        DecodeStops(lines, i + 1, pending, parse);
      }
    }
  }

  /**
   * Each data line read appends one event, so a stream that did not stop
   * has one event per data line.
   */
  lemma {:induction false} DecodeCounts(lines: seq<string>, i: nat, pending: Option<string>, parse: string -> Option<Json>)
    requires i <= |lines|
    ensures var d := Decode(lines, i, pending, parse);
      && |d.events| <= DataLines(lines, i)
      && (!d.stopped ==> |d.events| == DataLines(lines, i))
    decreases |lines| - i
  {
    if i < |lines| {
      var line := lines[i];
      if IsEventLine(line) {
        DecodeCounts(lines, i + 1, PendingEvent(line[7..]), parse);
      } else if StartsWith(line, "data: ") {
        DecodeCounts(lines, i + 1, None, parse);
      } else {
        DecodeCounts(lines, i + 1, pending, parse);
      }
    }
  }

  /** Once a terminal event is decoded, later lines are never read. */
  lemma {:induction false} DecodeStopsEarly(lines: seq<string>, more: seq<string>, i: nat, pending: Option<string>, parse: string -> Option<Json>)
    requires i <= |lines|
    requires Decode(lines, i, pending, parse).stopped
    ensures Decode(lines + more, i, pending, parse) == Decode(lines, i, pending, parse)
    decreases |lines| - i
  {
    assert i < |lines|;
    assert (lines + more)[i] == lines[i];
    var line := lines[i];
    if IsEventLine(line) {
      DecodeStopsEarly(lines, more, i + 1, PendingEvent(line[7..]), parse);
    } else if StartsWith(line, "data: ") {
      var e := DataEvent(pending, line[6..], parse);
      if !Terminal(EventOf(e)) {
        DecodeStopsEarly(lines, more, i + 1, None, parse);
      }
    } else {
      DecodeStopsEarly(lines, more, i + 1, pending, parse);
    }
  }

  /**
   * The precedence at line 110: a payload that is not a dict is recorded with
   * no event name even right after `event: end`, so it does not end the
   * stream.
   */
  lemma EmptyDataAfterEndDoesNotStop(parse: string -> Option<Json>)
    ensures Decode(["event: end", "data: "], 0, None, parse) == Decoded([Obj([Field("event", Null), Field("data", Null)])], false)
  {
    var lines := ["event: end", "data: "];
    assert IsEventLine(lines[0]);
    assert lines[0][7..] == "end";
    StripOfUnspaced("end");
    assert !IsEventLine("data: ") && StartsWith("data: ", "data: ");
    assert "data: "[6..] == "";
    DataEventFields(Some("end"), "", parse);
  }

  /** With a dict payload the pending name wins, and without one the payload's own `event` is used. */
  lemma DictPayloadNames(pending: Option<string>, rest: string, parse: string -> Option<Json>)
    requires Payload(Strip(rest), parse).Obj?
    ensures pending.Some? ==> EventOf(DataEvent(pending, rest, parse)) == Str(pending.value)
    ensures pending.None? ==> EventOf(DataEvent(pending, rest, parse)) == Get(Payload(Strip(rest), parse), "event")
  {
    DataEventFields(pending, rest, parse);
  }

  /** The event a cut stream ends with. */
  function PartialError(message: string): Json
  {
    Obj([Field("event", Str("error")), Field("data", Obj([Field("error", Str(message)), Field("partial", Bool(true))]))])
  }

  /** The events of one stream that got an answer: None when a transport error other than a cut escapes. */
  function StreamEvents(lines: seq<string>, ending: Ending, parse: string -> Option<Json>): Option<seq<Json>>
  {
    var d := Decode(lines, 0, None, parse);
    if d.stopped then Some(d.events)
    else match ending
      case Closed => Some(d.events)
      case Cut(message) => Some(d.events + [PartialError(message)])
      case Broken => None
  }

  /**
   * A cut stream that had not ended returns what it decoded followed by the
   * partial error event; the cut is not raised.
   */
  lemma CutStreamEndsWithPartialError(lines: seq<string>, message: string, parse: string -> Option<Json>)
    requires !Decode(lines, 0, None, parse).stopped
    ensures StreamEvents(lines, Cut(message), parse) == Some(Decode(lines, 0, None, parse).events + [PartialError(message)])
    ensures |StreamEvents(lines, Cut(message), parse).value| == DataLines(lines, 0) + 1
  {
    DecodeCounts(lines, 0, None, parse);
  }

  /** The `output` of a stream: `str(data.output or "")` of the last terminal event with dict data, else "". */
  function LastOutput(events: seq<Json>): (r: string)
  {
    if events == [] then ""
    else
      var e := events[|events| - 1];
      if Terminal(EventOf(e)) && Get(e, "data").Obj? then StrOr(Get(Get(e, "data"), "output"))
      else LastOutput(events[..|events| - 1])
  }

  /** Without a terminal event the output is empty. */
  lemma {:induction false} NoTerminalNoOutput(events: seq<Json>)
    requires forall i :: 0 <= i < |events| ==> !Terminal(EventOf(events[i]))
    ensures LastOutput(events) == ""
  {
    if events != [] {
      NoTerminalNoOutput(events[..|events| - 1]);
    }
  }

  /** The partial error event is not terminal. */
  lemma PartialErrorNotTerminal(message: string)
    ensures !Terminal(EventOf(PartialError(message)))
  {
    assert FieldIndex(PartialError(message).fields, "event") == 0;
  }

  /**
   * A stream that ended on a terminal event with a dict payload reports that
   * payload's output; a stream that did not end on one reports "".
   */
  lemma {:induction false} StreamOutput(lines: seq<string>, ending: Ending, parse: string -> Option<Json>)
    requires StreamEvents(lines, ending, parse).Some?
    ensures var d := Decode(lines, 0, None, parse);
      d.stopped && d.events != [] ==> (var last := d.events[|d.events| - 1];
        Get(last, "data").Obj? ==> LastOutput(StreamEvents(lines, ending, parse).value) == StrOr(Get(Get(last, "data"), "output")))
    ensures !Decode(lines, 0, None, parse).stopped ==> LastOutput(StreamEvents(lines, ending, parse).value) == ""
  {
    var d := Decode(lines, 0, None, parse);
    DecodeStops(lines, 0, None, parse);
    if !d.stopped {
      var es := StreamEvents(lines, ending, parse).value;
      if ending.Cut? {
        PartialErrorNotTerminal(ending.message);
        assert es == d.events + [PartialError(ending.message)];
        assert forall i :: 0 <= i < |es| - 1 ==> es[i] == d.events[i];
      }
      NoTerminalNoOutput(es);
    }
  }

  /** The dict `_post_sse` returns for a stream's events. */
  function SseResult(events: seq<Json>): Json
  {
    Obj([Field("events", List(events)), Field("output", Str(LastOutput(events)))])
  }

  /** The SSE attempt budget. */
  const SseMaxAttempts: nat := 5

  /** What one SSE attempt does: return or raise (`Some`), or retry (`None`). */
  function SseAttempt(n: nat, reply: SseReply, parse: string -> Option<Json>): Option<Result<Json>>
  {
    match reply
    case SseTransportFailure => if n >= SseMaxAttempts then Some(Err(TransportError)) else None
    case SseReply(status, lines, ending) =>
      if Gateway(status) && n < SseMaxAttempts then None
      else if !Success(status) then Some(Err(HttpStatusError(status)))
      else match StreamEvents(lines, ending, parse)
        case None => if n >= SseMaxAttempts then Some(Err(TransportError)) else None
        case Some(events) => Some(Ok(SseResult(events)))
  }

  /** SSE attempts `n` to 5: the first attempt that returns or raises decides. */
  function PostSseFrom(n: nat, replies: nat -> SseReply, parse: string -> Option<Json>): (o: Outcome)
    requires 1 <= n <= SseMaxAttempts
    ensures n <= o.attempts <= SseMaxAttempts
    ensures SseAttempt(o.attempts, replies(o.attempts), parse) == Some(o.result)
    ensures forall m :: n <= m < o.attempts ==> SseAttempt(m, replies(m), parse).None?
    decreases SseMaxAttempts - n
  {
    match SseAttempt(n, replies(n), parse)
    case Some(res) => Outcome(res, n)
    case None => PostSseFrom(n + 1, replies, parse)
  }

  /** An HTTP error other than a gateway status is raised at once, never retried. */
  lemma HttpErrorNotRetried(n: nat, replies: nat -> SseReply, parse: string -> Option<Json>)
    requires 1 <= n <= SseMaxAttempts
    requires forall m :: 1 <= m < n ==> SseAttempt(m, replies(m), parse).None?
    requires replies(n).SseReply? && !Success(replies(n).status) && !Gateway(replies(n).status)
    ensures PostSseFrom(1, replies, parse) == Outcome(Err(HttpStatusError(replies(n).status)), n)
  {
  }

  /** A request that keeps meeting gateway errors raises the fifth one. */
  lemma GatewayFiveTimes(replies: nat -> SseReply, parse: string -> Option<Json>)
    requires forall m :: 1 <= m <= SseMaxAttempts ==> replies(m).SseReply? && Gateway(replies(m).status)
    ensures PostSseFrom(1, replies, parse) == Outcome(Err(HttpStatusError(replies(5).status)), 5)
  {
    var o := PostSseFrom(1, replies, parse);
    assert replies(o.attempts).SseReply? && Gateway(replies(o.attempts).status);
  }

  // ---------------------------------------------------------------------
  // Bodies that do not depend on the client's state

  /** `create_session`'s body: the engagement mode, plus the service type and matter only when given and non-empty. */
  function CreateSessionBody(mode: string, serviceTypeId: Option<string>, matterId: Option<string>): (r: Json)
    ensures r.Obj? && forall f :: f in r.fields ==> f.key in {"engagement_mode", "service_type_id", "matter_id"}
  {
    var d0 := Put([], "engagement_mode", Str(mode));
    var d1 := PutIf(d0, IsSetText(serviceTypeId), "service_type_id", Str(if serviceTypeId.Some? then serviceTypeId.value else ""));
    Obj(PutIf(d1, IsSetText(matterId), "matter_id", Str(if matterId.Some? then matterId.value else "")))
  }

  /** What `create_session`'s body holds under each key. */
  function CreateSessionField(mode: string, serviceTypeId: Option<string>, matterId: Option<string>, k: string): Json
  {
    if k == "engagement_mode" then Str(mode)
    else if k == "service_type_id" && IsSetText(serviceTypeId) then Str(serviceTypeId.value)
    else if k == "matter_id" && IsSetText(matterId) then Str(matterId.value)
    else Null
  }

  /** The mode is always sent; the service type and the matter exactly when they are non-empty. */
  lemma CreateSessionBodyAt(mode: string, serviceTypeId: Option<string>, matterId: Option<string>, k: string)
    ensures Get(CreateSessionBody(mode, serviceTypeId, matterId), k) == CreateSessionField(mode, serviceTypeId, matterId, k)
  {
    var d0 := Put([], "engagement_mode", Str(mode));
    var d1 := PutIf(d0, IsSetText(serviceTypeId), "service_type_id", Str(if serviceTypeId.Some? then serviceTypeId.value else ""));
    PutGetAt([], "engagement_mode", Str(mode), k);
    PutIfGetAt(d0, IsSetText(serviceTypeId), "service_type_id", Str(if serviceTypeId.Some? then serviceTypeId.value else ""), k);
    PutIfGetAt(d1, IsSetText(matterId), "matter_id", Str(if matterId.Some? then matterId.value else ""), k);
  }

  /** `list_deliverables`'s query parameters: `output_key` only when given and non-empty. */
  function ListDeliverablesParams(outputKey: Option<string>): (r: Json)
    ensures Has(r, "output_key") <==> IsSetText(outputKey)
    ensures IsSetText(outputKey) ==> r == Obj([Field("output_key", Str(outputKey.value))])
    ensures !IsSetText(outputKey) ==> r == Obj([])
  {
    Obj(PutIf([], IsSetText(outputKey), "output_key", Str(if outputKey.Some? then outputKey.value else "")))
  }

  /** The login form's `organization_id`: its text, unless it is None or blank. */
  function OrgIdOf(v: Json): (r: Option<string>)
    ensures r.Some? ==> r.value == PyStr(v) && !IsBlank(r.value)
    ensures r.None? <==> v.Null? || IsBlank(PyStr(v))
  {
    StripEmpty(PyStr(v));
    if !v.Null? && Strip(PyStr(v)) != "" then Some(PyStr(v)) else None
  }

  /** `d[k1][k2]`, raising at the first lookup that fails. */
  function Dig(v: Json, k1: string, k2: string): (r: Result<Json>)
    ensures r.Ok? <==> Has(v, k1) && Has(Get(v, k1), k2)
    ensures r.Ok? ==> r.value == Get(Get(v, k1), k2)
  {
    match Index(v, k1)
    case Err(e) => Err(e)
    case Ok(d) => Index(d, k2)
  }

  /** The names `headers` may carry. */
  const HeaderNames: set<string> := {"Content-Type", "Authorization", "X-User-Id", "X-Organization-Id", "X-Is-Superuser", "X-Internal-Api-Key"}

  class Client {
    var baseUrl: string
    /** The access token as the login response gave it; any JSON value. */
    var token: Json
    var userId: Option<string>
    var organizationId: Option<string>
    var isSuperuser: bool
    var internalApiKey: Option<string>

    /** `ApiClient(base_url)`; `internalApiKeyEnv` is the value of `INTERNAL_API_KEY` in the environment. */
    constructor(baseUrl: string, internalApiKeyEnv: Option<string>)
      ensures this.baseUrl == RStripSlash(baseUrl)
      ensures token == Null && userId == None && organizationId == None && !isSuperuser
      ensures internalApiKey == internalApiKeyEnv
    {
      this.baseUrl := RStripSlash(baseUrl);
      token := Null;
      userId := None;
      organizationId := None;
      isSuperuser := false;
      internalApiKey := internalApiKeyEnv;
    }

    /** `headers`: the dict of request headers, built entry by entry. */
    function Headers(): (r: Json)
      reads this
      ensures r.Obj?
      ensures forall f :: f in r.fields ==> f.key in HeaderNames
    {
      var h0 := Put([], "Content-Type", Str("application/json"));
      var h1 := PutIf(h0, Truthy(token), "Authorization", Str("Bearer " + PyStr(token)));
      var h2 := PutIf(h1, IsSetText(userId), "X-User-Id", Str(if userId.Some? then userId.value else ""));
      var h3 := PutIf(h2, IsSetText(organizationId), "X-Organization-Id", Str(if organizationId.Some? then organizationId.value else ""));
      var h4 := PutIf(h3, isSuperuser, "X-Is-Superuser", Str("true"));
      Obj(PutIf(h4, IsSetText(internalApiKey), "X-Internal-Api-Key", Str(if internalApiKey.Some? then internalApiKey.value else "")))
    }

    /**
     * The header each name should carry: Content-Type always; each identity
     * header exactly when its attribute is set, with the attribute's text;
     * the superuser flag only as "true"; nothing else.
     */
    function HeaderSpec(k: string): Json
      reads this
    {
      if k == "Content-Type" then Str("application/json")
      else if k == "Authorization" && Truthy(token) then Str("Bearer " + PyStr(token))
      else if k == "X-User-Id" && IsSetText(userId) then Str(userId.value)
      else if k == "X-Organization-Id" && IsSetText(organizationId) then Str(organizationId.value)
      else if k == "X-Is-Superuser" && isSuperuser then Str("true")
      else if k == "X-Internal-Api-Key" && IsSetText(internalApiKey) then Str(internalApiKey.value)
      else Null
    }

    /** Every header reads as `HeaderSpec` says. */
    lemma HeadersAt(k: string)
      ensures Get(Headers(), k) == HeaderSpec(k)
    {
      var h0 := Put([], "Content-Type", Str("application/json"));
      var h1 := PutIf(h0, Truthy(token), "Authorization", Str("Bearer " + PyStr(token)));
      var h2 := PutIf(h1, IsSetText(userId), "X-User-Id", Str(if userId.Some? then userId.value else ""));
      var h3 := PutIf(h2, IsSetText(organizationId), "X-Organization-Id", Str(if organizationId.Some? then organizationId.value else ""));
      var h4 := PutIf(h3, isSuperuser, "X-Is-Superuser", Str("true"));
      PutGetAt([], "Content-Type", Str("application/json"), k);
      PutIfGetAt(h0, Truthy(token), "Authorization", Str("Bearer " + PyStr(token)), k);
      PutIfGetAt(h1, IsSetText(userId), "X-User-Id", Str(if userId.Some? then userId.value else ""), k);
      PutIfGetAt(h2, IsSetText(organizationId), "X-Organization-Id", Str(if organizationId.Some? then organizationId.value else ""), k);
      PutIfGetAt(h3, isSuperuser, "X-Is-Superuser", Str("true"), k);
      PutIfGetAt(h4, IsSetText(internalApiKey), "X-Internal-Api-Key", Str(if internalApiKey.Some? then internalApiKey.value else ""), k);
    }

    /** The headers of an SSE request: `headers` plus `Accept: text/event-stream`. */
    function SseHeaders(): (r: Json)
      reads this
      ensures Get(r, "Accept") == Str("text/event-stream")
      ensures forall k :: k != "Accept" ==> Get(r, k) == Get(Headers(), k)
    {
      PutGet(Headers().fields, "Accept", Str("text/event-stream"));
      Obj(Put(Headers().fields, "Accept", Str("text/event-stream")))
    }

    /** `int(self.user_id) if self.user_id else None`; a user id that is not an integer raises ValueError. */
    function UserIdField(): (r: Result<Json>)
      reads this
      ensures !IsSetText(userId) ==> r == Ok(Null)
      ensures IsSetText(userId) && ParseInt(userId.value).Some? ==> r == Ok(Int(ParseInt(userId.value).value))
      ensures IsSetText(userId) && ParseInt(userId.value).None? ==> r == Err(ValueError)
    {
      if !IsSetText(userId) then Ok(Null)
      else match ParseInt(userId.value)
        case None => Err(ValueError)
        case Some(n) => Ok(Int(n))
    }

    /** `chat`'s body; a user id that is not an integer raises ValueError. */
    function ChatBody(userQuery: string, attachments: Option<seq<string>>, maxLoops: Option<int>): (r: Result<Json>)
      reads this
      ensures r.Ok? <==> UserIdField().Ok?
      ensures r.Ok? ==> r.value.Obj? && forall f :: f in r.value.fields ==> f.key in {"user_id", "user_query", "attachments", "max_loops"}
    {
      match UserIdField()
      case Err(e) => Err(e)
      case Ok(uid) =>
        var d0 := Put([], "user_id", uid);
        var d1 := Put(d0, "user_query", Str(userQuery));
        var d2 := Put(d1, "attachments", StrList(if attachments.Some? then attachments.value else []));
        Ok(Obj(PutIf(d2, maxLoops.Some?, "max_loops", Int(if maxLoops.Some? then maxLoops.value else 0))))
    }

    /**
     * What `chat`'s body holds under each key: the user id, the query and the
     * attachments (an empty list when none are given) always, `max_loops`
     * only when it is given.
     */
    function ChatField(userQuery: string, attachments: Option<seq<string>>, maxLoops: Option<int>, k: string): Json
      reads this
      requires UserIdField().Ok?
    {
      if k == "user_id" then UserIdField().value
      else if k == "user_query" then Str(userQuery)
      else if k == "attachments" then StrList(if attachments.Some? then attachments.value else [])
      else if k == "max_loops" && maxLoops.Some? then Int(maxLoops.value)
      else Null
    }

    lemma ChatBodyAt(userQuery: string, attachments: Option<seq<string>>, maxLoops: Option<int>, k: string)
      requires UserIdField().Ok?
      ensures Get(ChatBody(userQuery, attachments, maxLoops).value, k) == ChatField(userQuery, attachments, maxLoops, k)
    {
      var uid := UserIdField().value;
      var d0 := Put([], "user_id", uid);
      var d1 := Put(d0, "user_query", Str(userQuery));
      var d2 := Put(d1, "attachments", StrList(if attachments.Some? then attachments.value else []));
      PutGetAt([], "user_id", uid, k);
      PutGetAt(d0, "user_query", Str(userQuery), k);
      PutGetAt(d1, "attachments", StrList(if attachments.Some? then attachments.value else []), k);
      PutIfGetAt(d2, maxLoops.Some?, "max_loops", Int(if maxLoops.Some? then maxLoops.value else 0), k);
    }

    /** `resume`'s body: the user id and the user response. */
    function ResumeBody(userResponse: Json): (r: Result<Json>)
      reads this
      ensures r.Ok? <==> UserIdField().Ok?
      ensures r.Ok? ==> Get(r.value, "user_id") == UserIdField().value && Get(r.value, "user_response") == userResponse
    {
      match UserIdField()
      case Err(e) => Err(e)
      case Ok(uid) =>
        PutGetAt([], "user_id", uid, "user_id");
        PutGetAt(Put([], "user_id", uid), "user_response", userResponse, "user_id");
        PutGetAt([], "user_id", uid, "user_response");
        PutGetAt(Put([], "user_id", uid), "user_response", userResponse, "user_response");
        Ok(Obj(Put(Put([], "user_id", uid), "user_response", userResponse)))
    }

    /**
     * `login`: the token is taken from the form login's response and kept
     * even when the `me` lookup that follows fails; then the user id, the
     * organization (None when absent or blank) and the superuser flag are
     * taken from `me`. `result` and `me` are the outcomes of the two requests.
     */
    method Login(result: Result<Json>, me: Result<Json>) returns (r: Result<Json>)
      modifies this
      ensures baseUrl == old(baseUrl) && internalApiKey == old(internalApiKey)
      ensures result.Err? ==> r == result && token == old(token)
      ensures result.Ok? && Dig(result.value, "data", "access_token").Err? ==>
        r == Err(Dig(result.value, "data", "access_token").error) && token == old(token)
      ensures result.Ok? && Dig(result.value, "data", "access_token").Ok? ==>
        token == Dig(result.value, "data", "access_token").value
      ensures r.Err? ==> userId == old(userId) && organizationId == old(organizationId) && isSuperuser == old(isSuperuser)
      ensures result.Ok? && Dig(result.value, "data", "access_token").Ok? && me.Err? ==> r == me
      ensures result.Ok? && Dig(result.value, "data", "access_token").Ok? && me.Ok? ==>
        r == (match Dig(me.value, "data", "user_id") case Err(e) => Err(e) case Ok(_) => result)
      ensures r.Ok? ==> (me.Ok? && Dig(me.value, "data", "user_id").Ok? &&
        userId == Some(PyStr(Dig(me.value, "data", "user_id").value)) &&
        organizationId == OrgIdOf(Get(Get(me.value, "data"), "organization_id")) &&
        isSuperuser == Truthy(Get(Get(me.value, "data"), "is_superuser")))
    {
      if result.Err? {
        return result;
      }
      var tok := Dig(result.value, "data", "access_token");
      if tok.Err? {
        return Err(tok.error);
      }
      token := tok.value;
      if me.Err? {
        return me;
      }
      var uid := Dig(me.value, "data", "user_id");
      if uid.Err? {
        return Err(uid.error);
      }
      var data := Get(me.value, "data");
      userId := Some(PyStr(uid.value));
      organizationId := OrgIdOf(Get(data, "organization_id"));
      isSuperuser := Truthy(Get(data, "is_superuser"));
      r := result;
    }

    /**
     * `_request`: retried for GET up to the configured count, once for any
     * other verb; `waits` are the sleeps between attempts.
     */
    method Request(verb: string, env: Option<string>, replies: nat -> Reply) returns (r: Result<Json>, waits: seq<nat>)
      ensures r == RequestSpec(verb, env, replies).result
      ensures |waits| == if RequestSpec(verb, env, replies).attempts == 0 then 0 else RequestSpec(verb, env, replies).attempts - 1
      ensures forall i :: 0 <= i < |waits| ==> waits[i] == Backoff(i + 1)
    {
      waits := [];
      var retries := GetRetries(env);
      if retries.Err? {
        return Err(retries.error), [];
      }
      var maxAttempts := if Upper(verb) == "GET" then retries.value else 1;
      r := Err(RuntimeError);
      if maxAttempts < 1 {
        return;
      }
      var attempt: nat := 1;
      var done := false;
      while !done
        invariant 1 <= attempt <= maxAttempts + 1
        invariant !done ==> attempt <= maxAttempts && RequestSpec(verb, env, replies) == RequestFrom(attempt, maxAttempts, replies)
        invariant !done ==> |waits| == attempt - 1
        invariant done ==> r == RequestSpec(verb, env, replies).result && RequestSpec(verb, env, replies).attempts == attempt - 1 && |waits| == attempt - 2
        invariant forall i :: 0 <= i < |waits| ==> waits[i] == Backoff(i + 1)
        decreases maxAttempts + 1 - attempt + (if done then 0 else 1)
      {
        var reply := replies(attempt);
        if reply.Reply? && Gateway(reply.status) && attempt < maxAttempts {
          RequestFromNext(attempt, maxAttempts, replies);
          waits := waits + [Backoff(attempt)];
        } else {
          var res := AttemptResult(reply);
          if res.Ok? || attempt >= maxAttempts {
            r := res;
            done := true;
          } else {
            RequestFromNext(attempt, maxAttempts, replies);
            waits := waits + [Backoff(attempt)];
          }
        }
        attempt := attempt + 1;
      }
    }

    /**
     * `_post_sse`: up to five attempts; each stream is decoded line by line
     * until its first terminal event, and a cut stream returns what it
     * decoded plus a partial error event.
     */
    method PostSse(replies: nat -> SseReply, parse: string -> Option<Json>) returns (r: Result<Json>, waits: seq<nat>)
      ensures r == PostSseFrom(1, replies, parse).result
      ensures |waits| == PostSseFrom(1, replies, parse).attempts - 1
      ensures forall i :: 0 <= i < |waits| ==> waits[i] == Backoff(i + 1)
    {
      waits := [];
      r := Err(RuntimeError);
      var attempt: nat := 1;
      var done := false;
      while !done
        invariant 1 <= attempt <= SseMaxAttempts + 1
        invariant !done ==> attempt <= SseMaxAttempts && PostSseFrom(1, replies, parse) == PostSseFrom(attempt, replies, parse)
        invariant !done ==> |waits| == attempt - 1
        invariant done ==> r == PostSseFrom(1, replies, parse).result && PostSseFrom(1, replies, parse).attempts == attempt - 1 && |waits| == attempt - 2
        invariant forall i :: 0 <= i < |waits| ==> waits[i] == Backoff(i + 1)
        decreases SseMaxAttempts + 1 - attempt + (if done then 0 else 1)
      {
        var step := SseAttemptStep(attempt, replies(attempt), parse);
        if step.Some? {
          r := step.value;
          done := true;
        } else {
          waits := waits + [Backoff(attempt)];
        }
        attempt := attempt + 1;
      }
    }

    /** One SSE attempt: the stream is opened, checked and decoded; `None` means the attempt is retried. */
    method SseAttemptStep(n: nat, reply: SseReply, parse: string -> Option<Json>) returns (step: Option<Result<Json>>)
      requires 1 <= n <= SseMaxAttempts
      ensures step == SseAttempt(n, reply, parse)
    {
      if reply.SseTransportFailure? {
        return if n >= SseMaxAttempts then Some(Err(TransportError)) else None;
      }
      if Gateway(reply.status) && n < SseMaxAttempts {
        return None;
      }
      if !Success(reply.status) {
        return Some(Err(HttpStatusError(reply.status)));
      }
      var events, escaped := DecodeStream(reply.lines, reply.ending, parse);
      if escaped {
        return if n >= SseMaxAttempts then Some(Err(TransportError)) else None;
      }
      var output := StreamOutputOf(events);
      return Some(Ok(Obj([Field("events", List(events)), Field("output", Str(output))])));
    }

    /** The output scan of `_post_sse`: the last terminal event with dict data, searched from the end. */
    method StreamOutputOf(events: seq<Json>) returns (output: string)
      ensures output == LastOutput(events)
    {
      output := "";
      var k := |events|;
      assert events[..k] == events;
      while k > 0
        invariant 0 <= k <= |events|
        invariant LastOutput(events) == LastOutput(events[..k])
      {
        var e := events[k - 1];
        assert events[..k][k - 1] == e;
        if Terminal(EventOf(e)) && Get(e, "data").Obj? {
          output := StrOr(Get(Get(e, "data"), "output"));
          return;
        }
        assert events[..k][..k - 1] == events[..k - 1];
        k := k - 1;
      }
    }

    /** The event one `data: ` line appends, given the rest of the line and the pending name. */
    method DataLineEvent(current: Option<string>, rest: string, parse: string -> Option<Json>) returns (e: Json, evt: Json)
      ensures e == DataEvent(current, rest, parse) && evt == EventOf(e)
    {
      var raw := Strip(rest);
      var payload := Null;
      if raw != "" {
        payload := match parse(raw) case Some(v) => v case None => Obj([Field("raw", Str(raw))]);
      }
      evt := if payload.Obj? then (if current.Some? then Str(current.value) else Get(payload, "event")) else Null;
      e := Obj([Field("event", evt), Field("data", payload)]);
      DataEventFields(current, rest, parse);
    }

    /** The line decoder of one stream; `escaped` reports a transport error that is not a cut. */
    method DecodeStream(lines: seq<string>, ending: Ending, parse: string -> Option<Json>) returns (events: seq<Json>, escaped: bool)
      ensures escaped <==> StreamEvents(lines, ending, parse).None?
      ensures !escaped ==> events == StreamEvents(lines, ending, parse).value
    {
      events := [];
      var current: Option<string> := None;
      var i := 0;
      var stopped := false;
      while i < |lines| && !stopped
        invariant 0 <= i <= |lines|
        invariant stopped ==> Decode(lines, 0, None, parse) == Decoded(events, true)
        invariant !stopped ==> (Decode(lines, 0, None, parse) ==
          Decoded(events + Decode(lines, i, current, parse).events, Decode(lines, i, current, parse).stopped))
      {
        var line := lines[i];
        ghost var here := Decode(lines, i, current, parse);
        ghost var before := events;
        if StartsWith(line, "event: ") {
          current := PendingEvent(line[7..]);
          assert here == Decode(lines, i + 1, current, parse);
        } else if StartsWith(line, "data: ") {
          var e, evt := DataLineEvent(current, line[6..], parse);
          events := events + [e];
          current := None;
          if Terminal(evt) {
            assert here == Decoded([e], true);
            stopped := true;
          } else {
            var rest := Decode(lines, i + 1, None, parse);
            assert here == Decoded([e] + rest.events, rest.stopped);
            assert before + ([e] + rest.events) == events + rest.events;
          }
        } else {
          assert here == Decode(lines, i + 1, current, parse);
        }
        i := i + 1;
      }
      escaped := false;
      if !stopped {
        match ending
        case Closed =>
        case Cut(message) =>
          events := events + [PartialError(message)];
        case Broken =>
          escaped := true;
      }
    }

    /** `chat`: a user id that is not an integer raises before any request; otherwise the stream is posted. */
    method Chat(userQuery: string, attachments: Option<seq<string>>, maxLoops: Option<int>,
                replies: nat -> SseReply, parse: string -> Option<Json>) returns (r: Result<Json>)
      ensures ChatBody(userQuery, attachments, maxLoops).Err? ==> r == Err(ValueError)
      ensures ChatBody(userQuery, attachments, maxLoops).Ok? ==> r == PostSseFrom(1, replies, parse).result
    {
      var body := ChatBody(userQuery, attachments, maxLoops);
      if body.Err? {
        return Err(body.error);
      }
      var waits;
      r, waits := PostSse(replies, parse);
    }

    /** `resume`: like `chat`, with the resume body. */
    method Resume(userResponse: Json, replies: nat -> SseReply, parse: string -> Option<Json>) returns (r: Result<Json>)
      ensures ResumeBody(userResponse).Err? ==> r == Err(ValueError)
      ensures ResumeBody(userResponse).Ok? ==> r == PostSseFrom(1, replies, parse).result
    {
      var body := ResumeBody(userResponse);
      if body.Err? {
        return Err(body.error);
      }
      var waits;
      r, waits := PostSse(replies, parse);
    }
  }

  /** A client that has not logged in sends only Content-Type, plus the internal key when one is configured. */
  lemma AnonymousHeaders(c: Client)
    requires c.token == Null && c.userId == None && c.organizationId == None && !c.isSuperuser
    ensures forall k :: k != "Content-Type" && k != "X-Internal-Api-Key" ==> Get(c.Headers(), k) == Null
  {
    forall k | k != "Content-Type" && k != "X-Internal-Api-Key"
      ensures Get(c.Headers(), k) == Null
    {
      c.HeadersAt(k);
    }
  }

  /** The organization header is sent exactly when an organization is stored: login never stores a blank one. */
  lemma OrganizationHeaderAfterLogin(v: Json)
    ensures IsSetText(OrgIdOf(v)) <==> OrgIdOf(v).Some?
  {
  }

  /** A numeric user id written as text comes back as the same integer in the request bodies. */
  lemma UserIdRoundTrip(c: Client, n: int)
    requires c.userId == Some(IntToString(n))
    ensures c.UserIdField() == Ok(Int(n))
  {
    IntRoundTrip(n);
  }
}
