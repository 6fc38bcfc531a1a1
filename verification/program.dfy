/**
  One invocation of the program end to end: the decision of `main`, the single
  HTTP request it implies, and the output and exit code produced from the
  server's reply. The network call itself is not modelled: the reply is an
  input, standing for whatever the server answered to `RequestFor`.
 */
module Program {
  import opened Wrappers
  import opened PyJson
  import opened Urls
  import opened Dispatch
  import opened Responses

  const OkStatus: int := 200
  const TimeoutSeconds: int := 30

  datatype HttpMethod = GET | PATCH

  /** An outbound request. `authorization` is the value of the `Authorization`
      header; `jsonBody` marks the `Content-Type: application/json` header. */
  datatype Request = Request(
    verb: HttpMethod,
    url: string,
    authorization: string,
    jsonBody: bool,
    payload: Option<Json>,
    timeoutSeconds: int)

  /** The server's reply: status, raw text, and the text decoded as JSON
      (`None` when it is not JSON, so that `resp.json()` raises). */
  datatype Reply = Reply(status: int, text: string, body: Option<Json>)

  /** The printed output, one tagged value per `print` call. */
  datatype Line =
    | ApiKeyRequired
    | Usage
    | AssistantIdRequired
    | ListFirstHint
    | HttpError(status: int, text: string)
    | ListHeader
    | ListName(name: Json)
    | ListId(id: Json)
    | Separator
    | DetailsHeader
    | DetailName(name: Json)
    | DetailId(id: Json)
    | SilenceTimeoutLine(value: Json)
    | IdleHeader
    | IdleMessagesLine(value: Json)
    | IdleTimeoutLine(value: Json)
    | MaxCountLine(value: Json)
    | NoIdleNotice
    | UpdatingNotice(assistantId: string)
    | UpdatedNotice
    | TimelineNotice

  /** How an invocation ends: an exit code, or an uncaught Python exception,
      each with the lines printed before it. */
  datatype Outcome =
    | Finished(code: int, lines: seq<Line>)
    | Crashed(lines: seq<Line>, error: PyError)

  function Prepend(prefix: seq<Line>, o: Outcome): Outcome {
    match o
    case Finished(c, ls) => Finished(c, prefix + ls)
    case Crashed(ls, e) => Crashed(prefix + ls, e)
  }

  function Bearer(apiKey: string): string {
    "Bearer " + apiKey
  }

  /** The request each decision sends; the exits send none. */
  function RequestFor(d: Decision): (r: Option<Request>)
    ensures d.Exit? <==> r.None?
    ensures r.Some? ==> r.value.authorization == "Bearer " + d.apiKey
    ensures r.Some? ==> r.value.timeoutSeconds == 30
    ensures r.Some? ==> (r.value.verb == PATCH <==> d.RunUpdateIdle?)
    ensures r.Some? ==> (r.value.payload.Some? <==> d.RunUpdateIdle?)
    ensures r.Some? ==> (r.value.jsonBody <==> d.RunUpdateIdle?)
    ensures d.RunList? ==> r.value.url == ListUrl(d.apiUrl)
    ensures (d.RunGet? || d.RunUpdateIdle?) ==> r.value.url == ItemUrl(d.apiUrl, d.assistantId)
    ensures d.RunUpdateIdle? ==> r.value.payload == Some(IdlePayload())
  {
    match d
    case RunList(key, url) =>
      Some(Request(GET, ListUrl(url), Bearer(key), false, None, TimeoutSeconds))
    case RunGet(key, url, id) =>
      Some(Request(GET, ItemUrl(url, id), Bearer(key), false, None, TimeoutSeconds))
    case RunUpdateIdle(key, url, id) =>
      Some(Request(PATCH, ItemUrl(url, id), Bearer(key), true, Some(IdlePayload()), TimeoutSeconds))
    case Exit(_, _) => None
  }

  /** The lines `main` prints before each exit. */
  function ExitLines(reason: ExitReason): seq<Line> {
    match reason
    case MissingApiKey => [ApiKeyRequired, Usage]
    case MissingIdForGet => [AssistantIdRequired]
    case MissingIdForUpdate => [AssistantIdRequired, ListFirstHint]
    case NoMode => [Usage]
  }

  /** The three lines printed for one listed assistant. */
  function Block(s: Summary): seq<Line> {
    [ListName(s.name), ListId(s.id), Separator]
  }

  /** The lines printed by the List loop: one block per summary, in order. */
  function SummaryLines(sums: seq<Summary>): (ls: seq<Line>)
    ensures |ls| == 3 * |sums|
    ensures forall i :: 0 <= i < |sums| ==> ls[3 * i .. 3 * i + 3] == Block(sums[i])
  {
    if |sums| == 0 then []
    else
      var rest := SummaryLines(sums[1..]);
      var ls := Block(sums[0]) + rest;
      // block i of `sums` is block i - 1 of the tail, three lines further on
      assert forall i :: 1 <= i < |sums| ==> sums[i] == sums[1..][i - 1];
      assert forall i :: 1 <= i < |sums| ==> ls[3 * i .. 3 * i + 3] == rest[3 * (i - 1) .. 3 * (i - 1) + 3];
      ls
  }

  /** The List operation on a reply. Only status 200 succeeds. */
  function ListOutcome(reply: Reply): (o: Outcome)
    ensures reply.status != 200 ==> o == Finished(1, [HttpError(reply.status, reply.text)])
    ensures reply.status == 200 && o.Finished? ==> o.code == 0
    ensures o.Finished? && o.code == 0 ==>
              reply.body.Some? && ChooseAssistants(reply.body.value).Ok?
              && ListSummaries(ChooseAssistants(reply.body.value).value).Ok?
              && o.lines == [ListHeader] + SummaryLines(ListSummaries(ChooseAssistants(reply.body.value).value).value)
    // a status-200 reply whose body decodes, has a list shape and can be iterated finishes
    ensures (&& reply.status == 200 && reply.body.Some? && ChooseAssistants(reply.body.value).Ok?
             && ListSummaries(ChooseAssistants(reply.body.value).value).Ok?) ==> o.Finished?
  {
    if reply.status != OkStatus then
      Finished(1, [HttpError(reply.status, reply.text)])
    else
      match reply.body
      case None => Crashed([], DecodeError)
      case Some(data) =>
        match ChooseAssistants(data)
        case Err(e) => Crashed([], e)
        case Ok(chosen) =>
          match ListSummaries(chosen)
          case Err(e) => Crashed([ListHeader], e)
          case Ok(sums) => Finished(0, [ListHeader] + SummaryLines(sums))
  }

  /** The lines of the idle-message part of the details. */
  function IdleLines(v: IdleView): (ls: seq<Line>)
    ensures IdleHeader in ls <==> v.IdleConfigured?
    ensures NoIdleNotice in ls <==> v.NoIdleMessages?
    ensures v.IdleConfigured? ==>
              IdleMessagesLine(v.messages) in ls && IdleTimeoutLine(v.timeout) in ls
              && MaxCountLine(v.maxCount) in ls
  {
    match v
    case IdleConfigured(m, t, c) => [IdleHeader, IdleMessagesLine(m), IdleTimeoutLine(t), MaxCountLine(c)]
    case NoIdleMessages => [NoIdleNotice]
  }

  /** The Get operation on a reply. Only status 200 succeeds; the configured
      idle block and the "not configured" notice never appear together. */
  function GetOutcome(reply: Reply): (o: Outcome)
    ensures reply.status != 200 ==> o == Finished(1, [HttpError(reply.status, reply.text)])
    ensures reply.status == 200 && o.Finished? ==> o.code == 0
    ensures o.Finished? && o.code == 0 ==>
              && reply.body.Some? && reply.body.value.JObj?
              && |o.lines| >= 5
              && o.lines[..4] == [DetailsHeader,
                                  DetailName(Get(reply.body.value.fields, "name")),
                                  DetailId(Get(reply.body.value.fields, "id")),
                                  SilenceTimeoutLine(SilenceTimeout(reply.body.value.fields))]
              && (IdleHeader in o.lines <==> NoIdleNotice !in o.lines)
    // a status-200 dict reply finishes exactly when its message plan is a dict ...
    ensures reply.status == 200 && reply.body.Some? && reply.body.value.JObj? ==>
              (o.Finished? <==> IdleSection(MessagePlan(reply.body.value.fields)).Ok?)
    // ... and then prints the idle part its plan calls for
    ensures o.Finished? && o.code == 0 ==>
              o.lines[4..] == IdleLines(IdleSection(MessagePlan(reply.body.value.fields)).value)
  {
    if reply.status != OkStatus then
      Finished(1, [HttpError(reply.status, reply.text)])
    else
      match reply.body
      case None => Crashed([], DecodeError)
      case Some(JObj(fields)) =>
        var head := [DetailsHeader, DetailName(Get(fields, "name")), DetailId(Get(fields, "id")),
                     SilenceTimeoutLine(SilenceTimeout(fields))];
        (match IdleSection(MessagePlan(fields))
         case Err(e) => Crashed(head, e)
         case Ok(v) => Finished(0, head + IdleLines(v)))
      case Some(_) => Crashed([DetailsHeader], NoAttributeGet)
  }

  /** The UpdateIdle operation on a reply, after its "Updating ..." line. Only
      status 200 succeeds, and what it prints then ignores the reply body. */
  function UpdateOutcome(reply: Reply): (o: Outcome)
    ensures reply.status != 200 ==> o == Finished(1, [HttpError(reply.status, reply.text)])
    ensures reply.status == 200 && reply.body.Some? ==> o == Finished(0, [UpdatedNotice, TimelineNotice])
    ensures reply.status == 200 && reply.body.None? ==> o == Crashed([], DecodeError)
  {
    if reply.status != OkStatus then
      Finished(1, [HttpError(reply.status, reply.text)])
    else if reply.body.None? then
      Crashed([], DecodeError)
    else
      Finished(0, [UpdatedNotice, TimelineNotice])
  }

  /** One invocation: decide, then run the chosen operation on the reply to
      its request. */
  function Run(argv: seq<string>, env: Env, reply: Reply): (o: Outcome)
    ensures Decide(argv, env).Exit? ==> o == Finished(2, [ApiKeyRequired, Usage])
    ensures Decide(argv, env).RunList? ==> o == ListOutcome(reply)
    ensures Decide(argv, env).RunGet? ==> o == GetOutcome(reply)
    // UpdateIdle announces the id before the request, then reports the reply
    ensures Decide(argv, env).RunUpdateIdle? ==>
              && |o.lines| > 0
              && o.lines[0] == UpdatingNotice(AssistantId(argv, env).value)
              && o.lines[1..] == UpdateOutcome(reply).lines
              && o.Finished? == UpdateOutcome(reply).Finished?
              && (o.Finished? ==> o.code == UpdateOutcome(reply).code)
  {
    match Decide(argv, env)
    case Exit(code, reason) => Finished(code, ExitLines(reason))
    case RunList(_, _) => ListOutcome(reply)
    case RunGet(_, _, _) => GetOutcome(reply)
    case RunUpdateIdle(_, _, id) => Prepend([UpdatingNotice(id)], UpdateOutcome(reply))
  }

  /** Every request carries the resolved, non-empty API key as a bearer token;
      without a key no request is made at all. */
  lemma RequestsCarryKey(argv: seq<string>, env: Env)
    ensures RequestFor(Decide(argv, env)).None? <==> !Filled(ApiKey(argv, env))
    ensures RequestFor(Decide(argv, env)).Some? ==>
              && RequestFor(Decide(argv, env)).value.authorization == "Bearer " + ApiKey(argv, env).value
              && ApiKey(argv, env).value != ""
  {
  }

  /** Exit code 2 happens exactly when no API key resolves, regardless of the
      reply, and then the key error and the usage text are printed. */
  lemma ExitTwoIffNoKey(argv: seq<string>, env: Env, reply: Reply)
    ensures (Run(argv, env, reply).Finished? && Run(argv, env, reply).code == 2)
            <==> !Filled(ApiKey(argv, env))
    ensures !Filled(ApiKey(argv, env)) ==>
              Run(argv, env, reply) == Finished(2, [ApiKeyRequired, Usage])
  {
  }

  /** For every operation, any status but 200 (201 and 204 included) exits 1
      with the status and raw text as the last line; status 200 never exits 1. */
  lemma StatusExactly200(argv: seq<string>, env: Env, reply: Reply)
    requires Filled(ApiKey(argv, env))
    ensures reply.status != 200 ==>
              && Run(argv, env, reply).Finished?
              && Run(argv, env, reply).code == 1
              && |Run(argv, env, reply).lines| > 0
              && Run(argv, env, reply).lines[|Run(argv, env, reply).lines| - 1]
                 == HttpError(reply.status, reply.text)
    ensures reply.status == 200 && Run(argv, env, reply).Finished? ==>
              Run(argv, env, reply).code == 0
  {
  }

  /** With a key and no id anywhere, the one request is a GET of the
      list endpoint. */
  lemma NoIdMeansListRequest(argv: seq<string>, env: Env)
    requires Filled(ApiKey(argv, env)) && !Filled(AssistantId(argv, env))
    ensures RequestFor(Decide(argv, env)) ==
              Some(Request(GET, ListUrl(ApiUrl(env)), "Bearer " + ApiKey(argv, env).value,
                           false, None, 30))
  {
  }

  /** The PATCH body is the same constant whatever the key, URL, id or
      environment; only the URL depends on the inputs. */
  lemma UpdatePayloadFixed(argv1: seq<string>, env1: Env, argv2: seq<string>, env2: Env)
    requires Decide(argv1, env1).RunUpdateIdle? && Decide(argv2, env2).RunUpdateIdle?
    ensures RequestFor(Decide(argv1, env1)).value.payload
            == RequestFor(Decide(argv2, env2)).value.payload
            == Some(IdlePayload())
  {
  }

  /** A successful update prints the same lines whatever the server sent back. */
  lemma UpdateSuccessIgnoresBody(argv: seq<string>, env: Env, r1: Reply, r2: Reply)
    requires Decide(argv, env).RunUpdateIdle?
    requires r1.status == 200 && r2.status == 200 && r1.body.Some? && r2.body.Some?
    ensures Run(argv, env, r1) == Run(argv, env, r2)
    ensures Run(argv, env, r1) ==
              Finished(0, [UpdatingNotice(Decide(argv, env).assistantId), UpdatedNotice, TimelineNotice])
  {
  }

  /** A successful List prints the header and then, per item of a top-level
      array and in order, the item's name, its id and a separator. */
  lemma ListOfArray(reply: Reply, items: seq<Json>)
    requires reply.status == 200 && reply.body == Some(JArr(items))
    ensures ListOutcome(reply).Finished? && ListOutcome(reply).code == 0
    ensures |ListOutcome(reply).lines| == 1 + 3 * |items|
    ensures ListOutcome(reply).lines[0] == ListHeader
    ensures forall i :: 0 <= i < |items| ==>
              ListOutcome(reply).lines[1 + 3 * i .. 4 + 3 * i] == Block(Summarise(items[i]))
  {
  }

  /** The three list shapes print the same output: `{"assistants": [...]}`,
      `{"data": [...]}` and a bare array. */
  lemma ListShapesPrintAlike(status: int, text: string, items: seq<Json>)
    ensures ListOutcome(Reply(status, text, Some(JObj(map["assistants" := JArr(items)]))))
            == ListOutcome(Reply(status, text, Some(JObj(map["data" := JArr(items)]))))
            == ListOutcome(Reply(status, text, Some(JArr(items))))
  {
    ShapesAgree(items);
  }

  /** A Get reply without `silenceTimeoutSeconds` shows 30 as the timeout,
      even when the message plan then raises. */
  lemma SilenceDefaultShown(reply: Reply, fields: map<string, Json>)
    requires reply.status == 200 && reply.body == Some(JObj(fields))
    requires "silenceTimeoutSeconds" !in fields
    ensures |GetOutcome(reply).lines| > 3
    ensures GetOutcome(reply).lines[3] == SilenceTimeoutLine(JInt(30))
  {
  }
}
