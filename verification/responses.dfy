/**
  How the program reads the server's decoded JSON replies: the list-shape
  normalisation and per-item name/id extraction of the List operation, the
  display decisions of the Get operation, and the fixed body sent by
  UpdateIdle.
 */
module Responses {
  import opened Wrappers
  import opened PyJson

  /** The Python exceptions a decoded reply can raise in the program. */
  datatype PyError =
    | DecodeError      // `resp.json()` on a body that is not JSON
    | NoAttributeGet   // `.get` called on something that is not a dict
    | NotIterable      // `for ... in` over a truthy number or `True`

  // ---------------------------------------------------------------------------
  // List
  // ---------------------------------------------------------------------------

  /** The collection the List operation iterates: a top-level array as is;
      for an object the first truthy of `"assistants"` and `"data"`, else an
      empty array. Any other top-level value has no `.get`. */
  function ChooseAssistants(data: Json): (r: Result<Json, PyError>)
    ensures data.JArr? ==> r == Ok(data)
    ensures data.JObj? && Truthy(Get(data.fields, "assistants")) ==>
              r == Ok(data.fields["assistants"])
    ensures data.JObj? && !Truthy(Get(data.fields, "assistants"))
            && Truthy(Get(data.fields, "data")) ==>
              r == Ok(data.fields["data"])
    ensures data.JObj? && !Truthy(Get(data.fields, "assistants"))
            && !Truthy(Get(data.fields, "data")) ==>
              r == Ok(JArr([]))
    ensures !data.JArr? && !data.JObj? ==> r == Err(NoAttributeGet)
  {
    match data
    case JArr(_) => Ok(data)
    case JObj(fields) =>
      var a := Get(fields, "assistants");
      if Truthy(a) then Ok(a)
      else
        var d := Get(fields, "data");
        if Truthy(d) then Ok(d) else Ok(JArr([]))
    case _ => Err(NoAttributeGet)
  }

  /** Whatever the shape, a successful choice is an array or a truthy value:
      an empty or falsy `"assistants"` never stops the search. */
  lemma ChosenIsArrayOrTruthy(data: Json)
    requires ChooseAssistants(data).Ok?
    ensures ChooseAssistants(data).value.JArr? || Truthy(ChooseAssistants(data).value)
  {
  }

  /** The name and id shown for one listed item; JSON `null` stands for `None`. */
  datatype Summary = Summary(name: Json, id: Json)

  /** Name and id of one item: a dict yields its `"name"`/`"id"` values, or
      `None` for an absent key; anything else yields `(None, None)`. */
  function Summarise(item: Json): (s: Summary)
    ensures item.JObj? && "name" in item.fields ==> s.name == item.fields["name"]
    ensures item.JObj? && "id" in item.fields ==> s.id == item.fields["id"]
    ensures item.JObj? && "name" !in item.fields ==> s.name == JNull
    ensures item.JObj? && "id" !in item.fields ==> s.id == JNull
    ensures !item.JObj? ==> s == Summary(JNull, JNull)
  {
    match item
    case JObj(fields) => Summary(Get(fields, "name"), Get(fields, "id"))
    case _ => Summary(JNull, JNull)
  }

  /** The summaries of an array, item by item and in order. */
  function SummariseAll(items: seq<Json>): (r: seq<Summary>)
    ensures |r| == |items|
    ensures forall i :: 0 <= i < |items| ==> r[i] == Summarise(items[i])
  {
    if |items| == 0 then [] else [Summarise(items[0])] + SummariseAll(items[1..])
  }

  /** `n` copies of `(None, None)`. */
  function NoneSummaries(n: nat): (r: seq<Summary>)
    ensures |r| == n
    ensures forall i :: 0 <= i < n ==> r[i] == Summary(JNull, JNull)
  {
    if n == 0 then [] else [Summary(JNull, JNull)] + NoneSummaries(n - 1)
  }

  /** The summaries printed by the loop over the chosen collection. Iterating
      a string yields one-character strings and iterating a dict yields its
      keys, none of which is a dict; a truthy number or `True` cannot be
      iterated. Apart from an empty array, `ChooseAssistants` picks no falsy
      value, so the `null`, `false` and zero cases exist only to make this
      function total. */
  function ListSummaries(chosen: Json): (r: Result<seq<Summary>, PyError>)
    ensures chosen.JArr? ==> r.Ok? && |r.value| == |chosen.items|
    ensures chosen.JArr? ==>
              forall i :: 0 <= i < |chosen.items| ==> r.value[i] == Summarise(chosen.items[i])
    ensures chosen.JStr? ==> r.Ok? && |r.value| == |chosen.s|
    ensures chosen.JObj? ==> r.Ok? && |r.value| == |chosen.fields|
    ensures (chosen.JStr? || chosen.JObj?) ==>
              forall i :: 0 <= i < |r.value| ==> r.value[i] == Summary(JNull, JNull)
    ensures (chosen.JNull? || chosen.JBool? || chosen.JInt? || chosen.JFloat?) ==>
              r == Err(NotIterable)
  {
    match chosen
    case JArr(items) => Ok(SummariseAll(items))
    case JStr(s) => Ok(NoneSummaries(|s|))
    case JObj(fields) => Ok(NoneSummaries(|fields|))
    case _ => Err(NotIterable)
  }

  /** The three accepted shapes — a bare array, `{"assistants": [...]}` and
      `{"data": [...]}` — list the same summaries. */
  lemma ShapesAgree(items: seq<Json>)
    ensures ChooseAssistants(JObj(map["assistants" := JArr(items)])) == Ok(JArr(items))
    ensures ChooseAssistants(JObj(map["data" := JArr(items)])) == Ok(JArr(items))
    ensures ChooseAssistants(JArr(items)) == Ok(JArr(items))
  {
  }

  /** An empty `"assistants"` array falls through to a non-empty `"data"` array. */
  lemma EmptyAssistantsFallsThrough(fields: map<string, Json>)
    requires "assistants" in fields && fields["assistants"] == JArr([])
    requires "data" in fields && fields["data"].JArr? && |fields["data"].items| > 0
    ensures ChooseAssistants(JObj(fields)) == Ok(fields["data"])
  {
  }

  // ---------------------------------------------------------------------------
  // Get
  // ---------------------------------------------------------------------------

  const DefaultSilenceTimeout: Json := JInt(30)

  /** The silence timeout shown: the stored value, whatever it is, when the
      key is present; 30 only when it is absent. */
  function SilenceTimeout(fields: map<string, Json>): (v: Json)
    ensures "silenceTimeoutSeconds" in fields ==> v == fields["silenceTimeoutSeconds"]
    ensures "silenceTimeoutSeconds" !in fields ==> v == JInt(30)
  {
    GetDefault(fields, "silenceTimeoutSeconds", DefaultSilenceTimeout)
  }

  /** The message plan inspected: the stored value when present (even `null`),
      an empty dict only when absent. */
  function MessagePlan(fields: map<string, Json>): (p: Json)
    ensures "messagePlan" in fields ==> p == fields["messagePlan"]
    ensures "messagePlan" !in fields ==> p == JObj(map[])
  {
    GetDefault(fields, "messagePlan", JObj(map[]))
  }

  /** What the idle-message part of the details shows. */
  datatype IdleView =
    | IdleConfigured(messages: Json, timeout: Json, maxCount: Json)
    | NoIdleMessages

  /** The idle-message decision on a message plan: the configured block
      exactly when `idleMessages` is truthy, the notice otherwise; a plan that
      is not a dict has no `.get`. */
  function IdleSection(plan: Json): (r: Result<IdleView, PyError>)
    ensures plan.JObj? <==> r.Ok?
    ensures plan.JObj? ==>
              (r.value.IdleConfigured? <==> Truthy(Get(plan.fields, "idleMessages")))
    ensures r.Ok? && r.value.IdleConfigured? ==>
              && r.value.messages == plan.fields["idleMessages"]
              && r.value.timeout == Get(plan.fields, "idleTimeoutSeconds")
              && r.value.maxCount == Get(plan.fields, "idleMessageMaxSpokenCount")
    ensures !plan.JObj? ==> r == Err(NoAttributeGet)
  {
    match plan
    case JObj(p) =>
      var idle := Get(p, "idleMessages");
      if Truthy(idle) then
        Ok(IdleConfigured(idle, Get(p, "idleTimeoutSeconds"), Get(p, "idleMessageMaxSpokenCount")))
      else
        Ok(NoIdleMessages)
    case _ => Err(NoAttributeGet)
  }

  /** An assistant without `messagePlan`, or whose `idleMessages` is absent,
      `null` or an empty array, shows the "not configured" notice. */
  lemma NoIdleWhenAbsentOrEmpty(fields: map<string, Json>)
    requires "messagePlan" !in fields
             || (fields["messagePlan"].JObj?
                 && ("idleMessages" !in fields["messagePlan"].fields
                     || fields["messagePlan"].fields["idleMessages"] in {JNull, JArr([])}))
    ensures IdleSection(MessagePlan(fields)) == Ok(NoIdleMessages)
  {
  }

  // ---------------------------------------------------------------------------
  // UpdateIdle
  // ---------------------------------------------------------------------------

  const IdlePrompt: string := "Are you still there?"

  /** The fixed PATCH body of UpdateIdle. */
  function IdlePayload(): (p: Json)
    ensures p.JObj? && p.fields.Keys == {"messagePlan", "silenceTimeoutSeconds"}
    ensures p.fields["silenceTimeoutSeconds"] == JInt(30)
    ensures p.fields["messagePlan"].JObj?
    ensures p.fields["messagePlan"].fields.Keys ==
              {"idleMessages", "idleTimeoutSeconds", "idleMessageMaxSpokenCount",
               "idleMessageResetCountOnUserSpeechEnabled"}
    ensures p.fields["messagePlan"].fields["idleMessages"] == JArr([JStr("Are you still there?")])
    ensures p.fields["messagePlan"].fields["idleTimeoutSeconds"] == JInt(10)
    ensures p.fields["messagePlan"].fields["idleMessageMaxSpokenCount"] == JInt(2)
    ensures p.fields["messagePlan"].fields["idleMessageResetCountOnUserSpeechEnabled"] == JBool(true)
  {
    JObj(map[
      "messagePlan" := JObj(map[
        "idleMessages" := JArr([JStr(IdlePrompt)]),
        "idleTimeoutSeconds" := JInt(10),
        "idleMessageMaxSpokenCount" := JInt(2),
        "idleMessageResetCountOnUserSpeechEnabled" := JBool(true)
      ]),
      "silenceTimeoutSeconds" := JInt(30)
    ])
  }

  /** Read back through the Get operation's decisions, the payload shows the
      configured block with its own values and a 30-second silence timeout. */
  lemma PayloadReadsAsConfigured()
    ensures IdlePayload().JObj?
    ensures SilenceTimeout(IdlePayload().fields) == JInt(30)
    ensures IdleSection(MessagePlan(IdlePayload().fields)) ==
              Ok(IdleConfigured(JArr([JStr(IdlePrompt)]), JInt(10), JInt(2)))
  {
  }
}
