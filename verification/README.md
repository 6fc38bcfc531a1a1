# Vapi assistant idle-message tool — a Dafny model

The tool is a one-file command-line script. It manages "assistants" on the
Vapi voice-AI API. It resolves an API key, an API URL and an assistant id
from the environment (`VAPI_API_KEY`, `VAPI_API_URL`, `VAPI_ASSISTANT_ID`,
`VAPI_LIST`) and from the positional arguments. An ordered decision table then
picks one of three operations:

- List: `GET {base}/assistant`;
- Get: `GET {base}/assistant/{id}`;
- UpdateIdle: `PATCH {base}/assistant/{id}` with a fixed idle-message body.

It can also stop with exit code 2. The reply is printed. A run that finishes
exits 0 on status 200 and 1 on any other status; a status-200 reply that
raises ends in an uncaught exception (`Crashed`).

This model states that logic as pure functions and proves what it promises:

| file | module | what it holds |
|---|---|---|
| `wrappers.dfy` | `Wrappers` | `Option` and `Result` |
| `pyjson.dfy` | `PyJson` | decoded JSON values, Python truthiness, `dict.get` |
| `urls.dfy` | `Urls` | `str.rstrip('/')` and the endpoint URLs |
| `dispatch.dfy` | `Dispatch` | resolution of key, URL and id; the decision table of `main` |
| `responses.dfy` | `Responses` | list-shape normalisation and item extraction; Get display decisions; the PATCH body |
| `program.dfy` | `Program` | the request of each decision, the status rule, the printed lines, whole-run lemmas |

Printed output is a sequence of tagged lines, one per `print` call. The exact
wording is not modelled. A Python exception is an explicit `Crashed` outcome
that carries the lines printed before it. Such exceptions are `resp.json()` on
a body that is not JSON, `.get` on a value that is not a dict, and iterating a
truthy number or `true` chosen as the assistant collection. Apart from an
empty array, no falsy value is chosen at main.py:26, so the `null`, `false` and zero cases of
`Responses.ListSummaries` exist only to make that function total. The server's reply is an input
`Reply(status, text, body)`, where `body` is the decoded text or `None` when
the text is not JSON.

Three facts about the code that a reader may not expect:

- A missing id already selects List at main.py:110. So the "id required"
  exits at main.py:114-116 and 120-123 and the usage exit at main.py:134-135
  never run. `Dispatch.Decide` keeps all of them, and
  `Dispatch.DeadExitsUnreachable` proves they are dead.
- `rstrip('/')` removes every trailing slash, not just one.
- Only status 200 succeeds. Statuses 201 and 204 exit 1 like any other.

## Model

| member | source | states |
|---|---|---|
| Urls.RStrip | main.py:19 | the result is a prefix of the input, does not end in the stripped character, and only that character follows it in the input |
| Urls.RStripUnique | main.py:19 | no other prefix has those three properties, so they define `rstrip` completely |
| Urls.RStripIdempotent | main.py:19 | stripping twice gives the same result as stripping once |
| Urls.RStripIgnoresTrailing | main.py:19 | appending more of the stripped character does not change the result |
| Urls.Base | main.py:19 | the API base is the configured URL with all trailing '/' removed and never ends in '/' |
| Urls.ListUrl | main.py:19 | the list URL is the stripped base followed by exactly `/assistant`, and the character before that path is not '/' |
| Urls.ItemUrl | main.py:38 | the item URL is the list URL, then '/', then exactly the assistant id (also the PATCH target at main.py:66) |
| Urls.NoDoubleSlash | main.py:19 | in the list URL, the character before the fixed `/assistant` path is not '/' |
| Urls.TrailingSlashesIrrelevant | main.py:38 | extra trailing slashes on the configured URL change neither the list URL nor the item URL |
| Urls.ItemUrlExtendsListUrl | main.py:38 | the item URL is the list URL followed by '/' and the assistant id |
| Urls.ItemUrlInjective | main.py:66 | for one configured URL, different ids give different item URLs |
| Urls.ListUrlEqualIff | main.py:19 | two configured URLs give the same list URL exactly when they agree after stripping trailing slashes |
| Dispatch.ApiKey | main.py:100 | the key is present iff `VAPI_API_KEY` is non-empty or argv[1] exists and is non-empty; a non-empty environment value wins, otherwise argv[1] is used |
| Dispatch.AssistantId | main.py:102 | the same rule for the id, with `VAPI_ASSISTANT_ID` and argv[2] |
| Dispatch.ApiUrl | main.py:101 | `VAPI_API_URL` when it is set, even to "", otherwise `https://api.vapi.ai` |
| Dispatch.Decide | main.py:96-135 | exit happens iff no key resolves, and then always with code 2 for the missing key; every operation carries the resolved non-empty key and the URL; Get and UpdateIdle carry the resolved non-empty id |
| Dispatch.DecideMatchesTable | main.py:110-135 | the selection equals a flat table: no key, then the List triggers, then `--get`, then `--update-idle`, else Get |
| Dispatch.DeadExitsUnreachable | main.py:113-135 | neither "id required" exit nor the final usage exit can happen |
| Dispatch.ListPrecedence | main.py:110-111 | with a key, `--list` anywhere in argv, a List token in `VAPI_LIST`, or a missing or empty id selects List, whatever other flags are given |
| Dispatch.ListOnlyWhenTriggered | main.py:110-111 | List is selected only when one of its three triggers holds |
| Dispatch.GetBeatsUpdate | main.py:113-117 | with key and id and no List trigger, `--get` selects Get even when `--update-idle` is also given |
| Dispatch.UpdateIdleIff | main.py:119-128 | UpdateIdle is selected iff there is a key and an id, no List trigger, no `--get`, and `--update-idle` is given |
| Dispatch.DefaultIsGet | main.py:130-132 | with key and id, no List trigger and no flag, Get is selected |
| Dispatch.FlagInKeyPosition | main.py:100-111 | without `VAPI_API_KEY`, a flag at argv[1] becomes the key, and with no id the run lists |
| Dispatch.EmptyEnvKeyFallsBack | main.py:100 | an empty `VAPI_API_KEY` counts as unset and argv[1] is used |
| Responses.ChooseAssistants | main.py:26 | a top-level array is used as is; for an object the first truthy of `assistants` and `data` is used, else an empty array; any other top-level value raises |
| Responses.ChosenIsArrayOrTruthy | main.py:26 | a successful choice is always an array or a truthy value |
| Responses.ShapesAgree | main.py:26 | a bare array, `{"assistants": [...]}` and `{"data": [...]}` yield the same collection, the empty array included |
| Responses.EmptyAssistantsFallsThrough | main.py:26 | an empty `assistants` array falls through to a non-empty `data` array |
| Responses.Summarise | main.py:29-30 | a dict item yields its `name` and `id`, or None for an absent key; any other item yields (None, None) |
| Responses.SummariseAll | main.py:28-30 | one summary per array item, in order |
| Responses.ListSummaries | main.py:28-30 | an array gives its items' summaries in order; a truthy string or dict gives one (None, None) per character or key; a number, a boolean or null raises, and of these only a truthy number or `true` can be chosen at main.py:26 |
| Responses.SilenceTimeout | main.py:50 | a present `silenceTimeoutSeconds` is shown as is, even null; 30 is shown only when the key is absent |
| Responses.MessagePlan | main.py:53 | a present `messagePlan` is used as is, even null; `{}` is used only when the key is absent |
| Responses.IdleSection | main.py:54-60 | for a dict plan, the configured block is chosen iff `idleMessages` is truthy and then carries the plan's messages, timeout and max count; otherwise the notice is chosen; a plan that is not a dict raises |
| Responses.NoIdleWhenAbsentOrEmpty | main.py:53-60 | an absent plan, or an `idleMessages` that is absent, null or an empty array, shows the "not configured" notice |
| Responses.IdlePayload | main.py:72-82 | the PATCH body has exactly the keys `messagePlan` and `silenceTimeoutSeconds` (30); the plan holds `["Are you still there?"]`, timeout 10, max count 2 and reset-on-speech true |
| Responses.PayloadReadsAsConfigured | main.py:72-82 | read through the Get display decisions, the payload shows the configured block with its own values and a 30-second silence timeout |
| Program.RequestFor | main.py:18-85 | exits send no request; every request has `Bearer <key>` authorization and a 30-second timeout; only UpdateIdle is a PATCH with a JSON body, and that body is the fixed payload; List targets the list URL, Get and UpdateIdle the item URL |
| Program.IdleLines | main.py:55-60 | the configured header is printed iff the view is configured, and then with its messages, timeout and max count; the notice is printed iff it is not |
| Program.SummaryLines | main.py:28-33 | three lines per listed assistant, in order: name, id, separator |
| Program.ListOutcome | main.py:18-34 | any status but 200 exits 1 with the status and raw text; a finished status-200 run exits 0 and prints the header and the blocks of the normalised items; a status-200 reply that decodes, has a list shape and can be iterated always finishes |
| Program.GetOutcome | main.py:36-62 | any status but 200 exits 1 with the status and raw text; a finished status-200 run exits 0 after name, id and silence timeout, and prints exactly one of the idle block and the notice; a status-200 dict reply finishes iff its message plan is a dict, and its idle lines are those the plan calls for |
| Program.UpdateOutcome | main.py:87-94 | any status but 200 exits 1 with the status and raw text; status 200 with a JSON body prints the fixed confirmation; a body that is not JSON raises |
| Program.Run | main.py:96-135 | a run exits 2 with the key error and usage text when the key is missing; List and Get report their reply; UpdateIdle first prints the resolved id, then reports its reply with the same code |
| Program.RequestsCarryKey | main.py:104-107 | no request is made iff no key resolves, and every request carries the resolved non-empty key as a bearer token |
| Program.ExitTwoIffNoKey | main.py:104-107 | whatever the reply, a run exits 2 iff no key resolves, after printing the key error and the usage text |
| Program.StatusExactly200 | main.py:18-94 | for every operation, a status other than 200 exits 1 and the last line is the status with the raw text; a finished status-200 run exits 0 |
| Program.NoIdMeansListRequest | main.py:110-111 | with a key and no id, the one request is an authorized GET of `{base}/assistant` |
| Program.UpdatePayloadFixed | main.py:72-85 | any two UpdateIdle runs send the same body, the fixed payload, whatever their key, URL, id or environment |
| Program.UpdateSuccessIgnoresBody | main.py:91-94 | a successful update prints the same lines whatever JSON the server returns |
| Program.ListOfArray | main.py:26-33 | for a top-level array, the output is the header followed by, per item in order, its name, id and separator lines |
| Program.ListShapesPrintAlike | main.py:26-33 | `{"assistants": [...]}`, `{"data": [...]}` and a bare array produce the same List outcome, whatever the status |
| Program.SilenceDefaultShown | main.py:50 | a status-200 dict reply without `silenceTimeoutSeconds` shows 30 as the timeout, even when the message plan then raises |

## Left out

- The HTTP calls (`requests.get`, `requests.patch`) and their 30-second timeout: the model records the timeout in the request, and the reply is an input. Connection failures and timeouts raised by the HTTP library are not modelled.
- `resp.json()` decoding: the reply carries the already decoded body, or `None` when the text is not JSON.
- `load_dotenv()` and the reads of `os.environ` and `sys.argv`: the environment is a map and the argument vector is a sequence, both given.
- Exact console text, emoji and the wording of `usage()`: output is a sequence of tagged lines.
- Python's exception messages and tracebacks: an exception is a `Crashed` outcome with an error tag.
- `raise SystemExit(main())` at main.py:137-138: the exit code is the `code` of `Finished`.
- The interpreter's exit status after an uncaught exception: a `Crashed` outcome has no exit code.
- JSON `NaN` and `Infinity`, which Python's decoder accepts: numbers are integers or reals.
- The order of a dict's keys: iterating a dict that was chosen as the assistant collection yields only non-dict keys, so every summary is (None, None) and only the number of keys matters.
- `getattr(assistant, "name", None)` on objects with attributes: decoded JSON values have no such attributes, so the non-dict branch always yields None.
