/**
  The command-line front end of `main`: resolving the API key, API URL and
  assistant id from the environment and the argument vector, and the ordered
  decision table that selects List, Get, UpdateIdle or exit code 2.

  `argv` is the whole argument vector, `argv[0]` (the script name) included;
  `env` is the process environment after `.env` loading.
 */
module Dispatch {
  import opened Wrappers

  type Env = map<string, string>

  const DefaultApiUrl: string := "https://api.vapi.ai"

  /** Values of `VAPI_LIST` that switch on List mode. */
  const ListTokens: set<string> := {"1", "true", "TRUE"}

  /** `os.environ.get(name)`. */
  function EnvGet(env: Env, name: string): Option<string> {
    if name in env then Some(env[name]) else None
  }

  /** `sys.argv[i] if len(sys.argv) > i else None`. */
  function Arg(argv: seq<string>, i: nat): Option<string> {
    if |argv| > i then Some(argv[i]) else None
  }

  /** Python truthiness of an optional string: present and non-empty. */
  predicate Filled(o: Option<string>) {
    o.Some? && o.value != ""
  }

  /** Python's `a or b` on optional strings: `a` when truthy, `b` otherwise. */
  function OrElse(a: Option<string>, b: Option<string>): Option<string> {
    if Filled(a) then a else b
  }

  /** The API key: a non-empty `VAPI_API_KEY`, otherwise the first positional argument. */
  function ApiKey(argv: seq<string>, env: Env): (k: Option<string>)
    ensures Filled(k) <==> Filled(EnvGet(env, "VAPI_API_KEY")) || (|argv| > 1 && argv[1] != "")
    ensures Filled(EnvGet(env, "VAPI_API_KEY")) ==> k == Some(env["VAPI_API_KEY"])
    ensures !Filled(EnvGet(env, "VAPI_API_KEY")) && |argv| > 1 ==> k == Some(argv[1])
  {
    OrElse(EnvGet(env, "VAPI_API_KEY"), Arg(argv, 1))
  }

  /** The assistant id: a non-empty `VAPI_ASSISTANT_ID`, otherwise the second positional argument. */
  function AssistantId(argv: seq<string>, env: Env): (a: Option<string>)
    ensures Filled(a) <==> Filled(EnvGet(env, "VAPI_ASSISTANT_ID")) || (|argv| > 2 && argv[2] != "")
    ensures Filled(EnvGet(env, "VAPI_ASSISTANT_ID")) ==> a == Some(env["VAPI_ASSISTANT_ID"])
    ensures !Filled(EnvGet(env, "VAPI_ASSISTANT_ID")) && |argv| > 2 ==> a == Some(argv[2])
  {
    OrElse(EnvGet(env, "VAPI_ASSISTANT_ID"), Arg(argv, 2))
  }

  /** The API URL: `VAPI_API_URL` whenever it is set (even to the empty string),
      the public endpoint otherwise. */
  function ApiUrl(env: Env): (u: string)
    ensures "VAPI_API_URL" in env ==> u == env["VAPI_API_URL"]
    ensures "VAPI_API_URL" !in env ==> u == DefaultApiUrl
  {
    EnvGet(env, "VAPI_API_URL").GetOr(DefaultApiUrl)
  }

  /** `VAPI_LIST` is set to one of the List tokens. */
  predicate ListEnvOn(env: Env) {
    var v := EnvGet(env, "VAPI_LIST");
    v.Some? && v.value in ListTokens
  }

  /** Why `main` stopped before any request. */
  datatype ExitReason = MissingApiKey | MissingIdForGet | MissingIdForUpdate | NoMode

  /** What `main` decides to do. */
  datatype Decision =
    | RunList(apiKey: string, apiUrl: string)
    | RunGet(apiKey: string, apiUrl: string, assistantId: string)
    | RunUpdateIdle(apiKey: string, apiUrl: string, assistantId: string)
    | Exit(code: int, reason: ExitReason)

  /** The decision table of `main`, rule by rule in the source's order,
      including the rules that can never fire. */
  function Decide(argv: seq<string>, env: Env): (d: Decision)
    // exit 2 happens exactly when no API key resolves, and then for that reason only
    ensures d.Exit? <==> !Filled(ApiKey(argv, env))
    ensures d.Exit? ==> d == Exit(2, MissingApiKey)
    // every operation carries the resolved, non-empty key and the resolved URL
    ensures !d.Exit? ==> d.apiKey == ApiKey(argv, env).value && d.apiKey != ""
    ensures !d.Exit? ==> d.apiUrl == ApiUrl(env)
    // Get and UpdateIdle always carry the resolved, non-empty assistant id
    ensures (d.RunGet? || d.RunUpdateIdle?) ==>
              Filled(AssistantId(argv, env)) && d.assistantId == AssistantId(argv, env).value
  {
    var key := ApiKey(argv, env);
    var url := ApiUrl(env);
    var id := AssistantId(argv, env);
    if !Filled(key) then
      Exit(2, MissingApiKey)
    else if "--list" in argv || ListEnvOn(env) || !Filled(id) then
      RunList(key.value, url)
    else if "--get" in argv then
      if !Filled(id) then Exit(2, MissingIdForGet) else RunGet(key.value, url, id.value)
    else if "--update-idle" in argv then
      if !Filled(id) then Exit(2, MissingIdForUpdate) else RunUpdateIdle(key.value, url, id.value)
    else if Filled(id) then
      RunGet(key.value, url, id.value)
    else
      Exit(2, NoMode)
  }

  /** The operation tags, for statements about selection alone. */
  datatype Op = ListOp | GetOp | UpdateIdleOp | ExitOp

  function OpOf(d: Decision): Op {
    match d
    case RunList(_, _) => ListOp
    case RunGet(_, _, _) => GetOp
    case RunUpdateIdle(_, _, _) => UpdateIdleOp
    case Exit(_, _) => ExitOp
  }

  /** The selection rule as a flat table with the dead rules removed:
      no key, then List triggers, then `--get`, then `--update-idle`, else Get. */
  function Table(hasKey: bool, listFlag: bool, listEnv: bool, hasId: bool,
                 getFlag: bool, updateFlag: bool): Op
  {
    if !hasKey then ExitOp
    else if listFlag || listEnv || !hasId then ListOp
    else if getFlag then GetOp
    else if updateFlag then UpdateIdleOp
    else GetOp
  }

  /** `main` selects exactly what the flat table selects. */
  lemma DecideMatchesTable(argv: seq<string>, env: Env)
    ensures OpOf(Decide(argv, env)) ==
            Table(Filled(ApiKey(argv, env)), "--list" in argv, ListEnvOn(env),
                  Filled(AssistantId(argv, env)), "--get" in argv, "--update-idle" in argv)
  {
  }

  /** None of the "assistant id required" exits and not the final usage exit
      can be reached: exit 2 only ever means the key is missing. */
  lemma DeadExitsUnreachable(argv: seq<string>, env: Env)
    ensures Decide(argv, env) != Exit(2, MissingIdForGet)
    ensures Decide(argv, env) != Exit(2, MissingIdForUpdate)
    ensures Decide(argv, env) != Exit(2, NoMode)
  {
  }

  /** List wins over every other flag once a key is present: `--list` anywhere
      in argv (even as argv[0]), a List token in `VAPI_LIST`, or no usable id. */
  lemma ListPrecedence(argv: seq<string>, env: Env)
    requires Filled(ApiKey(argv, env))
    requires "--list" in argv || ListEnvOn(env) || !Filled(AssistantId(argv, env))
    ensures Decide(argv, env) == RunList(ApiKey(argv, env).value, ApiUrl(env))
  {
  }

  /** With a key present, List is chosen only for one of its three triggers. */
  lemma ListOnlyWhenTriggered(argv: seq<string>, env: Env)
    requires Decide(argv, env).RunList?
    ensures "--list" in argv || ListEnvOn(env) || !Filled(AssistantId(argv, env))
  {
  }

  /** `--get` beats `--update-idle` when both are given. */
  lemma GetBeatsUpdate(argv: seq<string>, env: Env)
    requires Filled(ApiKey(argv, env)) && Filled(AssistantId(argv, env))
    requires "--list" !in argv && !ListEnvOn(env)
    requires "--get" in argv
    ensures Decide(argv, env) == RunGet(ApiKey(argv, env).value, ApiUrl(env), AssistantId(argv, env).value)
  {
  }

  /** UpdateIdle is chosen exactly when a key and an id are present, no List
      trigger is set, `--update-idle` is given and `--get` is not. */
  lemma UpdateIdleIff(argv: seq<string>, env: Env)
    ensures Decide(argv, env).RunUpdateIdle? <==>
              Filled(ApiKey(argv, env)) && Filled(AssistantId(argv, env))
              && "--list" !in argv && !ListEnvOn(env)
              && "--get" !in argv && "--update-idle" in argv
  {
  }

  /** With a key and an id but no flag at all, the default is Get. */
  lemma DefaultIsGet(argv: seq<string>, env: Env)
    requires Filled(ApiKey(argv, env)) && Filled(AssistantId(argv, env))
    requires "--list" !in argv && !ListEnvOn(env)
    requires "--get" !in argv && "--update-idle" !in argv
    ensures Decide(argv, env) == RunGet(ApiKey(argv, env).value, ApiUrl(env), AssistantId(argv, env).value)
  {
  }

  /** Without `VAPI_API_KEY`, whatever sits in position 1 is the key, a flag
      included; and a lone flag with no id in the environment lists. */
  lemma FlagInKeyPosition(flag: string, env: Env)
    requires flag != ""
    requires !Filled(EnvGet(env, "VAPI_API_KEY")) && !Filled(EnvGet(env, "VAPI_ASSISTANT_ID"))
    ensures ApiKey(["main.py", flag], env) == Some(flag)
    ensures Decide(["main.py", flag], env) == RunList(flag, ApiUrl(env))
  {
  }

  /** An empty `VAPI_API_KEY` counts as unset: the first positional argument is used. */
  lemma EmptyEnvKeyFallsBack(argv: seq<string>, env: Env)
    requires "VAPI_API_KEY" in env && env["VAPI_API_KEY"] == ""
    requires |argv| > 1
    ensures ApiKey(argv, env) == Some(argv[1])
  {
  }
}
