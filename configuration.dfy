/**
 * `Config` in src/index.js: the values the action reads from its environment
 * and its `message` input once, at start-up, and the check that the required
 * ones are present. The object is never changed after construction, so it is
 * a value here; building it either succeeds or throws, which is a `Result`.
 */
module Configuration {
  import opened Wrappers

  /** The environment variables the action reads; `None` when a variable is unset. */
  datatype Env = Env(
    baseUrl: Option<string>,   // BASE_URL
    apiUrl: Option<string>,    // API_URL
    apiKey: Option<string>,    // API_KEY
    message: Option<string>,   // MESSAGE
    token: Option<string>      // GITHUB_TOKEN
  )

  datatype Config = Config(baseUrl: string, apiUrl: string, apiKey: string, message: string, token: string)

  const DefaultMessage: string := "请添加 ticket 链接!"
  const BaseUrlRequired: string := "BASE_URL environment variable is required"
  const TokenRequired: string := "GITHUB_TOKEN environment variable is required"

  /** JavaScript truthiness of a possibly unset string: set and non-empty. */
  predicate Truthy(v: Option<string>) {
    v.Some? && v.value != ""
  }

  /** `v || fallback` for a possibly unset string. */
  function Or(v: Option<string>, fallback: string): (r: string)
    ensures Truthy(v) ==> r == v.value
    ensures !Truthy(v) ==> r == fallback
  {
    if Truthy(v) then v.value else fallback
  }

  /** A possibly unset string in string concatenation: an unset one reads `undefined`. */
  function Str(v: Option<string>): string {
    match v
    case Some(s) => s
    case None => "undefined"
  }

  /**
   * `core.getInput('message') || process.env.MESSAGE || <default>`: the first
   * non-empty of the three, so never empty. `getInput` gives `''` for an
   * input that is not set.
   */
  function CommentMessage(messageInput: string, env: Env): (r: string)
    ensures r != ""
    ensures messageInput != "" ==> r == messageInput
    ensures messageInput == "" && Truthy(env.message) ==> r == env.message.value
    ensures messageInput == "" && !Truthy(env.message) ==> r == DefaultMessage
  {
    if messageInput != "" then messageInput else Or(env.message, DefaultMessage)
  }

  /**
   * The constructor of `Config` with `validateConfig`: fails exactly when
   * BASE_URL or GITHUB_TOKEN is unset or empty, reporting BASE_URL first.
   */
  function LoadConfig(env: Env, messageInput: string): (r: Result<Config, string>)
    ensures r.Err? <==> !Truthy(env.baseUrl) || !Truthy(env.token)
    ensures !Truthy(env.baseUrl) ==> r == Err(BaseUrlRequired)
    ensures Truthy(env.baseUrl) && !Truthy(env.token) ==> r == Err(TokenRequired)
    ensures r.Ok? ==> r.value.baseUrl == env.baseUrl.value != "" && r.value.token == env.token.value != ""
    ensures r.Ok? ==> r.value.apiUrl == Str(env.apiUrl) + "/api"
    ensures r.Ok? ==> r.value.apiKey == Or(env.apiKey, "")
    ensures r.Ok? ==> r.value.message == CommentMessage(messageInput, env)
  {
    var config := Config(
      Str(env.baseUrl),
      Str(env.apiUrl) + "/api",
      Or(env.apiKey, ""),
      CommentMessage(messageInput, env),
      Str(env.token));
    if !Truthy(env.baseUrl) then Err(BaseUrlRequired)
    else if !Truthy(env.token) then Err(TokenRequired)
    else Ok(config)
  }
}
