/**
 * The runtime's bootstrap configuration (`buildOpenclawConfig`), its transport
 * encoding and the service variables of the Railway provisioning library.
 */
module RailwayConfig {
  import opened Wrappers
  import opened Bytes
  import Json
  import Base64

  /** The model the runtime is given when the selector is not in the table. */
  const DefaultModel: string := "claude-sonnet-4-6"

  /** The port the runtime's gateway listens on. */
  const GatewayPort: string := "18789"

  /** The model table: our model selector to the runtime's model identifier. */
  function ModelName(model: string): Option<string> {
    if model == "claude" then Some("claude-sonnet-4-6")
    else if model == "gpt" then Some("gpt-4o")
    else if model == "gemini" then Some("gemini-2.0-flash")
    else None
  }

  /** The key table: our model selector to the variable that holds its API key. */
  function ModelApiKeyEnv(model: string): Option<string> {
    if model == "claude" then Some("ANTHROPIC_API_KEY")
    else if model == "gpt" then Some("OPENAI_API_KEY")
    else if model == "gemini" then Some("GOOGLE_API_KEY")
    else None
  }

  /** An optional string with a fallback: absent and empty both fall back. */
  function OrElse(value: Option<string>, fallback: string): string {
    if value.Some? && value.value != "" then value.value else fallback
  }

  /** A variable of the process environment, which `env` stands for; an unset one reads as empty. */
  function EnvValue(env: map<string, string>, name: string): string {
    if name in env then env[name] else ""
  }

  datatype TelegramConfig = TelegramConfig(enabled: bool, botToken: string, dmPolicy: string)

  /** The configuration document: the primary model and the `channels` object. */
  datatype OpenclawConfig = OpenclawConfig(primary: string, telegram: Option<TelegramConfig>)

  /**
   * `buildOpenclawConfig` before serialisation. The primary model follows the
   * table with the documented default; exactly the telegram channel gets a
   * block, enabled and open, carrying the given token or "".
   */
  function BuildConfig(channel: string, model: string, botToken: Option<string>): (c: OpenclawConfig)
    ensures model == "claude" ==> c.primary == "claude-sonnet-4-6"
    ensures model == "gpt" ==> c.primary == "gpt-4o"
    ensures model == "gemini" ==> c.primary == "gemini-2.0-flash"
    ensures model !in {"claude", "gpt", "gemini"} ==> c.primary == DefaultModel
    ensures c.telegram.Some? <==> channel == "telegram"
    ensures c.telegram.Some? ==>
      c.telegram.value == TelegramConfig(true, if botToken.Some? then botToken.value else "", "open")
  {
    OpenclawConfig(
      OrElse(ModelName(model), DefaultModel),
      if channel == "telegram" then Some(TelegramConfig(true, OrElse(botToken, ""), "open")) else None)
  }

  /** The document as the object literal of the source lays it out. */
  function ToJson(c: OpenclawConfig): Json.Value {
    var model := Json.Object([Json.Member("primary", Json.Str(c.primary))]);
    var agents := Json.Object([Json.Member("defaults", Json.Object([Json.Member("model", model)]))]);
    var channels :=
      if c.telegram.None? then Json.Object([])
      else
        var t := c.telegram.value;
        Json.Object([Json.Member("telegram", Json.Object([
          Json.Member("enabled", Json.Bool(t.enabled)),
          Json.Member("botToken", Json.Str(t.botToken)),
          Json.Member("dmPolicy", Json.Str(t.dmPolicy))]))]);
    Json.Object([Json.Member("agents", agents), Json.Member("channels", channels)])
  }

  /** The configuration serialised as JSON text. */
  function ConfigJson(c: OpenclawConfig): string {
    Json.Serialize(ToJson(c))
  }

  /** A character a shell would give a meaning to inside or around a double-quoted word. */
  predicate IsShellSpecial(ch: char) {
    ch == '"' || ch == '\'' || ch == '`' || ch == '\\' || ch == '$' || ch == ' ' || ch == ';'
    || ch == '&' || ch == '|' || ch == '\n'
  }

  /** The configuration as it is handed to the container: the UTF-8 bytes of the JSON text in Base64. */
  function ConfigBase64(c: OpenclawConfig): string {
    Base64.Encode(Utf8(ConfigJson(c)))
  }

  /**
   * The transport encoding loses nothing: decoding it on the host gives back
   * exactly the bytes of the JSON text, and the encoded text holds no
   * character a shell would interpret.
   */
  lemma ConfigBase64RoundTrip(c: OpenclawConfig)
    ensures Base64.Decode(ConfigBase64(c)) == Some(Utf8(ConfigJson(c)))
    ensures forall i :: 0 <= i < |ConfigBase64(c)| ==>
      (Base64.IsBase64Char(ConfigBase64(c)[i]) || ConfigBase64(c)[i] == '=') && !IsShellSpecial(ConfigBase64(c)[i])
  {
    Base64.DecodeEncode(Utf8(ConfigJson(c)));
  }

  /**
   * The service variables: the encoded document and the port always, the
   * model's API key when the model has a slot and the environment a non-empty
   * value for it, the bot token when one is given and non-empty; nothing else.
   */
  function Variables(configB64: string, model: string, env: map<string, string>, botToken: Option<string>)
    : (v: map<string, string>)
    ensures var slot := ModelApiKeyEnv(model);
      var hasKey := slot.Some? && slot.value in env && env[slot.value] != "";
      var hasBot := botToken.Some? && botToken.value != "";
      (forall k :: k in v <==>
         k == "OPENCLAW_CONFIG_B64" || k == "PORT"
         || (hasKey && k == slot.value) || (hasBot && k == "TELEGRAM_BOT_TOKEN")) &&
      v["OPENCLAW_CONFIG_B64"] == configB64 && v["PORT"] == "18789" &&
      (hasKey ==> v[slot.value] == env[slot.value]) &&
      (hasBot ==> v["TELEGRAM_BOT_TOKEN"] == botToken.value)
  {
    var base := map["OPENCLAW_CONFIG_B64" := configB64, "PORT" := GatewayPort];
    var apiKeyEnv := ModelApiKeyEnv(model);
    var apiKeyValue := if apiKeyEnv.Some? then EnvValue(env, apiKeyEnv.value) else "";
    var withKey := if apiKeyEnv.Some? && apiKeyValue != "" then base[apiKeyEnv.value := apiKeyValue] else base;
    if botToken.Some? && botToken.value != "" then withKey["TELEGRAM_BOT_TOKEN" := botToken.value] else withKey
  }
}
