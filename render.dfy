/**
 * The Render provisioning variant: one service-creation request carrying a
 * fixed list of five variables, and a case-insensitive status table. The
 * hosting API is an oracle passed in as a function.
 */
module Render {
  import opened Wrappers
  import opened Bytes
  import opened Text
  import opened Lifecycle
  import Tokens
  import Railway

  /** One entry of `envVars`. */
  datatype EnvVar = EnvVar(key: string, value: string)

  /** The body of the service-creation request. */
  datatype ServiceRequest = ServiceRequest(
    serviceType: string,
    name: string,
    ownerId: Option<string>,
    imagePath: string,
    plan: string,
    region: string,
    runtime: string,
    numInstances: nat,
    healthCheckPath: string,
    envVars: seq<EnvVar>)

  /** The created service as the API describes it; `url` stands for `serviceDetails?.url`. */
  datatype RenderService = RenderService(id: string, url: Option<string>)

  /** The answer to the creation request: a status line and body, or a rejected round trip. */
  datatype CreateResponse =
    | CreateResponse(ok: bool, status: nat, text: string, data: RenderService)
    | CreateRejected(message: string)

  /** The state fields of a service: `serviceDetails?.runningStatus` and `status`. */
  datatype ServiceState = ServiceState(runningStatus: Option<string>, status: Option<string>)

  datatype StatusResponse = StatusResponse(ok: bool, data: ServiceState) | StatusRejected(message: string)

  const GatewayPort: string := "18789"
  const DefaultImage: string := "docker.io/openclaw/openclaw:latest"

  /** The provider a model selector maps to; an unknown or empty entry falls back to anthropic. */
  function Provider(model: string): (r: string)
    ensures model == "gpt" ==> r == "openai"
    ensures model == "gemini" ==> r == "google"
    ensures model != "gpt" && model != "gemini" ==> r == "anthropic"
  {
    if model == "claude" then "anthropic"
    else if model == "gpt" then "openai"
    else if model == "gemini" then "google"
    else "anthropic"
  }

  /** The value stored under `key` in a variable list (the first entry with it), if any. */
  function Lookup(vars: seq<EnvVar>, key: string): Option<string> {
    if vars == [] then None
    else if vars[0].key == key then Some(vars[0].value)
    else Lookup(vars[1..], key)
  }

  /**
   * The variables the service is created with: the access token, the AI
   * provider of the model, the channel and the gateway port twice.
   */
  function EnvVars(token: string, model: string, channel: string): (vs: seq<EnvVar>) {
    [ EnvVar("OPENCLAW_TOKEN", token),
      EnvVar("OPENCLAW_AI_PROVIDER", Provider(model)),
      EnvVar("OPENCLAW_CHANNEL", channel),
      EnvVar("OPENCLAW_GATEWAY_PORT", GatewayPort),
      EnvVar("PORT", GatewayPort) ]
  }

  /**
   * The list has exactly the five keys, in that order, with no key twice,
   * and lookup finds each value where it was put.
   */
  lemma EnvVarsShape(token: string, model: string, channel: string)
    ensures var vs := EnvVars(token, model, channel);
      |vs| == 5 &&
      vs[0].key == "OPENCLAW_TOKEN" && vs[1].key == "OPENCLAW_AI_PROVIDER" && vs[2].key == "OPENCLAW_CHANNEL" &&
      vs[3].key == "OPENCLAW_GATEWAY_PORT" && vs[4].key == "PORT" &&
      (forall i, j :: 0 <= i < j < |vs| ==> vs[i].key != vs[j].key) &&
      Lookup(vs, "OPENCLAW_TOKEN") == Some(token) &&
      Lookup(vs, "OPENCLAW_AI_PROVIDER") == Some(Provider(model)) &&
      Lookup(vs, "OPENCLAW_CHANNEL") == Some(channel) &&
      Lookup(vs, "OPENCLAW_GATEWAY_PORT") == Some("18789") &&
      Lookup(vs, "PORT") == Some("18789")
  {
    var vs := EnvVars(token, model, channel);
    var t3 := vs[3..];
    assert t3[1..] == [EnvVar("PORT", "18789")];
    assert Lookup(t3, "PORT") == Lookup(t3[1..], "PORT") == Some("18789");
    assert Lookup(vs[2..], "PORT") == Lookup(t3, "PORT") by { assert vs[2..][1..] == t3; }
    assert Lookup(vs[1..], "PORT") == Lookup(vs[2..], "PORT") by { assert vs[1..][1..] == vs[2..]; }
    assert Lookup(vs[2..], "OPENCLAW_GATEWAY_PORT") == Lookup(t3, "OPENCLAW_GATEWAY_PORT") == Some("18789")
      by { assert vs[2..][1..] == t3; }
    assert Lookup(vs[1..], "OPENCLAW_GATEWAY_PORT") == Lookup(vs[2..], "OPENCLAW_GATEWAY_PORT")
      by { assert vs[1..][1..] == vs[2..]; }
    assert Lookup(vs[1..], "OPENCLAW_CHANNEL") == Lookup(vs[2..], "OPENCLAW_CHANNEL") == Some(channel)
      by { assert vs[1..][1..] == vs[2..]; }
  }

  /** The creation request for a user's runtime; `now` is the clock, `env` the process environment. */
  function Request(userId: string, channel: string, model: string, token: string,
                   env: map<string, string>, now: nat): (q: ServiceRequest)
  {
    var image := if "RENDER_OPENCLAW_IMAGE" in env && env["RENDER_OPENCLAW_IMAGE"] != ""
                 then env["RENDER_OPENCLAW_IMAGE"] else DefaultImage;
    var owner := if "RENDER_OWNER_ID" in env then Some(env["RENDER_OWNER_ID"]) else None;
    ServiceRequest("web_service", Railway.ProjectName(userId, now), owner, image,
                   "starter", "oregon", "image", 1, "/", EnvVars(token, model, channel))
  }

  /**
   * `createOpenclaw`: one creation request. A response that is not ok throws
   * "Render API error: " with the status and body; otherwise the service id
   * is returned with its address (the one the API gives, else the default
   * host of the service name) and the very token the service was given.
   */
  function CreateOpenclaw(userId: string, channel: string, model: string, env: map<string, string>,
                          now: nat, random: seq<byte>, api: ServiceRequest -> CreateResponse)
    : (r: Result<Railway.Created, string>)
    requires |random| == Tokens.TokenBytes
    ensures var q := Request(userId, channel, model, Tokens.GenerateToken(random), env, now);
      var resp := api(q);
      && (r.Ok? <==> resp.CreateResponse? && resp.ok)
      && (resp.CreateResponse? && !resp.ok ==>
            r == Err("Render API error: " + NatToString(resp.status) + " " + resp.text))
      && (resp.CreateRejected? ==> r == Err(resp.message))
      && (r.Ok? ==>
            && Lookup(q.envVars, "OPENCLAW_TOKEN") == Some(r.value.token)
            && Tokens.Unhex(r.value.token) == Some(random)
            && r.value.serviceId == resp.data.id
            && (resp.data.url.Some? ==> r.value.serviceUrl == resp.data.url.value)
            && (resp.data.url.None? ==> r.value.serviceUrl == "https://" + q.name + ".onrender.com"))
  {
    var token := Tokens.GenerateToken(random);
    var q := Request(userId, channel, model, token, env, now);
    EnvVarsShape(token, model, channel);
    match api(q)
    case CreateRejected(m) => Err(m)
    case CreateResponse(ok, status, text, data) =>
      if !ok then Err("Render API error: " + NatToString(status) + " " + text)
      else Ok(Railway.Created(data.id, data.url.GetOr("https://" + q.name + ".onrender.com"), token))
  }

  /** The running status of the service, else its status, else "unknown". */
  function RawState(d: ServiceState): (state: string)
    ensures d.runningStatus.Some? ==> state == d.runningStatus.value
    ensures d.runningStatus.None? && d.status.Some? ==> state == d.status.value
    ensures d.runningStatus.None? && d.status.None? ==> state == "unknown"
  {
    if d.runningStatus.Some? then d.runningStatus.value
    else if d.status.Some? then d.status.value
    else "unknown"
  }

  /** The table on lower-cased states; anything else is deploying. */
  function MapRenderStatus(state: string): (st: Status)
    ensures st == Running <==> state == "live"
    ensures st == Failed <==> state in {"failed", "suspended"}
    ensures st == Deploying <==> state !in {"live", "failed", "suspended"}
  {
    match state
    case "live" => Running
    case "deploying" => Deploying
    case "building" => Deploying
    case "failed" => Failed
    case "suspended" => Failed
    case _ => Deploying
  }

  /**
   * `getServiceStatus`: "unknown" when the response is not ok; otherwise the
   * table applied to the lower-cased raw state, so the reading is never
   * pending and never unknown. A rejected round trip propagates.
   */
  function ServiceStatus(resp: StatusResponse): (r: Result<Status, string>)
    ensures resp.StatusRejected? ==> r == Err(resp.message)
    ensures resp.StatusResponse? && !resp.ok ==> r == Ok(Unknown)
    ensures resp.StatusResponse? && resp.ok ==> r == Ok(MapRenderStatus(LowerAscii(RawState(resp.data))))
    ensures resp.StatusResponse? && resp.ok ==>
      r.Ok? && r.value in {Running, Deploying, Failed} &&
      (r.value == Running <==> LowerAscii(RawState(resp.data)) == "live")
  {
    match resp
    case StatusRejected(m) => Err(m)
    case StatusResponse(ok, data) =>
      if !ok then Ok(Unknown) else Ok(MapRenderStatus(LowerAscii(RawState(data))))
  }

  /** The reading does not depend on letter case: "LIVE", "Live" and "live" all read as running. */
  lemma StatusIgnoresCase(a: ServiceState, b: ServiceState)
    requires LowerAscii(RawState(a)) == LowerAscii(RawState(b))
    ensures ServiceStatus(StatusResponse(true, a)) == ServiceStatus(StatusResponse(true, b))
  {
  }

  /** A service with no state fields reads "unknown", which the table sends to deploying. */
  lemma MissingStateIsDeploying()
    ensures ServiceStatus(StatusResponse(true, ServiceState(None, None))) == Ok(Deploying)
  {
  }
}
