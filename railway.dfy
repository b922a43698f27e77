/**
 * The Railway provisioning library: the GraphQL error rule, the six-step
 * provisioning sequence, the composite handle, teardown and the status read.
 * The platform is an oracle object that records every request it is sent.
 */
module Railway {
  import opened Wrappers
  import opened Bytes
  import opened Text
  import opened Lifecycle
  import Tokens
  import Cfg = RailwayConfig

  /** One GraphQL operation, with the variables the source sends. */
  datatype Request =
    | ProjectCreate(name: string)
    | ServiceCreate(projectId: string, serviceName: string, image: string)
    | ServiceInstanceUpdate(serviceId: string, environmentId: string, numReplicas: nat, startCommand: string)
    | VariableCollectionUpsert(projectId: string, environmentId: string, serviceId: string,
                               variables: map<string, string>, skipDeploys: bool)
    | ServiceDomainCreate(serviceId: string, environmentId: string)
    | ServiceInstanceRedeploy(serviceId: string, environmentId: string)
    | ProjectDelete(id: string)
    | ServiceInstanceQuery(serviceId: string, environmentId: string)

  datatype LatestDeployment = LatestDeployment(status: Option<string>)

  datatype ServiceInstance = ServiceInstance(latestDeployment: Option<LatestDeployment>)

  /** The `data` of a GraphQL response, in the shapes the queries ask for. */
  datatype Payload =
    | ProjectCreated(id: string, environmentIds: seq<string>)
    | ServiceCreated(id: string)
    | DomainCreated(domain: string)
    | InstanceStatus(serviceInstance: Option<ServiceInstance>)
    | Scalar

  /** A GraphQL response (`errors` holds the messages), or a failed round trip. */
  datatype Reply = Reply(errors: seq<string>, data: Payload) | TransportFailure(message: string)

  /** What a Railway call can throw. */
  datatype Failure =
    | ApiError(firstMessage: string)
    | TransportError(message: string)
    | TypeError(message: string)
  {
    /** The message the thrown error carries. */
    function Message(): string {
      match this
      case ApiError(m) => "Railway API: " + m
      case TransportError(m) => m
      case TypeError(m) => m
    }
  }

  const ReadingId: string := "Cannot read properties of undefined (reading 'id')"
  const ReadingNode: string := "Cannot read properties of undefined (reading 'node')"
  const ReadingDomain: string := "Cannot read properties of undefined (reading 'domain')"

  /**
   * `gql`: a response with at least one error throws "Railway API: " and the
   * first message; otherwise its data is returned.
   */
  function Gql(reply: Reply): (r: Result<Payload, Failure>)
    ensures reply.Reply? && |reply.errors| > 0 ==>
      r.Err? && r.error.Message() == "Railway API: " + reply.errors[0]
    ensures reply.Reply? && |reply.errors| == 0 ==> r == Ok(reply.data)
    ensures reply.TransportFailure? ==> r == Err(TransportError(reply.message))
  {
    match reply
    case TransportFailure(m) => Err(TransportError(m))
    case Reply(errs, data) => if |errs| > 0 then Err(ApiError(errs[0])) else Ok(data)
  }

  /**
   * The remote control API. `world` says how the platform answers the n-th
   * request it receives; `log` is every request sent so far.
   */
  class Platform {
    var log: seq<Request>
    const world: (nat, Request) -> Reply

    constructor (world: (nat, Request) -> Reply)
      ensures this.world == world && log == []
    {
      this.world := world;
      log := [];
    }

    method Send(q: Request) returns (reply: Reply)
      modifies this
      ensures log == old(log) + [q]
      ensures reply == world(|old(log)|, q)
    {
      reply := world(|log|, q);
      log := log + [q];
    }
  }

  /** The parameters of a service creation. */
  datatype CreateParams = CreateParams(name: string, channel: string, model: string, userId: string,
                                       botToken: Option<string>)

  /** What `createOpenclaw` returns: the composite handle, the public URL and the access token. */
  datatype Created = Created(serviceId: string, serviceUrl: string, token: string)

  /** The composite handle `projectId::serviceId::envId`. */
  function EncodeHandle(projectId: string, serviceId: string, envId: string): string {
    projectId + Delimiter + serviceId + Delimiter + envId
  }

  predicate NoColon(s: string) {
    forall i :: 0 <= i < |s| ==> s[i] != ':'
  }

  /** Splitting a handle on "::" gives back its three identifiers. */
  lemma HandleRoundTrip(projectId: string, serviceId: string, envId: string)
    requires NoColon(projectId) && NoColon(serviceId) && NoColon(envId)
    ensures SplitDoubleColon(EncodeHandle(projectId, serviceId, envId)) == [projectId, serviceId, envId]
  {
    var tail := serviceId + Delimiter + envId;
    assert EncodeHandle(projectId, serviceId, envId) == projectId + Delimiter + tail;
    SplitAfterPiece(projectId, tail);
    SplitAfterPiece(serviceId, envId);
    SplitNoColon(envId);
  }

  /** The project name: a fixed prefix, the first eight characters of the user id and the creation time. */
  function ProjectName(userId: string, now: nat): string {
    "palclaw-" + Prefix(userId, 8) + "-" + NatToString(now)
  }

  /** The image the service runs: the configured one, or node:22 when none is set or it is empty. */
  function Image(env: map<string, string>): string {
    var v := Cfg.EnvValue(env, "RAILWAY_OPENCLAW_IMAGE");
    if v != "" then v else "node:22"
  }

  /**
   * The start command of the service instance: install the runtime, decode
   * `$OPENCLAW_CONFIG_B64` into the runtime's configuration file, start the
   * gateway on port 18789.
   */
  const StartCommand: string :=
    "sh -c \"apt-get update && apt-get install -y --no-install-recommends git && rm -rf /var/lib/apt/lists/"
    + "*" + " && npm install -g openclaw@latest && mkdir -p /root/.openclaw && "
    + "echo $OPENCLAW_CONFIG_B64 | base64 -d > /root/.openclaw/openclaw.json && openclaw gateway --port 18789\""

  /** The requests a provisioning run sent, in order, and its outcome. */
  datatype Run = Run(calls: seq<Request>, result: Result<Created, Failure>)

  /** The number of the provisioning step a request belongs to (1 to 6), 0 for other requests. */
  function StepOf(q: Request): nat {
    match q
    case ProjectCreate(_) => 1
    case ServiceCreate(_, _, _) => 2
    case ServiceInstanceUpdate(_, _, _, _) => 3
    case VariableCollectionUpsert(_, _, _, _, _) => 4
    case ServiceDomainCreate(_, _) => 5
    case ServiceInstanceRedeploy(_, _) => 6
    case _ => 0
  }

  /** A run that first sent `q` and then continued as `rest`. */
  function After(q: Request, rest: Run): Run {
    Run([q] + rest.calls, rest.result)
  }

  /** What every step may use: the parameters, the environment, the clock, the token and the configuration document. */
  datatype Setup = Setup(p: CreateParams, env: map<string, string>, now: nat, token: string, config: Cfg.OpenclawConfig)

  /** Where a provisioning run stands: the step that comes next and the identifiers known by then. */
  datatype Stage =
    | CreatingProject
    | CreatingService(projectId: string, envId: string)
    | Configuring(projectId: string, envId: string, serviceId: string)
    | SettingVariables(projectId: string, envId: string, serviceId: string)
    | Publishing(projectId: string, envId: string, serviceId: string)
  {
    /** The number of stages still to run, this one included. */
    function Remaining(): nat {
      match this
      case CreatingProject => 5
      case CreatingService(_, _) => 4
      case Configuring(_, _, _) => 3
      case SettingVariables(_, _, _) => 2
      case Publishing(_, _, _) => 1
    }
  }

  /**
   * `createOpenclaw` as a function of the platform's answers: the token and
   * the configuration document are computed first, then the six steps run
   * from the first request on, at platform position `start`. The document's
   * Base64 text is a pure function of it, written where step 4 uses it.
   */
  function Provision(p: CreateParams, env: map<string, string>, now: nat, random: seq<byte>,
                     world: (nat, Request) -> Reply, start: nat): Run
    requires |random| == Tokens.TokenBytes
  {
    var config := Cfg.BuildConfig(p.channel, p.model, p.botToken);
    Proceed(Setup(p, env, now, Tokens.GenerateToken(random), config), CreatingProject, world, start)
  }

  /**
   * The steps from `stage` on: the requests are sent one after another, the
   * n-th at platform position `at + n`, each carrying the identifiers the
   * earlier answers returned, and the first failure ends the run.
   */
  function Proceed(s: Setup, stage: Stage, world: (nat, Request) -> Reply, at: nat): Run
    decreases stage.Remaining(), 1
  {
    match stage
    case CreatingProject => ProjectStep(s, world, at)
    case CreatingService(projectId, envId) => ServiceStep(s, projectId, envId, world, at)
    case Configuring(projectId, envId, serviceId) => ConfigureStep(s, projectId, envId, serviceId, world, at)
    case SettingVariables(projectId, envId, serviceId) => VariablesStep(s, projectId, envId, serviceId, world, at)
    case Publishing(projectId, envId, serviceId) => PublishStep(s, projectId, envId, serviceId, world, at)
  }

  /** Step 1: the project; its id and first environment are read from the answer. */
  function ProjectStep(s: Setup, world: (nat, Request) -> Reply, at: nat): Run
    decreases 5, 0
  {
    var q1 := ProjectCreate(ProjectName(s.p.userId, s.now));
    match Gql(world(at, q1))
    case Err(f) => Run([q1], Err(f))
    case Ok(d1) =>
      if !d1.ProjectCreated? then Run([q1], Err(TypeError(ReadingId)))
      else if d1.environmentIds == [] then Run([q1], Err(TypeError(ReadingNode)))
      else After(q1, Proceed(s, CreatingService(d1.id, d1.environmentIds[0]), world, at + 1))
  }

  /** Step 2: the service, from the image into the new project; its id is read from the answer. */
  function ServiceStep(s: Setup, projectId: string, envId: string, world: (nat, Request) -> Reply, at: nat): Run
    decreases 4, 0
  {
    var q2 := ServiceCreate(projectId, "openclaw", Image(s.env));
    match Gql(world(at, q2))
    case Err(f) => Run([q2], Err(f))
    case Ok(d2) =>
      if !d2.ServiceCreated? then Run([q2], Err(TypeError(ReadingId)))
      else After(q2, Proceed(s, Configuring(projectId, envId, d2.id), world, at + 1))
  }

  /** Step 3: the start command of the service instance. */
  function ConfigureStep(s: Setup, projectId: string, envId: string, serviceId: string,
                         world: (nat, Request) -> Reply, at: nat): Run
    decreases 3, 0
  {
    var q3 := ServiceInstanceUpdate(serviceId, envId, 1, StartCommand);
    match Gql(world(at, q3))
    case Err(f) => Run([q3], Err(f))
    case Ok(_) => After(q3, Proceed(s, SettingVariables(projectId, envId, serviceId), world, at + 1))
  }

  /** Step 4: the service's variables, the Base64 of the document among them, without triggering a deployment. */
  function VariablesStep(s: Setup, projectId: string, envId: string, serviceId: string,
                         world: (nat, Request) -> Reply, at: nat): Run
    decreases 2, 0
  {
    var q4 := VariableCollectionUpsert(projectId, envId, serviceId,
                                       Cfg.Variables(Cfg.ConfigBase64(s.config), s.p.model, s.env, s.p.botToken), true);
    match Gql(world(at, q4))
    case Err(f) => Run([q4], Err(f))
    case Ok(_) => After(q4, Proceed(s, Publishing(projectId, envId, serviceId), world, at + 1))
  }

  /** Steps 5 and 6: the domain, then the redeploy; the new domain is read only at the end. */
  function PublishStep(s: Setup, projectId: string, envId: string, serviceId: string,
                       world: (nat, Request) -> Reply, at: nat): Run
  {
    var q5 := ServiceDomainCreate(serviceId, envId);
    match Gql(world(at, q5))
    case Err(f) => Run([q5], Err(f))
    case Ok(d5) =>
      var q6 := ServiceInstanceRedeploy(serviceId, envId);
      match Gql(world(at + 1, q6))
      case Err(f) => Run([q5, q6], Err(f))
      case Ok(_) =>
        if !d5.DomainCreated? then Run([q5, q6], Err(TypeError(ReadingDomain)))
        else Run([q5, q6], Ok(Created(EncodeHandle(projectId, serviceId, envId), "https://" + d5.domain, s.token)))
  }

  /**
   * `createOpenclaw`: the token and the configuration document, then the
   * six platform calls.
   */
  method CreateOpenclaw(platform: Platform, p: CreateParams, env: map<string, string>, now: nat,
                        random: seq<byte>) returns (r: Result<Created, Failure>)
    requires |random| == Tokens.TokenBytes
    modifies platform
    ensures var run := Provision(p, env, now, random, platform.world, |old(platform.log)|);
      platform.log == old(platform.log) + run.calls && r == run.result
  {
    var token := Tokens.GenerateToken(random);
    var config := Cfg.BuildConfig(p.channel, p.model, p.botToken);
    r := RunSteps(platform, Setup(p, env, now, token, config));
  }

  /**
   * The six platform calls in their fixed order, each using the identifiers
   * the earlier ones returned; the first error is thrown and no later call
   * is made. Step 1 is done here, the rest by the stages below.
   */
  method RunSteps(platform: Platform, s: Setup) returns (r: Result<Created, Failure>)
    modifies platform
    ensures var run := ProjectStep(s, platform.world, |old(platform.log)|);
      platform.log == old(platform.log) + run.calls && r == run.result
  {
    // 1. Create the project.
    var q := ProjectCreate(ProjectName(s.p.userId, s.now));
    var reply := platform.Send(q);
    var data := Gql(reply);
    if data.Err? { return Err(data.error); }
    if !data.value.ProjectCreated? { return Err(TypeError(ReadingId)); }
    if data.value.environmentIds == [] { return Err(TypeError(ReadingNode)); }
    var projectId := data.value.id;
    var envId := data.value.environmentIds[0];
    ghost var at := |old(platform.log)|;
    ghost var logged := platform.log;
    assert logged == old(platform.log) + [q] && |logged| == at + 1;
    r := CreateService(platform, s, projectId, envId);
    ghost var rest := ServiceStep(s, projectId, envId, platform.world, at + 1);
    assert ProjectStep(s, platform.world, at) == After(q, rest);
    assert platform.log == old(platform.log) + ([q] + rest.calls);
  }

  /** Step 2: the service, created from the image into the new project. */
  method CreateService(platform: Platform, s: Setup, projectId: string, envId: string)
    returns (r: Result<Created, Failure>)
    modifies platform
    ensures var run := ServiceStep(s, projectId, envId, platform.world, |old(platform.log)|);
      platform.log == old(platform.log) + run.calls && r == run.result
  {
    var q := ServiceCreate(projectId, "openclaw", Image(s.env));
    var reply := platform.Send(q);
    var data := Gql(reply);
    if data.Err? { return Err(data.error); }
    if !data.value.ServiceCreated? { return Err(TypeError(ReadingId)); }
    var serviceId := data.value.id;
    ghost var at := |old(platform.log)|;
    ghost var logged := platform.log;
    assert logged == old(platform.log) + [q] && |logged| == at + 1;
    r := ConfigureService(platform, s, projectId, envId, serviceId);
    ghost var rest := ConfigureStep(s, projectId, envId, serviceId, platform.world, at + 1);
    assert ServiceStep(s, projectId, envId, platform.world, at) == After(q, rest);
    assert platform.log == old(platform.log) + ([q] + rest.calls);
  }

  /** Step 3: the start command. */
  method ConfigureService(platform: Platform, s: Setup, projectId: string, envId: string, serviceId: string)
    returns (r: Result<Created, Failure>)
    modifies platform
    ensures var run := ConfigureStep(s, projectId, envId, serviceId, platform.world, |old(platform.log)|);
      platform.log == old(platform.log) + run.calls && r == run.result
  {
    var q3 := ServiceInstanceUpdate(serviceId, envId, 1, StartCommand);
    var reply := platform.Send(q3);
    var data := Gql(reply);
    if data.Err? { return Err(data.error); }
    ghost var at := |old(platform.log)|;
    ghost var logged := platform.log;
    assert logged == old(platform.log) + [q3] && |logged| == at + 1;
    r := SetVariables(platform, s, projectId, envId, serviceId);
    ghost var rest := VariablesStep(s, projectId, envId, serviceId, platform.world, at + 1);
    assert ConfigureStep(s, projectId, envId, serviceId, platform.world, at) == After(q3, rest);
    assert platform.log == old(platform.log) + ([q3] + rest.calls);
  }

  /** Step 4: the document's Base64 text, then the variables, built up one key at a time. */
  method SetVariables(platform: Platform, s: Setup, projectId: string, envId: string, serviceId: string)
    returns (r: Result<Created, Failure>)
    modifies platform
    ensures var run := VariablesStep(s, projectId, envId, serviceId, platform.world, |old(platform.log)|);
      platform.log == old(platform.log) + run.calls && r == run.result
  {
    var configBase64 := Cfg.ConfigBase64(s.config);
    var variables := BuildVariables(configBase64, s.p.model, s.env, s.p.botToken);
    var q4 := VariableCollectionUpsert(projectId, envId, serviceId, variables, true);
    var reply := platform.Send(q4);
    var data := Gql(reply);
    if data.Err? { return Err(data.error); }
    ghost var at := |old(platform.log)|;
    ghost var logged := platform.log;
    assert logged == old(platform.log) + [q4] && |logged| == at + 1;
    r := PublishService(platform, s, projectId, envId, serviceId);
    ghost var rest := PublishStep(s, projectId, envId, serviceId, platform.world, at + 1);
    assert VariablesStep(s, projectId, envId, serviceId, platform.world, at) == After(q4, rest);
    assert platform.log == old(platform.log) + ([q4] + rest.calls);
  }

  /**
   * The `variables` dictionary of step 4, filled one key at a time: the
   * encoded configuration and the port, the model's API key when the
   * environment has one, the bot token when there is one.
   */
  method BuildVariables(configB64: string, model: string, env: map<string, string>, botToken: Option<string>)
    returns (variables: map<string, string>)
    ensures variables == Cfg.Variables(configB64, model, env, botToken)
  {
    var apiKeyEnv := Cfg.ModelApiKeyEnv(model);
    var apiKeyValue := if apiKeyEnv.Some? then Cfg.EnvValue(env, apiKeyEnv.value) else "";
    variables := map["OPENCLAW_CONFIG_B64" := configB64, "PORT" := Cfg.GatewayPort];
    if apiKeyEnv.Some? && apiKeyValue != "" {
      variables := variables[apiKeyEnv.value := apiKeyValue];
    }
    if botToken.Some? && botToken.value != "" {
      variables := variables["TELEGRAM_BOT_TOKEN" := botToken.value];
    }
  }

  /** Steps 5 and 6: the public domain, then the first deployment; the domain is read last. */
  method PublishService(platform: Platform, s: Setup, projectId: string, envId: string, serviceId: string)
    returns (r: Result<Created, Failure>)
    modifies platform
    ensures var run := PublishStep(s, projectId, envId, serviceId, platform.world, |old(platform.log)|);
      platform.log == old(platform.log) + run.calls && r == run.result
  {
    var q5 := ServiceDomainCreate(serviceId, envId);
    var reply := platform.Send(q5);
    var domainData := Gql(reply);
    if domainData.Err? { return Err(domainData.error); }
    var q6 := ServiceInstanceRedeploy(serviceId, envId);
    reply := platform.Send(q6);
    var data := Gql(reply);
    if data.Err? { return Err(data.error); }
    if !domainData.value.DomainCreated? { return Err(TypeError(ReadingDomain)); }
    r := Ok(Created(EncodeHandle(projectId, serviceId, envId), "https://" + domainData.value.domain, s.token));
  }

  /**
   * A run is well-ordered from step `first` on: the i-th request sent is the
   * request of step first + i, every request but the last was answered
   * without error, an error on the last request is what the run throws, and
   * only a run that reached step 6 succeeds.
   */
  predicate WellOrdered(run: Run, world: (nat, Request) -> Reply, start: nat, first: nat) {
    && 1 <= |run.calls|
    && first + |run.calls| <= 7
    && (forall i :: 0 <= i < |run.calls| ==> StepOf(run.calls[i]) == first + i)
    && (forall i :: 0 <= i < |run.calls| - 1 ==> Gql(world(start + i, run.calls[i])).Ok?)
    && (Gql(world(start + |run.calls| - 1, run.calls[|run.calls| - 1])).Err? ==>
          run.result == Err(Gql(world(start + |run.calls| - 1, run.calls[|run.calls| - 1])).error))
    && (run.result.Ok? ==> first + |run.calls| == 7)
  }

  /** The same, one request at a time. */
  predicate Orderly(run: Run, world: (nat, Request) -> Reply, start: nat, first: nat)
    decreases |run.calls|
  {
    && 1 <= |run.calls| && 1 <= first <= 6
    && StepOf(run.calls[0]) == first
    && if |run.calls| == 1 then
         && (Gql(world(start, run.calls[0])).Err? ==> run.result == Err(Gql(world(start, run.calls[0])).error))
         && (run.result.Ok? ==> first == 6)
       else
         && Gql(world(start, run.calls[0])).Ok?
         && Orderly(Run(run.calls[1..], run.result), world, start + 1, first + 1)
  }

  /** Sending one more successful request in front keeps a run orderly. */
  lemma AfterOrderly(q: Request, rest: Run, world: (nat, Request) -> Reply, start: nat, first: nat)
    requires 1 <= first && StepOf(q) == first && Gql(world(start, q)).Ok?
    requires Orderly(rest, world, start + 1, first + 1)
    ensures Orderly(After(q, rest), world, start, first)
  {
    assert After(q, rest).calls[1..] == rest.calls;
  }

  /** The step-at-a-time reading implies the whole-run one. */
  lemma {:induction false} OrderlyMeans(run: Run, world: (nat, Request) -> Reply, start: nat, first: nat)
    requires Orderly(run, world, start, first)
    ensures WellOrdered(run, world, start, first)
    decreases |run.calls|
  {
    if |run.calls| > 1 {
      var rest := Run(run.calls[1..], run.result);
      OrderlyMeans(rest, world, start + 1, first + 1);
      forall i | 1 <= i < |run.calls|
        ensures StepOf(run.calls[i]) == first + i
        ensures i < |run.calls| - 1 ==> Gql(world(start + i, run.calls[i])).Ok?
      {
        assert run.calls[i] == rest.calls[i - 1];
      }
      assert run.calls[|run.calls| - 1] == rest.calls[|rest.calls| - 1];
    }
  }

  lemma ProjectOrderly(s: Setup, world: (nat, Request) -> Reply, at: nat)
    ensures Orderly(ProjectStep(s, world, at), world, at, 1)
  {
    var q1 := ProjectCreate(ProjectName(s.p.userId, s.now));
    var d1 := Gql(world(at, q1));
    if d1.Ok? && d1.value.ProjectCreated? && d1.value.environmentIds != [] {
      var projectId, envId := d1.value.id, d1.value.environmentIds[0];
      ServiceOrderly(s, projectId, envId, world, at + 1);
      AfterOrderly(q1, ServiceStep(s, projectId, envId, world, at + 1), world, at, 1);
    }
  }

  lemma ServiceOrderly(s: Setup, projectId: string, envId: string, world: (nat, Request) -> Reply, at: nat)
    ensures Orderly(ServiceStep(s, projectId, envId, world, at), world, at, 2)
  {
    var q2 := ServiceCreate(projectId, "openclaw", Image(s.env));
    var d2 := Gql(world(at, q2));
    if d2.Ok? && d2.value.ServiceCreated? {
      var serviceId := d2.value.id;
      ConfigureOrderly(s, projectId, envId, serviceId, world, at + 1);
      AfterOrderly(q2, ConfigureStep(s, projectId, envId, serviceId, world, at + 1), world, at, 2);
    }
  }

  lemma ConfigureOrderly(s: Setup, projectId: string, envId: string, serviceId: string,
                         world: (nat, Request) -> Reply, at: nat)
    ensures Orderly(ConfigureStep(s, projectId, envId, serviceId, world, at), world, at, 3)
  {
    var q3 := ServiceInstanceUpdate(serviceId, envId, 1, StartCommand);
    if Gql(world(at, q3)).Ok? {
      VariablesOrderly(s, projectId, envId, serviceId, world, at + 1);
      AfterOrderly(q3, VariablesStep(s, projectId, envId, serviceId, world, at + 1), world, at, 3);
    }
  }

  lemma VariablesOrderly(s: Setup, projectId: string, envId: string, serviceId: string,
                         world: (nat, Request) -> Reply, at: nat)
    ensures Orderly(VariablesStep(s, projectId, envId, serviceId, world, at), world, at, 4)
  {
    var q4 := VariableCollectionUpsert(projectId, envId, serviceId,
                                       Cfg.Variables(Cfg.ConfigBase64(s.config), s.p.model, s.env, s.p.botToken), true);
    if Gql(world(at, q4)).Ok? {
      PublishOrderly(s, projectId, envId, serviceId, world, at + 1);
      AfterOrderly(q4, PublishStep(s, projectId, envId, serviceId, world, at + 1), world, at, 4);
    }
  }

  lemma PublishOrderly(s: Setup, projectId: string, envId: string, serviceId: string,
                       world: (nat, Request) -> Reply, at: nat)
    ensures Orderly(PublishStep(s, projectId, envId, serviceId, world, at), world, at, 5)
  {
  }

  /**
   * The provisioning run sends the steps in order 1, 2, ... with nothing
   * skipped; a request answered with an error is the last one sent and its
   * error is what the run throws; a successful run made all six calls.
   */
  lemma ProvisionOrderly(p: CreateParams, env: map<string, string>, now: nat, random: seq<byte>,
                         world: (nat, Request) -> Reply, start: nat)
    requires |random| == Tokens.TokenBytes
    ensures WellOrdered(Provision(p, env, now, random, world, start), world, start, 1)
  {
    var s := Setup(p, env, now, Tokens.GenerateToken(random), Cfg.BuildConfig(p.channel, p.model, p.botToken));
    ProjectOrderly(s, world, start);
    OrderlyMeans(ProjectStep(s, world, start), world, start, 1);
  }

  /**
   * A successful run: the project, service and domain replies had the
   * expected shapes, the six requests carry the identifiers those replies
   * returned, and the result is the handle of those identifiers, the https
   * address of the domain and the generated token.
   */
  lemma SuccessfulRun(s: Setup, world: (nat, Request) -> Reply, start: nat)
    ensures var run := Proceed(s, CreatingProject, world, start);
      run.result.Ok? ==>
        var q1 := ProjectCreate(ProjectName(s.p.userId, s.now));
        var d1 := Gql(world(start, q1));
        d1.Ok? && d1.value.ProjectCreated? && d1.value.environmentIds != [] &&
        var projectId := d1.value.id;
        var envId := d1.value.environmentIds[0];
        var q2 := ServiceCreate(projectId, "openclaw", Image(s.env));
        var d2 := Gql(world(start + 1, q2));
        d2.Ok? && d2.value.ServiceCreated? &&
        var serviceId := d2.value.id;
        var q5 := ServiceDomainCreate(serviceId, envId);
        var d5 := Gql(world(start + 4, q5));
        d5.Ok? && d5.value.DomainCreated? &&
        run.calls == [q1, q2,
                      ServiceInstanceUpdate(serviceId, envId, 1, StartCommand),
                      VariableCollectionUpsert(projectId, envId, serviceId,
                                               Cfg.Variables(Cfg.ConfigBase64(s.config), s.p.model, s.env, s.p.botToken), true),
                      q5,
                      ServiceInstanceRedeploy(serviceId, envId)] &&
        run.result.value == Created(EncodeHandle(projectId, serviceId, envId), "https://" + d5.value.domain, s.token)
  {
    var run := Proceed(s, CreatingProject, world, start);
    if run.result.Ok? {
      assert run == ProjectStep(s, world, start);
      var q1 := ProjectCreate(ProjectName(s.p.userId, s.now));
      var d1 := Gql(world(start, q1)).value;
      var projectId, envId := d1.id, d1.environmentIds[0];
      var run2 := Proceed(s, CreatingService(projectId, envId), world, start + 1);
      assert run == After(q1, run2);
      SuccessfulService(s, projectId, envId, world, start + 1);
    }
  }

  /** The last five steps of a successful run, from the creation of the service on. */
  lemma SuccessfulService(s: Setup, projectId: string, envId: string, world: (nat, Request) -> Reply, start: nat)
    ensures var run := Proceed(s, CreatingService(projectId, envId), world, start);
      run.result.Ok? ==>
        var q2 := ServiceCreate(projectId, "openclaw", Image(s.env));
        var d2 := Gql(world(start, q2));
        d2.Ok? && d2.value.ServiceCreated? &&
        var serviceId := d2.value.id;
        var q5 := ServiceDomainCreate(serviceId, envId);
        var d5 := Gql(world(start + 3, q5));
        d5.Ok? && d5.value.DomainCreated? &&
        run.calls == [q2,
                      ServiceInstanceUpdate(serviceId, envId, 1, StartCommand),
                      VariableCollectionUpsert(projectId, envId, serviceId,
                                               Cfg.Variables(Cfg.ConfigBase64(s.config), s.p.model, s.env, s.p.botToken), true),
                      q5,
                      ServiceInstanceRedeploy(serviceId, envId)] &&
        run.result.value == Created(EncodeHandle(projectId, serviceId, envId), "https://" + d5.value.domain, s.token)
  {
    var run := Proceed(s, CreatingService(projectId, envId), world, start);
    if run.result.Ok? {
      assert run == ServiceStep(s, projectId, envId, world, start);
      var q2 := ServiceCreate(projectId, "openclaw", Image(s.env));
      var serviceId := Gql(world(start, q2)).value.id;
      var run3 := Proceed(s, Configuring(projectId, envId, serviceId), world, start + 1);
      assert run == After(q2, run3);
      SuccessfulConfiguration(s, projectId, envId, serviceId, world, start + 1);
    }
  }

  /** The last four steps of a successful run, from the configuration of the service on. */
  lemma SuccessfulConfiguration(s: Setup, projectId: string, envId: string, serviceId: string,
                                world: (nat, Request) -> Reply, start: nat)
    ensures var run := Proceed(s, Configuring(projectId, envId, serviceId), world, start);
      run.result.Ok? ==>
        var q5 := ServiceDomainCreate(serviceId, envId);
        var d5 := Gql(world(start + 2, q5));
        d5.Ok? && d5.value.DomainCreated? &&
        run.calls == [ServiceInstanceUpdate(serviceId, envId, 1, StartCommand),
                      VariableCollectionUpsert(projectId, envId, serviceId,
                                               Cfg.Variables(Cfg.ConfigBase64(s.config), s.p.model, s.env, s.p.botToken), true),
                      q5,
                      ServiceInstanceRedeploy(serviceId, envId)] &&
        run.result.value == Created(EncodeHandle(projectId, serviceId, envId), "https://" + d5.value.domain, s.token)
  {
    var run := Proceed(s, Configuring(projectId, envId, serviceId), world, start);
    if run.result.Ok? {
      assert run == ConfigureStep(s, projectId, envId, serviceId, world, start);
      var q3 := ServiceInstanceUpdate(serviceId, envId, 1, StartCommand);
      var q4 := VariableCollectionUpsert(projectId, envId, serviceId,
                                         Cfg.Variables(Cfg.ConfigBase64(s.config), s.p.model, s.env, s.p.botToken), true);
      var run4 := Proceed(s, SettingVariables(projectId, envId, serviceId), world, start + 1);
      assert run == After(q3, run4);
      assert run4 == VariablesStep(s, projectId, envId, serviceId, world, start + 1);
      var run5 := Proceed(s, Publishing(projectId, envId, serviceId), world, start + 2);
      assert run4 == After(q4, run5);
      assert run5 == PublishStep(s, projectId, envId, serviceId, world, start + 2);
    }
  }

  /** Deleting a deployment: a handle with fewer than three parts is ignored; otherwise its project is deleted. */
  method DeleteProject(platform: Platform, compositeId: string) returns (err: Option<Failure>)
    modifies platform
    ensures var parts := SplitDoubleColon(compositeId);
      if |parts| < 3 then platform.log == old(platform.log) && err == None
      else
        var q := ProjectDelete(parts[0]);
        var data := Gql(platform.world(|old(platform.log)|, q));
        platform.log == old(platform.log) + [q] && err == (if data.Err? then Some(data.error) else None)
  {
    var parts := SplitDoubleColon(compositeId);
    if |parts| < 3 { return None; }
    var reply := platform.Send(ProjectDelete(parts[0]));
    var data := Gql(reply);
    err := if data.Err? then Some(data.error) else None;
  }

  /**
   * The state of the service's latest deployment in a status reply, or
   * BUILDING when the reply has no instance, no deployment or no status.
   */
  function RawStatus(data: Payload): (raw: string)
    ensures data.InstanceStatus? && data.serviceInstance.Some? && data.serviceInstance.value.latestDeployment.Some?
            && data.serviceInstance.value.latestDeployment.value.status.Some? ==>
      raw == data.serviceInstance.value.latestDeployment.value.status.value
    ensures !(data.InstanceStatus? && data.serviceInstance.Some? && data.serviceInstance.value.latestDeployment.Some?
              && data.serviceInstance.value.latestDeployment.value.status.Some?) ==>
      raw == "BUILDING"
  {
    if data.InstanceStatus? && data.serviceInstance.Some?
       && data.serviceInstance.value.latestDeployment.Some?
       && data.serviceInstance.value.latestDeployment.value.status.Some?
    then data.serviceInstance.value.latestDeployment.value.status.value
    else "BUILDING"
  }

  /** The table from Railway deployment states to lifecycle states; anything else is deploying. */
  function MapRailwayStatus(raw: string): (st: Status)
    ensures st == Running <==> raw == "SUCCESS"
    ensures st == Failed <==> raw in {"FAILED", "CRASHED", "REMOVED"}
    ensures st == Deploying <==> raw !in {"SUCCESS", "FAILED", "CRASHED", "REMOVED"}
  {
    match raw
    case "SUCCESS" => Running
    case "DEPLOYING" => Deploying
    case "BUILDING" => Deploying
    case "INITIALIZING" => Deploying
    case "FAILED" => Failed
    case "CRASHED" => Failed
    case "REMOVED" => Failed
    case _ => Deploying
  }

  /** The status a reply to the status query stands for; any thrown error reads as deploying. */
  function StatusOf(reply: Reply): (st: Status)
    ensures st in {Running, Deploying, Failed}
    ensures Gql(reply).Err? ==> st == Deploying
    ensures Gql(reply).Ok? ==> st == MapRailwayStatus(RawStatus(Gql(reply).value))
    ensures reply == Reply([], InstanceStatus(None)) ==> st == Deploying
  {
    match Gql(reply)
    case Err(_) => Deploying
    case Ok(data) => MapRailwayStatus(RawStatus(data))
  }

  /**
   * `getServiceStatus`: "unknown" for a handle with fewer than three parts
   * (no request is made); otherwise the instance of its service and
   * environment is queried, and the answer is never pending or unknown.
   */
  method GetServiceStatus(platform: Platform, compositeId: string) returns (st: Status)
    modifies platform
    ensures var parts := SplitDoubleColon(compositeId);
      if |parts| < 3 then platform.log == old(platform.log) && st == Unknown
      else
        var q := ServiceInstanceQuery(parts[1], parts[2]);
        platform.log == old(platform.log) + [q] && st == StatusOf(platform.world(|old(platform.log)|, q))
  {
    var parts := SplitDoubleColon(compositeId);
    if |parts| < 3 { return Unknown; }
    var reply := platform.Send(ServiceInstanceQuery(parts[1], parts[2]));
    st := StatusOf(reply);
  }

  /**
   * The handle of a successful run addresses what it was made from: the
   * teardown deletes its project and the status read queries its service
   * in its environment (Railway identifiers hold no colon).
   */
  lemma HandleAddresses(projectId: string, serviceId: string, envId: string)
    requires NoColon(projectId) && NoColon(serviceId) && NoColon(envId)
    ensures var parts := SplitDoubleColon(EncodeHandle(projectId, serviceId, envId));
      |parts| >= 3 && parts[0] == projectId && parts[1] == serviceId && parts[2] == envId
  {
    HandleRoundTrip(projectId, serviceId, envId);
  }
}
