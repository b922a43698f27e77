/**
 * The deploy API handler (`POST /api/deploy`): it validates the request,
 * records the deployment as pending, provisions it on Railway and moves the
 * record to deploying or failed. The record store is an oracle object like
 * the platform: it logs every write and answers each one, and keeps the rows
 * the successful writes produced.
 */
module DeployRoute {
  import opened Wrappers
  import opened Bytes
  import opened Lifecycle
  import Tokens
  import Railway
  import Cfg = RailwayConfig

  /** A row of the `deployments` table. */
  datatype Deployment = Deployment(
    userId: string,
    channel: string,
    model: string,
    status: Status,
    serviceId: Option<string>,
    serviceUrl: Option<string>,
    token: Option<string>)

  /** The two updates the handler makes to a row. */
  datatype Patch = ToDeploying(serviceId: string, serviceUrl: string, token: string) | ToFailed

  /** A write to the `deployments` table. */
  datatype StoreOp =
    | Insert(userId: string, channel: string, model: string, status: Status)
    | Update(id: string, patch: Patch)

  /**
   * The store's answer: the inserted row's id, an error (with its message
   * when it has one; no message also stands for an insert that returned no
   * row), or a completed update.
   */
  datatype StoreReply = Inserted(id: string) | StoreError(message: Option<string>) | Done

  /** The status a write puts into a row. */
  function WrittenStatus(op: StoreOp): Status {
    match op
    case Insert(_, _, _, st) => st
    case Update(_, ToDeploying(_, _, _)) => Deploying
    case Update(_, ToFailed) => Failed
  }

  /**
   * A row after an update: deploying with the service's handle, address and
   * token, or failed with everything else kept.
   */
  function ApplyPatch(row: Deployment, patch: Patch): (r: Deployment)
    ensures r.userId == row.userId && r.channel == row.channel && r.model == row.model
    ensures r.status == WrittenStatus(Update("", patch))
    ensures patch.ToDeploying? ==>
      r == row.(status := Deploying, serviceId := Some(patch.serviceId), serviceUrl := Some(patch.serviceUrl),
                token := Some(patch.token))
    ensures patch.ToFailed? ==> r == row.(status := Failed)
  {
    match patch
    case ToDeploying(sid, url, token) => row.(status := Deploying, serviceId := Some(sid), serviceUrl := Some(url),
                                               token := Some(token))
    case ToFailed => row.(status := Failed)
  }

  /**
   * The rows after a write and the store's answer to it: a successful insert
   * adds a fresh row, a successful update patches the row with that id (no
   * row matches a missing id), a failed write changes nothing.
   */
  function Applied(rows: map<string, Deployment>, op: StoreOp, reply: StoreReply): (r: map<string, Deployment>)
    ensures reply.StoreError? ==> r == rows
    ensures forall id :: id in rows ==> id in r
    ensures op.Update? ==> r.Keys == rows.Keys
    ensures op.Insert? && reply.Inserted? ==>
      r == rows[reply.id := Deployment(op.userId, op.channel, op.model, op.status, None, None, None)]
    ensures op.Update? && reply.Done? && op.id in rows ==> r == rows[op.id := ApplyPatch(rows[op.id], op.patch)]
    ensures !(op.Insert? && reply.Inserted?) && !(op.Update? && reply.Done? && op.id in rows) ==> r == rows
  {
    match op
    case Insert(user, channel, model, st) =>
      if reply.Inserted? then rows[reply.id := Deployment(user, channel, model, st, None, None, None)] else rows
    case Update(id, patch) =>
      if reply.Done? && id in rows then rows[id := ApplyPatch(rows[id], patch)] else rows
  }

  class Store {
    var rows: map<string, Deployment>
    var log: seq<StoreOp>
    const world: (nat, StoreOp) -> StoreReply

    constructor (rows: map<string, Deployment>, world: (nat, StoreOp) -> StoreReply)
      ensures this.rows == rows && log == [] && this.world == world
    {
      this.rows := rows;
      log := [];
      this.world := world;
    }

    method Write(op: StoreOp) returns (reply: StoreReply)
      modifies this
      ensures reply == world(|old(log)|, op)
      ensures log == old(log) + [op]
      ensures rows == Applied(old(rows), op, reply)
    {
      reply := world(|log|, op);
      log := log + [op];
      rows := Applied(rows, op, reply);
    }
  }

  /** The response body: an error message, or the accepted deployment. */
  datatype Body =
    | ErrorBody(error: string)
    | Accepted(deploymentId: string, serviceId: string, serviceUrl: string, status: string)

  datatype Response = Response(code: nat, body: Body)

  /**
   * The end of a request: an answer, or an exception the handler does not
   * catch (the framework then answers with its own error page).
   */
  datatype Outcome = Answered(response: Response) | Threw

  /**
   * The request body as the handler reads it: text that is not JSON, the
   * JSON null, or a value whose `channel` and `model` fields are looked up
   * (None where a field is absent, as it is for every JSON value that is not
   * an object).
   */
  datatype RequestBody = Unreadable | JsonNull | Fields(channel: Option<string>, model: Option<string>)

  /** A missing field: absent or empty. */
  predicate Falsy(value: Option<string>) {
    value.None? || value.value == ""
  }

  /** The message of a failed insert: the error's, else "DB error". */
  function InsertErrorMessage(reply: StoreReply): string {
    if reply.StoreError? && reply.message.Some? then reply.message.value else "DB error"
  }

  /** What the handler asks the provisioning library for: the body's bot token is not passed on. */
  function ProvisionParams(id: string, channel: string, model: string, userId: string): (p: Railway.CreateParams)
    ensures p.botToken == None && p.channel == channel && p.model == model && p.userId == userId
  {
    Railway.CreateParams("palclaw-" + id, channel, model, userId, None)
  }

  /**
   * The bot token a client sends never reaches the runtime: on the telegram
   * channel the configuration document carries an empty token, and the
   * service variables hold no `TELEGRAM_BOT_TOKEN`.
   */
  lemma BotTokenNotForwarded(id: string, channel: string, model: string, userId: string,
                             configB64: string, env: map<string, string>)
    ensures var p := ProvisionParams(id, channel, model, userId);
      (channel == "telegram" ==>
         Cfg.BuildConfig(p.channel, p.model, p.botToken).telegram == Some(Cfg.TelegramConfig(true, "", "open"))) &&
      "TELEGRAM_BOT_TOKEN" !in Cfg.Variables(configB64, p.model, env, p.botToken)
  {
  }

  /** Only pending, deploying and failed are ever written, never running or unknown. */
  predicate WritesLifecycleOnly(ops: seq<StoreOp>) {
    forall i :: 0 <= i < |ops| ==> WrittenStatus(ops[i]) in {Pending, Deploying, Failed}
  }

  /** The row update after provisioning: deploying with the service's handle, address and token, or failed. */
  function UpdateFor(id: string, created: Result<Railway.Created, Railway.Failure>): (op: StoreOp)
    ensures op.Update? && op.id == id
    ensures WrittenStatus(op) == (if created.Ok? then Deploying else Failed)
    ensures created.Ok? ==>
      op.patch == ToDeploying(created.value.serviceId, created.value.serviceUrl, created.value.token)
    ensures created.Err? ==> op.patch == ToFailed
  {
    if created.Ok? then Update(id, ToDeploying(created.value.serviceId, created.value.serviceUrl, created.value.token))
    else Update(id, ToFailed)
  }

  /**
   * The response after provisioning: the accepted deployment with status
   * "deploying" (whatever the row update answered), or a 500 with the
   * thrown error's message.
   */
  function ResponseFor(id: string, created: Result<Railway.Created, Railway.Failure>): (resp: Response)
    ensures resp.code == 200 <==> created.Ok?
    ensures created.Ok? ==>
      resp.body == Accepted(id, created.value.serviceId, created.value.serviceUrl, "deploying")
    ensures created.Err? ==> resp == Response(500, ErrorBody(created.error.Message()))
  {
    if created.Ok? then Response(200, Accepted(id, created.value.serviceId, created.value.serviceUrl, "deploying"))
    else Response(500, ErrorBody(created.error.Message()))
  }

  /**
   * `POST`. `user` is the signed-in user's id and `body` the request body;
   * `env`, `now` and `random` stand for the process environment, the clock
   * and the random source of provisioning.
   */
  method Post(store: Store, platform: Railway.Platform, user: Option<string>, body: RequestBody,
              env: map<string, string>, now: nat, random: seq<byte>) returns (out: Outcome)
    requires |random| == Tokens.TokenBytes
    modifies store, platform
    // With no user: 401, nothing written, nothing provisioned; the body is not read.
    ensures user.None? ==>
      out == Answered(Response(401, ErrorBody("Unauthorized"))) &&
      store.log == old(store.log) && platform.log == old(platform.log) && store.rows == old(store.rows)
    // A body that is not JSON, or is null, throws before anything is written.
    ensures user.Some? && !body.Fields? ==>
      out == Threw &&
      store.log == old(store.log) && platform.log == old(platform.log) && store.rows == old(store.rows)
    // A missing or empty field: 400, nothing written, nothing provisioned.
    ensures user.Some? && body.Fields? && (Falsy(body.channel) || Falsy(body.model)) ==>
      out == Answered(Response(400, ErrorBody("channel and model are required"))) &&
      store.log == old(store.log) && platform.log == old(platform.log) && store.rows == old(store.rows)
    // Otherwise the record is inserted and the runtime provisioned.
    ensures user.Some? && body.Fields? && !Falsy(body.channel) && !Falsy(body.model) ==>
      out.Answered? &&
      Handled(store, platform, user.value, body.channel.value, body.model.value, env, now, random, out.response,
              old(store.log), old(store.rows), old(platform.log))
    ensures WritesLifecycleOnly(old(store.log)) ==> WritesLifecycleOnly(store.log)
  {
    if user.None? {
      return Answered(Response(401, ErrorBody("Unauthorized")));
    }
    if !body.Fields? {
      return Threw;
    }
    if Falsy(body.channel) || Falsy(body.model) {
      return Answered(Response(400, ErrorBody("channel and model are required")));
    }
    var resp := InsertAndProvision(store, platform, user.value, body.channel.value, body.model.value,
                                   env, now, random);
    HandledWritesLifecycle(store, platform, user.value, body.channel.value, body.model.value, env, now, random,
                           resp, old(store.log), old(store.rows), old(platform.log));
    out := Answered(resp);
  }

  /** A handled request appends only pending, deploying or failed writes to the store's log. */
  lemma HandledWritesLifecycle(store: Store, platform: Railway.Platform, user: string, channel: string,
                               model: string, env: map<string, string>, now: nat, random: seq<byte>,
                               resp: Response, log0: seq<StoreOp>, rows0: map<string, Deployment>,
                               calls0: seq<Railway.Request>)
    requires |random| == Tokens.TokenBytes
    requires Handled(store, platform, user, channel, model, env, now, random, resp, log0, rows0, calls0)
    ensures WritesLifecycleOnly(log0) ==> WritesLifecycleOnly(store.log)
  {
    var tail := store.log[|log0|..];
    assert store.log == log0 + tail;
    assert forall i :: 0 <= i < |tail| ==> WrittenStatus(tail[i]) in {Pending, Deploying, Failed};
  }

  /**
   * What a request that passed validation does, given the store and
   * platform before it: a pending row is inserted first; if that fails the
   * answer is a 500 and nothing is provisioned; after a successful insert
   * the runtime is provisioned, the row updated, and the answer follows
   * from the provisioning outcome.
   */
  ghost predicate Handled(store: Store, platform: Railway.Platform, user: string, channel: string, model: string,
                          env: map<string, string>, now: nat, random: seq<byte>, resp: Response,
                          log0: seq<StoreOp>, rows0: map<string, Deployment>, calls0: seq<Railway.Request>)
    requires |random| == Tokens.TokenBytes
    reads store, platform
  {
    var insert := Insert(user, channel, model, Pending);
    var inserted := store.world(|log0|, insert);
    var rows1 := Applied(rows0, insert, inserted);
    if !inserted.Inserted? then
      resp == Response(500, ErrorBody(InsertErrorMessage(inserted))) &&
      store.log == log0 + [insert] && store.rows == rows1 && platform.log == calls0
    else
      var run := Railway.Provision(ProvisionParams(inserted.id, channel, model, user), env, now, random,
                                   platform.world, |calls0|);
      var update := UpdateFor(inserted.id, run.result);
      platform.log == calls0 + run.calls &&
      store.log == log0 + [insert, update] &&
      store.rows == Applied(rows1, update, store.world(|log0| + 1, update)) &&
      resp == ResponseFor(inserted.id, run.result)
  }

  /** The handler after validation: insert the pending row, then provision unless that failed. */
  method InsertAndProvision(store: Store, platform: Railway.Platform, user: string, channel: string, model: string,
                            env: map<string, string>, now: nat, random: seq<byte>) returns (resp: Response)
    requires |random| == Tokens.TokenBytes
    modifies store, platform
    ensures Handled(store, platform, user, channel, model, env, now, random, resp,
                    old(store.log), old(store.rows), old(platform.log))
  {
    var insert := Insert(user, channel, model, Pending);
    var inserted := store.Write(insert);
    if !inserted.Inserted? {
      return Response(500, ErrorBody(InsertErrorMessage(inserted)));
    }
    resp := ProvisionRecorded(store, platform, inserted.id, channel, model, user, env, now, random);
  }

  /** The `try` block and its `catch`: provision, record the outcome on the row, answer. */
  method ProvisionRecorded(store: Store, platform: Railway.Platform, id: string, channel: string, model: string,
                           userId: string, env: map<string, string>, now: nat, random: seq<byte>)
    returns (resp: Response)
    requires |random| == Tokens.TokenBytes
    modifies store, platform
    ensures var run := Railway.Provision(ProvisionParams(id, channel, model, userId), env, now, random,
                                         platform.world, |old(platform.log)|);
      var update := UpdateFor(id, run.result);
      platform.log == old(platform.log) + run.calls &&
      store.log == old(store.log) + [update] &&
      store.rows == Applied(old(store.rows), update, store.world(|old(store.log)|, update)) &&
      resp == ResponseFor(id, run.result)
  {
    var created := Railway.CreateOpenclaw(platform, ProvisionParams(id, channel, model, userId), env, now, random);
    // Both outcomes write the row; an error of that write is only logged.
    var _ := store.Write(UpdateFor(id, created));
    resp := ResponseFor(id, created);
  }
}
