/**
 * The agents page: the list of configured agents and the form that creates
 * or edits one. Creating prepends the saved agent, editing merges the saved
 * fields into the agent being edited, deleting filters the id out.
 */
module Agents {
  import opened Wrappers

  /** The deployment an agent is attached to, as the page shows it. */
  datatype Linked = Linked(id: string, channel: string, model: string, status: string)

  datatype Agent = Agent(
    id: string,
    name: string,
    personality: string,
    goal: string,
    deploymentId: string,
    deployment: Option<Linked>,
    createdAt: string)

  /**
   * The fields of an update's answer: each field the answer carries, and
   * `None` where it carries none.
   */
  datatype AgentPatch = AgentPatch(
    id: Option<string>,
    name: Option<string>,
    personality: Option<string>,
    goal: Option<string>,
    deploymentId: Option<string>,
    deployment: Option<Option<Linked>>,
    createdAt: Option<string>)

  /** An agent updated by a patch: every field the patch carries wins, the others stay. */
  function Spread(a: Agent, p: AgentPatch): (r: Agent)
    ensures r.id == p.id.GetOr(a.id) && r.name == p.name.GetOr(a.name)
    ensures r.personality == p.personality.GetOr(a.personality) && r.goal == p.goal.GetOr(a.goal)
    ensures r.deploymentId == p.deploymentId.GetOr(a.deploymentId)
    ensures r.deployment == p.deployment.GetOr(a.deployment) && r.createdAt == p.createdAt.GetOr(a.createdAt)
  {
    Agent(p.id.GetOr(a.id), p.name.GetOr(a.name), p.personality.GetOr(a.personality), p.goal.GetOr(a.goal),
          p.deploymentId.GetOr(a.deploymentId), p.deployment.GetOr(a.deployment), p.createdAt.GetOr(a.createdAt))
  }

  /** A patch with no fields changes nothing; applying the same patch twice is applying it once. */
  lemma SpreadLaws(a: Agent, p: AgentPatch)
    ensures Spread(a, AgentPatch(None, None, None, None, None, None, None)) == a
    ensures Spread(Spread(a, p), p) == Spread(a, p)
  {
  }

  /** The list with every agent of the id updated by the patch, the others as they were. */
  function ReplaceById(agents: seq<Agent>, id: string, p: AgentPatch): (r: seq<Agent>)
    ensures |r| == |agents|
    ensures forall i :: 0 <= i < |r| ==> r[i] == (if agents[i].id == id then Spread(agents[i], p) else agents[i])
  {
    seq(|agents|, i requires 0 <= i < |agents| => if agents[i].id == id then Spread(agents[i], p) else agents[i])
  }

  /**
   * An edit touches only the agents with the edited id; with an id absent
   * from the list nothing changes, and an answer that carries no id keeps
   * every id in its place.
   */
  lemma ReplaceTouchesOnlyId(agents: seq<Agent>, id: string, p: AgentPatch)
    ensures (forall i :: 0 <= i < |agents| ==> agents[i].id != id) ==> ReplaceById(agents, id, p) == agents
    ensures p.id.None? ==> forall i :: 0 <= i < |agents| ==> ReplaceById(agents, id, p)[i].id == agents[i].id
  {
  }

  /** A created agent added to the list: the new agent first, then every previous agent in order. */
  function Prepend(agents: seq<Agent>, a: Agent): (r: seq<Agent>)
    ensures |r| == |agents| + 1 && r[0] == a && r[1..] == agents
  {
    [a] + agents
  }

  /** The list without the agents that have the id. */
  function Remove(agents: seq<Agent>, id: string): (r: seq<Agent>)
    ensures |r| <= |agents|
    ensures forall i :: 0 <= i < |r| ==> r[i].id != id && r[i] in agents
    ensures forall a :: a in agents && a.id != id ==> a in r
  {
    if agents == [] then []
    else if agents[0].id == id then Remove(agents[1..], id)
    else [agents[0]] + Remove(agents[1..], id)
  }

  /** The filter works piece by piece, so it keeps the order of what stays. */
  lemma {:induction false} RemoveAppend(xs: seq<Agent>, ys: seq<Agent>, id: string)
    ensures Remove(xs + ys, id) == Remove(xs, id) + Remove(ys, id)
  {
    if xs == [] {
      assert xs + ys == ys;
    } else {
      assert (xs + ys)[0] == xs[0] && (xs + ys)[1..] == xs[1..] + ys;
      RemoveAppend(xs[1..], ys, id);
    }
  }

  /** Deleting twice is deleting once. */
  lemma {:induction false} RemoveIdempotent(xs: seq<Agent>, id: string)
    ensures Remove(Remove(xs, id), id) == Remove(xs, id)
  {
    if xs != [] {
      RemoveIdempotent(xs[1..], id);
      if xs[0].id != id {
        assert Remove([xs[0]] + Remove(xs[1..], id), id)
            == [xs[0]] + Remove(Remove(xs[1..], id), id)
          by { assert ([xs[0]] + Remove(xs[1..], id))[1..] == Remove(xs[1..], id); }
      }
    }
  }

  /** Deleting the agent just created leaves the list as the other agents would have it. */
  lemma DeleteAfterCreate(xs: seq<Agent>, a: Agent)
    ensures Remove(Prepend(xs, a), a.id) == Remove(xs, a.id)
  {
    assert Prepend(xs, a)[1..] == xs;
  }

  /** The form's fields. */
  datatype Form = Form(deploymentId: string, name: string, personality: string, goal: string)

  /** The form's defaults: the friendly personality, every other field empty. */
  const EmptyForm: Form := Form("", "", "friendly", "")

  /** The form filled from an agent, as `startEdit` fills it. */
  function FormOf(a: Agent): (f: Form)
    ensures f.deploymentId == a.deploymentId && f.name == a.name && f.personality == a.personality && f.goal == a.goal
  {
    Form(a.deploymentId, a.name, a.personality, a.goal)
  }

  /** The body of an update: the agent's id in the path, then name, personality and goal. */
  datatype UpdateRequest = UpdateRequest(id: string, name: string, personality: string, goal: string)

  /** What a submit sends: an update of the edited agent, or the whole form as a new agent. */
  datatype SubmitRequest = Patched(update: UpdateRequest) | Posted(form: Form)

  /** A server's answer: the status and the parsed body, or a rejected round trip (or unreadable body). */
  datatype Reply<T> = Answered(ok: bool, body: T) | Rejected(message: string)

  /** The error a submit shows: none when the answer was ok, the thrown message otherwise. */
  function SubmitError<T>(reply: Reply<T>, notOk: string): (e: Option<string>)
    ensures e.None? <==> reply.Answered? && reply.ok
    ensures reply.Rejected? ==> e == Some(reply.message)
    ensures reply.Answered? && !reply.ok ==> e == Some(notOk)
  {
    match reply
    case Rejected(m) => Some(m)
    case Answered(ok, _) => if ok then None else Some(notOk)
  }

  /** Whether the form edits an existing agent: an id that is absent or empty means a new agent. */
  predicate Editing(editingId: Option<string>) {
    editingId.Some? && editingId.value != ""
  }

  /** The page's component state. */
  class AgentsState {
    var agents: seq<Agent>
    var showForm: bool
    var editingId: Option<string>
    var form: Form
    var saving: bool
    var error: Option<string>

    constructor (initial: seq<Agent>)
      ensures agents == initial && !showForm && editingId == None && form == EmptyForm
      ensures !saving && error == None
    {
      agents := initial;
      showForm := false;
      editingId := None;
      form := EmptyForm;
      saving := false;
      error := None;
    }

    /** "+ New Agent": an empty form for a new agent is shown. */
    method NewAgent()
      modifies this
      ensures showForm && editingId == None && form == EmptyForm
      ensures agents == old(agents) && saving == old(saving) && error == old(error)
    {
      showForm := true;
      editingId := None;
      form := EmptyForm;
    }

    /** "Cancel": the form is hidden, its fields and the edited id stay. */
    method Cancel()
      modifies this
      ensures !showForm
      ensures agents == old(agents) && editingId == old(editingId) && form == old(form)
      ensures saving == old(saving) && error == old(error)
    {
      showForm := false;
    }

    /** `startEdit`: the form holds the agent's four fields and edits that agent. */
    method StartEdit(a: Agent)
      modifies this
      ensures form == FormOf(a) && editingId == Some(a.id) && showForm
      ensures agents == old(agents) && saving == old(saving) && error == old(error)
    {
      form := Form(a.deploymentId, a.name, a.personality, a.goal);
      editingId := Some(a.id);
      showForm := true;
    }

    /**
     * `handleSubmit`. `create` and `update` stand for the two server routes.
     * Saving is on while the request is out (`inFlight` is its value then)
     * and off afterwards. On an ok answer the list takes the saved agent and
     * the form returns to its defaults, hidden and editing nothing; otherwise
     * only the error changes.
     */
    method HandleSubmit(create: Form -> Reply<Agent>, update: UpdateRequest -> Reply<AgentPatch>)
      returns (sent: SubmitRequest, inFlight: bool)
      modifies this
      ensures inFlight && !saving
      ensures Editing(old(editingId)) ==>
        sent == Patched(UpdateRequest(old(editingId).value, old(form).name, old(form).personality, old(form).goal))
      ensures !Editing(old(editingId)) ==> sent == Posted(old(form))
      ensures var e := if sent.Patched? then SubmitError(update(sent.update), "Failed to update")
                       else SubmitError(create(sent.form), "Failed to create");
        error == e &&
        if e.None? then
          && agents == (if sent.Patched? then ReplaceById(old(agents), sent.update.id, update(sent.update).body)
                        else Prepend(old(agents), create(sent.form).body))
          && form == EmptyForm && editingId == None && !showForm
        else
          agents == old(agents) && form == old(form) && editingId == old(editingId) && showForm == old(showForm)
    {
      saving := true;
      error := None;
      if Editing(editingId) {
        var id := editingId.value;
        var request := UpdateRequest(id, form.name, form.personality, form.goal);
        sent := Patched(request);
        inFlight := saving;
        var reply := update(request);
        error := SubmitError(reply, "Failed to update");
        if error.None? {
          agents := ReplaceById(agents, id, reply.body);
        }
      } else {
        sent := Posted(form);
        inFlight := saving;
        var reply := create(form);
        error := SubmitError(reply, "Failed to create");
        if error.None? {
          agents := Prepend(agents, reply.body);
        }
      }
      if error.None? {
        showForm := false;
        editingId := None;
        form := EmptyForm;
      }
      saving := false;
    }

    /**
     * `handleDelete`: when confirmed, the agents with the id go whatever the
     * server answered; a rejected round trip ends the handler before that.
     */
    method HandleDelete(id: string, confirmed: bool, reached: bool)
      modifies this
      ensures confirmed && reached ==> agents == Remove(old(agents), id)
      ensures !(confirmed && reached) ==> agents == old(agents)
      ensures showForm == old(showForm) && editingId == old(editingId) && form == old(form)
      ensures saving == old(saving) && error == old(error)
    {
      if !confirmed { return; }
      if !reached { return; }
      agents := Remove(agents, id);
    }
  }
}
