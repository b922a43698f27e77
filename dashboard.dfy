/**
 * The dashboard's deployment list: which deployments are polled, how poll
 * results are merged back, deletion, the summary counts and the badge table.
 */
module Dashboard {
  import opened Wrappers

  /** A deployment as the dashboard receives it (`status` is the stored string). */
  datatype Deployment = Deployment(
    id: string,
    channel: string,
    model: string,
    status: string,
    serviceUrl: Option<string>,
    token: Option<string>,
    createdAt: string)

  /** A deployment whose status is still moving: deploying or pending. */
  predicate InProgress(d: Deployment) {
    d.status == "deploying" || d.status == "pending"
  }

  /** The poll targets: the in-progress deployments, in list order. */
  function PollTargets(ds: seq<Deployment>): (r: seq<Deployment>)
    ensures |r| <= |ds|
    ensures forall i :: 0 <= i < |r| ==> InProgress(r[i]) && r[i] in ds
    ensures forall d :: d in ds && InProgress(d) ==> d in r
  {
    if ds == [] then []
    else if InProgress(ds[0]) then [ds[0]] + PollTargets(ds[1..])
    else PollTargets(ds[1..])
  }

  /** With nothing in progress there is nothing to poll, and then no timer is started. */
  lemma NoTargetsWhenSettled(ds: seq<Deployment>)
    ensures PollTargets(ds) == [] <==> forall i :: 0 <= i < |ds| ==> !InProgress(ds[i])
  {
    if PollTargets(ds) == [] {
      forall i | 0 <= i < |ds|
        ensures !InProgress(ds[i])
      {
        assert ds[i] in ds;
      }
    }
  }

  /** What fetching one deployment's status route gave. */
  datatype PollResponse = Fetched(record: Deployment) | NotOk | Unreachable

  /** The fetched record when the response was ok, the deployment unchanged otherwise. */
  function PollResult(d: Deployment, response: PollResponse): (r: Deployment)
    ensures response.Fetched? ==> r == response.record
    ensures !response.Fetched? ==> r == d
  {
    match response
    case Fetched(record) => record
    case _ => d
  }

  /** One poll round: every target fetched, each answered by `fetch`. */
  function PollResults(targets: seq<Deployment>, fetch: Deployment -> PollResponse): (r: seq<Deployment>)
    ensures |r| == |targets|
    ensures forall i :: 0 <= i < |r| ==> r[i] == PollResult(targets[i], fetch(targets[i]))
  {
    seq(|targets|, i requires 0 <= i < |targets| => PollResult(targets[i], fetch(targets[i])))
  }

  /** The first polled record with the id, if any, as `find` looks it up. */
  function FindById(updated: seq<Deployment>, id: string): (r: Option<Deployment>)
    ensures r.Some? ==> r.value in updated && r.value.id == id
    ensures r.Some? ==>
      exists k :: 0 <= k < |updated| && updated[k] == r.value && (forall j :: 0 <= j < k ==> updated[j].id != id)
    ensures r.None? ==> forall u :: u in updated ==> u.id != id
  {
    if updated == [] then None
    else if updated[0].id == id then Some(updated[0])
    else FindById(updated[1..], id)
  }

  /**
   * The list after a poll round: each entry becomes the first polled record
   * with its id, and stays as it was when no polled record has its id.
   */
  function Merge(prev: seq<Deployment>, updated: seq<Deployment>): (r: seq<Deployment>)
    ensures |r| == |prev|
    ensures forall i :: 0 <= i < |r| ==>
      r[i] == (if FindById(updated, prev[i].id).Some? then FindById(updated, prev[i].id).value else prev[i])
    ensures forall i :: 0 <= i < |r| ==> r[i].id == prev[i].id
    ensures forall i :: 0 <= i < |r| ==> (forall u :: u in updated ==> u.id != prev[i].id) ==> r[i] == prev[i]
  {
    seq(|prev|, i requires 0 <= i < |prev| => FindById(updated, prev[i].id).GetOr(prev[i]))
  }

  predicate UniqueIds(ds: seq<Deployment>) {
    forall i, j :: 0 <= i < |ds| && 0 <= j < |ds| && ds[i].id == ds[j].id ==> i == j
  }

  /** Polled records of deployments already in the list are those deployments. */
  lemma FindOwn(ds: seq<Deployment>, targets: seq<Deployment>, i: nat)
    requires UniqueIds(ds) && i < |ds|
    requires forall t :: t in targets ==> t in ds
    ensures FindById(targets, ds[i].id).GetOr(ds[i]) == ds[i]
  {
    var found := FindById(targets, ds[i].id);
    if found.Some? {
      var j :| 0 <= j < |ds| && ds[j] == found.value;
    }
  }

  /**
   * A round in which no poll succeeded leaves the list as it was (its ids
   * being distinct).
   */
  lemma {:induction false} FailedRoundChangesNothing(ds: seq<Deployment>, fetch: Deployment -> PollResponse)
    requires UniqueIds(ds)
    requires forall d :: d in ds ==> !fetch(d).Fetched?
    ensures Merge(ds, PollResults(PollTargets(ds), fetch)) == ds
  {
    var targets := PollTargets(ds);
    var updated := PollResults(targets, fetch);
    forall t | t in updated
      ensures t in ds
    {
      var k :| 0 <= k < |updated| && updated[k] == t;
      assert targets[k] in ds;
    }
    forall i | 0 <= i < |ds|
      ensures Merge(ds, updated)[i] == ds[i]
    {
      FindOwn(ds, updated, i);
    }
  }

  /**
   * One poll round, entry by entry (the ids being distinct and each fetched
   * record carrying the id it was fetched for): a deploying or pending entry
   * becomes its poll result, every other entry stays.
   */
  lemma {:induction false} PollRoundEntry(ds: seq<Deployment>, fetch: Deployment -> PollResponse, i: nat)
    requires UniqueIds(ds) && i < |ds|
    requires forall d :: d in ds && fetch(d).Fetched? ==> fetch(d).record.id == d.id
    ensures Merge(ds, PollResults(PollTargets(ds), fetch))[i] ==
      (if InProgress(ds[i]) then PollResult(ds[i], fetch(ds[i])) else ds[i])
  {
    var targets := PollTargets(ds);
    var updated := PollResults(targets, fetch);
    var found := FindById(updated, ds[i].id);
    assert Merge(ds, updated)[i] == found.GetOr(ds[i]);
    if InProgress(ds[i]) {
      var k :| 0 <= k < |targets| && targets[k] == ds[i];
      assert updated[k] == PollResult(ds[i], fetch(ds[i]));
      assert updated[k] in updated;
    }
    if found.Some? {
      var k :| 0 <= k < |updated| && updated[k] == found.value;
      var t := targets[k];
      assert updated[k] == PollResult(t, fetch(t));
      assert t in ds && InProgress(t);
      assert t.id == ds[i].id by {
        assert fetch(t).Fetched? ==> fetch(t).record.id == t.id;
        assert PollResult(t, fetch(t)).id == t.id;
      }
      var j :| 0 <= j < |ds| && ds[j] == t;
      assert j == i;
    }
  }

  /** The list without the entries that have the id. */
  function Remove(ds: seq<Deployment>, id: string): (r: seq<Deployment>)
    ensures |r| <= |ds|
    ensures forall i :: 0 <= i < |r| ==> r[i].id != id && r[i] in ds
    ensures forall d :: d in ds && d.id != id ==> d in r
  {
    if ds == [] then []
    else if ds[0].id == id then Remove(ds[1..], id)
    else [ds[0]] + Remove(ds[1..], id)
  }

  /** The filter works piece by piece, so the cards that stay keep their order. */
  lemma {:induction false} RemoveAppend(xs: seq<Deployment>, ys: seq<Deployment>, id: string)
    ensures Remove(xs + ys, id) == Remove(xs, id) + Remove(ys, id)
  {
    if xs == [] {
      assert xs + ys == ys;
    } else {
      assert (xs + ys)[0] == xs[0] && (xs + ys)[1..] == xs[1..] + ys;
      RemoveAppend(xs[1..], ys, id);
    }
  }

  /** Removing an id that is not in the list changes nothing. */
  lemma {:induction false} RemoveAbsent(ds: seq<Deployment>, id: string)
    requires forall i :: 0 <= i < |ds| ==> ds[i].id != id
    ensures Remove(ds, id) == ds
  {
    if ds != [] {
      RemoveAbsent(ds[1..], id);
      assert [ds[0]] + ds[1..] == ds;
    }
  }

  function RunningCount(ds: seq<Deployment>): nat {
    if ds == [] then 0 else (if ds[0].status == "running" then 1 else 0) + RunningCount(ds[1..])
  }

  function DeployingCount(ds: seq<Deployment>): nat {
    if ds == [] then 0 else (if InProgress(ds[0]) then 1 else 0) + DeployingCount(ds[1..])
  }

  /**
   * A deployment counts as running or as deploying, never both, so the two
   * counts add up to at most the number of deployments; the deploying count
   * is the number of poll targets.
   */
  lemma {:induction false} CountsBounded(ds: seq<Deployment>)
    ensures RunningCount(ds) + DeployingCount(ds) <= |ds|
    ensures DeployingCount(ds) == |PollTargets(ds)|
  {
    if ds != [] {
      CountsBounded(ds[1..]);
    }
  }

  /** The badge styles of the colour table. */
  datatype Variant = Default | Warning | Success | Destructive | Secondary

  /** The badge of a status: the colour table's entry, secondary for a status not in it. */
  function BadgeVariant(status: string): (v: Variant)
    ensures v == Success <==> status == "running"
    ensures v == Warning <==> status == "deploying"
    ensures v == Destructive <==> status == "failed"
    ensures v != Default
  {
    match status
    case "running" => Success
    case "deploying" => Warning
    case "pending" => Secondary
    case "failed" => Destructive
    case _ => Secondary
  }

  /** What the delete request gave: a response (ok or not), or a failed round trip. */
  datatype DeleteOutcome = Responded(ok: bool) | DeleteUnreachable

  /** The dashboard's component state. */
  class DashboardState {
    var liveDeployments: seq<Deployment>

    constructor (deployments: seq<Deployment>)
      ensures liveDeployments == deployments
    {
      liveDeployments := deployments;
    }

    /**
     * One tick of the poll timer: the in-progress deployments are fetched
     * and the results merged into the list. With no target the list stays.
     */
    method PollTick(fetch: Deployment -> PollResponse)
      modifies this
      ensures liveDeployments ==
        Merge(old(liveDeployments), PollResults(PollTargets(old(liveDeployments)), fetch))
      ensures PollTargets(old(liveDeployments)) == [] ==> liveDeployments == old(liveDeployments)
    {
      var deploying := PollTargets(liveDeployments);
      if |deploying| == 0 {
        assert Merge(liveDeployments, PollResults(deploying, fetch)) == liveDeployments;
        return;
      }
      var updated := PollResults(deploying, fetch);
      liveDeployments := Merge(liveDeployments, updated);
    }

    /** `handleDelete`: the entries with the id go only when confirmed and the response is ok. */
    method HandleDelete(id: string, confirmed: bool, outcome: DeleteOutcome)
      modifies this
      ensures confirmed && outcome == Responded(true) ==> liveDeployments == Remove(old(liveDeployments), id)
      ensures !(confirmed && outcome == Responded(true)) ==> liveDeployments == old(liveDeployments)
    {
      if !confirmed { return; }
      if outcome.DeleteUnreachable? || !outcome.ok {
        return;
      }
      liveDeployments := Remove(liveDeployments, id);
    }
  }
}
