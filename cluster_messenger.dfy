/**
 * The master's message router. `send` fills in the sender, resolves the
 * destination from `receiverPid` or from the fixed adjacency table, and
 * dispatches to exactly one of master, parent, app workers or agent.
 * What each dispatch branch hands to the outside world (a local event, a
 * message on a channel) is recorded as a `Delivery` in `outbox`.
 */
module ClusterMessenger {
  import opened Wrappers
  import opened Strings
  import ClusterManager

  datatype Endpoint = Master | Parent | Worker | Agent | App

  /** `{from?, to?, action?, receiverPid?, data}`; an absent action is "". */
  datatype Envelope<T> = Envelope(
    from: Option<Endpoint>,
    to: Option<Endpoint>,
    action: string,
    receiverPid: Option<string>,
    data: T)

  /** An entry of Node's `cluster.workers`: the worker's process pid and state. */
  datatype ClusterWorker = ClusterWorker(pid: int, state: string)

  /** What one dispatch hands over. */
  datatype Delivery<T> =
    | MasterEvent(name: string, envelope: Envelope<T>)
    | ToParent(envelope: Envelope<T>)
    | ToWorker(pid: int, envelope: Envelope<T>)
    | ToAgent(pid: int, envelope: Envelope<T>)

  /** `if (data.receiverPid)`: present and non-empty. */
  predicate HasReceiver<T>(e: Envelope<T>) {
    e.receiverPid.Some? && e.receiverPid.value != ""
  }

  /** `String(this.master.agentWorker?.pid)`: "undefined" when there is no agent. */
  function AgentPidText(agent: Option<ClusterManager.AgentProcess>): string {
    if agent.Some? then IntToString(agent.value.pid) else "undefined"
  }

  /** The default destination for a sender when none is given. */
  function Adjacent(from: Endpoint): (to: Option<Endpoint>)
    ensures from == Agent ==> to == Some(App)
    ensures from == App ==> to == Some(Agent)
    ensures from == Parent ==> to == Some(Master)
    ensures from == Master || from == Worker ==> to == None
  {
    match from
    case Agent => Some(App)
    case App => Some(Agent)
    case Parent => Some(Master)
    case _ => None
  }

  /** The envelope after `send` has filled in `from` and `to`. */
  function Resolve<T>(e: Envelope<T>, ownPid: int, agent: Option<ClusterManager.AgentProcess>): (r: Envelope<T>)
    ensures r.from == Some(e.from.GetOr(Master))
    ensures r.action == e.action && r.receiverPid == e.receiverPid && r.data == e.data
    ensures HasReceiver(e) ==>
      r.to == Some(if e.receiverPid.value == IntToString(ownPid) then Master
                   else if e.receiverPid.value == AgentPidText(agent) then Agent
                   else App)
    ensures !HasReceiver(e) && e.to.Some? ==> r.to == e.to
    ensures !HasReceiver(e) && e.to.None? ==> r.to == Adjacent(e.from.GetOr(Master))
  {
    var from := e.from.GetOr(Master);
    var to :=
      if HasReceiver(e) then
        if e.receiverPid.value == IntToString(ownPid) then Some(Master)
        else if e.receiverPid.value == AgentPidText(agent) then Some(Agent)
        else Some(App)
      else e.to;
    var to' := if to.None? then Adjacent(from) else to;
    e.(from := Some(from), to := to')
  }

  /** Whether the app-worker branch sends to this cluster worker. */
  predicate AppTarget<T>(e: Envelope<T>, w: ClusterWorker) {
    w.state != "disconnected" && (!HasReceiver(e) || e.receiverPid.value == IntToString(w.pid))
  }

  /** The messages the app-worker branch sends, in `cluster.workers` order. */
  function AppDeliveries<T>(e: Envelope<T>, workers: seq<ClusterWorker>): (r: seq<Delivery<T>>)
    ensures |r| <= |workers|
  {
    if workers == [] then []
    else
      var w := workers[|workers| - 1];
      AppDeliveries(e, workers[..|workers| - 1]) + (if AppTarget(e, w) then [ToWorker(w.pid, e)] else [])
  }

  /** The app-worker branch reaches exactly the workers it targets, with the envelope unchanged. */
  lemma {:induction false} AppDeliveriesTargets<T>(e: Envelope<T>, workers: seq<ClusterWorker>, d: Delivery<T>)
    ensures d in AppDeliveries(e, workers) <==>
      exists w :: w in workers && AppTarget(e, w) && d == ToWorker(w.pid, e)
  {
    if workers != [] {
      var init := workers[..|workers| - 1];
      AppDeliveriesTargets(e, init, d);
      assert workers == init + [workers[|workers| - 1]];
    }
  }

  /** What dispatching an already resolved envelope delivers. */
  function Dispatch<T>(e: Envelope<T>, parentOpen: bool, agent: Option<ClusterManager.AgentProcess>,
                       workers: seq<ClusterWorker>): (r: seq<Delivery<T>>)
    ensures e.to == Some(Master) ==> r == (if e.action != "" then [MasterEvent(e.action, e)] else [])
    ensures e.to == Some(Parent) ==> r == (if parentOpen then [ToParent(e)] else [])
    ensures e.to == Some(Agent) ==> r == (if agent.Some? then [ToAgent(agent.value.pid, e)] else [])
    ensures e.to == Some(App) ==> r == AppDeliveries(e, workers)
    ensures e.to == Some(Worker) || e.to == None ==> r == []
  {
    match e.to
    case Some(Master) => if e.action != "" then [MasterEvent(e.action, e)] else []
    case Some(Parent) => if parentOpen then [ToParent(e)] else []
    case Some(App) => AppDeliveries(e, workers)
    case Some(Agent) => if agent.Some? then [ToAgent(agent.value.pid, e)] else []
    case _ => []
  }

  /** The destination a delivery went to. */
  function Destination<T>(d: Delivery<T>): Endpoint {
    match d
    case MasterEvent(_, _) => Master
    case ToParent(_) => Parent
    case ToWorker(_, _) => App
    case ToAgent(_, _) => Agent
  }

  /**
   * One `send` takes exactly one branch: every delivery it makes goes to the
   * resolved destination, carries the resolved envelope, and a send to
   * "worker" or to nobody delivers nothing.
   */
  lemma OneDestination<T>(e: Envelope<T>, ownPid: int, parentOpen: bool,
                          agent: Option<ClusterManager.AgentProcess>, workers: seq<ClusterWorker>)
    ensures var r := Resolve(e, ownPid, agent);
      forall d :: d in Dispatch(r, parentOpen, agent, workers) ==>
        r.to == Some(Destination(d)) && d.envelope == r
  {
    var r := Resolve(e, ownPid, agent);
    forall d | d in Dispatch(r, parentOpen, agent, workers)
      ensures r.to == Some(Destination(d)) && d.envelope == r
    {
      if r.to == Some(App) {
        AppDeliveriesTargets(r, workers, d);
      }
    }
  }

  /**
   * Routing is stable: an envelope `send` has already filled in is routed
   * to the same place again, so forwarding never changes a destination.
   */
  lemma ResolveIdempotent<T>(e: Envelope<T>, ownPid: int, agent: Option<ClusterManager.AgentProcess>)
    ensures Resolve(Resolve(e, ownPid, agent), ownPid, agent) == Resolve(e, ownPid, agent)
  {
  }

  class Messenger<T> {
    /** `process.pid` of the master. */
    const ownPid: int
    /** Whether `process.send` exists, i.e. the master has a parent channel. */
    const parentChannel: bool
    var hasParent: bool
    /** Everything handed to the outside world so far, in order. */
    var outbox: seq<Delivery<T>>

    constructor (ownPid: int, parentChannel: bool)
      ensures this.ownPid == ownPid && this.parentChannel == parentChannel
      ensures hasParent == parentChannel && outbox == []
    {
      this.ownPid := ownPid;
      this.parentChannel := parentChannel;
      hasParent := parentChannel;
      outbox := [];
    }

    /** The parent channel's 'disconnect' event. */
    method OnDisconnect()
      modifies this`hasParent
      ensures !hasParent
    {
      hasParent := false;
    }

    method Send(e: Envelope<T>, agent: Option<ClusterManager.AgentProcess>, workers: seq<ClusterWorker>)
      modifies this`outbox
      ensures outbox == old(outbox) + Dispatch(Resolve(e, ownPid, agent), hasParent && parentChannel, agent, workers)
    {
      var data := e;
      if data.from.None? {
        data := data.(from := Some(Master));
      }
      if HasReceiver(data) {
        if data.receiverPid.value == IntToString(ownPid) {
          data := data.(to := Some(Master));
        } else if data.receiverPid.value == AgentPidText(agent) {
          data := data.(to := Some(Agent));
        } else {
          data := data.(to := Some(App));
        }
      }
      if data.to.None? {
        if data.from == Some(Agent) { data := data.(to := Some(App)); }
        if data.from == Some(App) { data := data.(to := Some(Agent)); }
        if data.from == Some(Parent) { data := data.(to := Some(Master)); }
      }
      assert data == Resolve(e, ownPid, agent);
      if data.to == Some(Master) {
        SendToMaster(data);
        return;
      }
      if data.to == Some(Parent) {
        SendToParent(data);
        return;
      }
      if data.to == Some(App) {
        SendToAppWorker(data, workers);
        return;
      }
      if data.to == Some(Agent) {
        SendToAgentWorker(data, agent);
        return;
      }
    }

    /** A message arriving from the parent is relabelled as coming from it, then routed. */
    method OnParentMessage(e: Envelope<T>, agent: Option<ClusterManager.AgentProcess>, workers: seq<ClusterWorker>)
      modifies this`outbox
      ensures outbox == old(outbox)
        + Dispatch(Resolve(e.(from := Some(Parent)), ownPid, agent), hasParent && parentChannel, agent, workers)
    {
      Send(e.(from := Some(Parent)), agent, workers);
    }

    /** Emits the envelope as a local event named by its action, if it has one. */
    method SendToMaster(e: Envelope<T>)
      modifies this`outbox
      ensures outbox == old(outbox) + (if e.action != "" then [MasterEvent(e.action, e)] else [])
    {
      if e.action != "" {
        outbox := outbox + [MasterEvent(e.action, e)];
      }
    }

    method SendToParent(e: Envelope<T>)
      modifies this`outbox
      ensures outbox == old(outbox) + (if hasParent && parentChannel then [ToParent(e)] else [])
    {
      if hasParent && parentChannel {
        outbox := outbox + [ToParent(e)];
      }
    }

    method SendToAppWorker(e: Envelope<T>, workers: seq<ClusterWorker>)
      modifies this`outbox
      ensures outbox == old(outbox) + AppDeliveries(e, workers)
    {
      var i := 0;
      while i < |workers|
        invariant 0 <= i <= |workers|
        invariant outbox == old(outbox) + AppDeliveries(e, workers[..i])
      {
        var w := workers[i];
        assert workers[..i + 1][..i] == workers[..i];
        if w.state == "disconnected" {
          i := i + 1;
          continue;
        }
        if HasReceiver(e) && e.receiverPid.value != IntToString(w.pid) {
          i := i + 1;
          continue;
        }
        outbox := outbox + [ToWorker(w.pid, e)];
        i := i + 1;
      }
      assert workers[..i] == workers;
    }

    method SendToAgentWorker(e: Envelope<T>, agent: Option<ClusterManager.AgentProcess>)
      modifies this`outbox
      ensures outbox == old(outbox) + (if agent.Some? then [ToAgent(agent.value.pid, e)] else [])
    {
      if agent.Some? {
        outbox := outbox + [ToAgent(agent.value.pid, e)];
      }
    }
  }
}
