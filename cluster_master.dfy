/**
 * The cluster master's decisions: whether it runs in production, which
 * protocol and log method it uses, how it numbers and registers the agent
 * it forks, and what it broadcasts once ready. Environment variables are a
 * map; process forking, port probing, pid files and logging are outside.
 */
module ClusterMaster {
  import opened Wrappers
  import opened JsValues
  import opened ClusterManager
  import opened ClusterMessenger
  import ClusterOptions
  import JsObjects
  import OrderedMaps
  import opened Environment

  /** `isProduction()`: the server env decides when set, otherwise NODE_ENV. */
  predicate IsProduction(env: Env) {
    if EnvSet(env, "IEDO_SERVER_ENV") then
      env["IEDO_SERVER_ENV"] != "local" && env["IEDO_SERVER_ENV"] != "unittest"
    else EnvIs(env, "NODE_ENV", "production")
  }

  datatype LogMethod = Info | Debug

  /** `debug` for a local server env or a development NODE_ENV, `info` otherwise. */
  function ChooseLogMethod(env: Env): LogMethod {
    if EnvIs(env, "IEDO_SERVER_ENV", "local") || EnvIs(env, "NODE_ENV", "development") then Debug else Info
  }

  /** `options.https ? 'https' : 'http'`. */
  function Protocol(https: JsValue): (p: string)
    ensures p == "https" || p == "http"
    ensures p == "https" <==> Truthy(https)
  {
    if Truthy(https) then "https" else "http"
  }

  /** A local server env is never production and always logs at debug. */
  lemma LocalIsDebugNotProduction(env: Env)
    requires EnvIs(env, "IEDO_SERVER_ENV", "local")
    ensures !IsProduction(env) && ChooseLogMethod(env) == Debug
  {
  }

  /**
   * Without a server env, production is exactly NODE_ENV "production", and
   * then the master logs at info.
   */
  lemma NodeEnvDecides(env: Env)
    requires !EnvSet(env, "IEDO_SERVER_ENV")
    ensures IsProduction(env) <==> EnvIs(env, "NODE_ENV", "production")
    ensures IsProduction(env) ==> ChooseLogMethod(env) == Info
  {
  }

  /** A server env other than "local" or "unittest" is production whatever NODE_ENV says. */
  lemma ServerEnvOverridesNodeEnv(env: Env, nodeEnv: string)
    requires EnvSet(env, "IEDO_SERVER_ENV")
    ensures IsProduction(env["NODE_ENV" := nodeEnv]) == IsProduction(env)
    ensures IsProduction(env) <==> env["IEDO_SERVER_ENV"] !in {"local", "unittest"}
  {
    assert "NODE_ENV" != "IEDO_SERVER_ENV";
  }

  /** What the master sends: the parent's `{port, address, protocol}`, or the options object. */
  datatype Payload =
    | ToParentData(port: JsValue, address: JsValue, protocol: string)
    | OptionsData(options: Object)

  /** The three 'egg-ready' envelopes, in the order they are sent. */
  function ReadyEnvelopes(realPort: JsValue, protocol: string, options: Object): (es: seq<Envelope<Payload>>)
    ensures |es| == 3
    ensures forall i :: 0 <= i < 3 ==> es[i].action == "egg-ready" && es[i].from.None? && es[i].receiverPid.None?
    ensures es[0].to == Some(Parent) && es[1].to == Some(App) && es[2].to == Some(Agent)
    ensures es[0].data == ToParentData(realPort, Undefined, protocol)
    ensures es[1].data == OptionsData(options) && es[2].data == OptionsData(options)
  {
    [Envelope(None, Some(Parent), "egg-ready", None, ToParentData(realPort, Undefined, protocol)),
     Envelope(None, Some(App), "egg-ready", None, OptionsData(options)),
     Envelope(None, Some(Agent), "egg-ready", None, OptionsData(options))]
  }

  /** Everything the three ready sends deliver, in order. */
  function ReadyDeliveries(es: seq<Envelope<Payload>>, ownPid: int, parentOpen: bool,
                           agent: Option<AgentProcess>, workers: seq<ClusterWorker>): seq<Delivery<Payload>>
  {
    if es == [] then []
    else
      Dispatch(Resolve(es[0], ownPid, agent), parentOpen, agent, workers)
        + ReadyDeliveries(es[1..], ownPid, parentOpen, agent, workers)
  }

  /** Regrouping three appended pieces. */
  lemma AppendThree<X>(b: seq<X>, d0: seq<X>, d1: seq<X>, d2: seq<X>)
    ensures b + d0 + d1 + d2 == b + (d0 + d1 + d2)
  {
  }

  lemma ReadyDeliveriesOfThree(es: seq<Envelope<Payload>>, ownPid: int, parentOpen: bool,
                                agent: Option<AgentProcess>, workers: seq<ClusterWorker>)
    requires |es| == 3
    ensures ReadyDeliveries(es, ownPid, parentOpen, agent, workers) ==
      Dispatch(Resolve(es[0], ownPid, agent), parentOpen, agent, workers)
        + Dispatch(Resolve(es[1], ownPid, agent), parentOpen, agent, workers)
        + Dispatch(Resolve(es[2], ownPid, agent), parentOpen, agent, workers)
  {
    var t1 := es[1..];
    var t2 := t1[1..];
    assert t1[0] == es[1] && t2[0] == es[2] && t2[1..] == [];
    var d0 := Dispatch(Resolve(es[0], ownPid, agent), parentOpen, agent, workers);
    var d1 := Dispatch(Resolve(es[1], ownPid, agent), parentOpen, agent, workers);
    var d2 := Dispatch(Resolve(es[2], ownPid, agent), parentOpen, agent, workers);
    assert ReadyDeliveries(t2[1..], ownPid, parentOpen, agent, workers) == [];
    assert ReadyDeliveries(t2, ownPid, parentOpen, agent, workers) == d2 + [];
    assert ReadyDeliveries(t1, ownPid, parentOpen, agent, workers) == d1 + d2;
    assert ReadyDeliveries(es, ownPid, parentOpen, agent, workers) == d0 + (d1 + d2);
  }

  /**
   * The ready broadcast reaches the parent first (when its channel is open),
   * then the app workers, then the agent (when there is one); the parent
   * gets the port, address and protocol, the others the options.
   */
  lemma ReadyOrder(realPort: JsValue, protocol: string, options: Object, ownPid: int, parentOpen: bool,
                   agent: Option<AgentProcess>, workers: seq<ClusterWorker>)
    ensures var es := ReadyEnvelopes(realPort, protocol, options);
      var parentPart := if parentOpen then [ToParent(Resolve(es[0], ownPid, agent))] else [];
      var agentPart := if agent.Some? then [ToAgent(agent.value.pid, Resolve(es[2], ownPid, agent))] else [];
      ReadyDeliveries(es, ownPid, parentOpen, agent, workers) ==
        parentPart + AppDeliveries(Resolve(es[1], ownPid, agent), workers) + agentPart
    ensures var es := ReadyEnvelopes(realPort, protocol, options);
      forall d :: d in ReadyDeliveries(es, ownPid, parentOpen, agent, workers) ==>
        (Destination(d) == Parent <==> d.envelope.data == ToParentData(realPort, Undefined, protocol))
  {
    var es := ReadyEnvelopes(realPort, protocol, options);
    var r0, r1, r2 := Resolve(es[0], ownPid, agent), Resolve(es[1], ownPid, agent), Resolve(es[2], ownPid, agent);
    ReadyDeliveriesOfThree(es, ownPid, parentOpen, agent, workers);
    var all := ReadyDeliveries(es, ownPid, parentOpen, agent, workers);
    forall d | d in all
      ensures Destination(d) == Parent <==> d.envelope.data == ToParentData(realPort, Undefined, protocol)
    {
      OneDestination(es[0], ownPid, parentOpen, agent, workers);
      OneDestination(es[1], ownPid, parentOpen, agent, workers);
      OneDestination(es[2], ownPid, parentOpen, agent, workers);
    }
  }

  class Master {
    const options: Object
    const manager: Manager
    const messenger: Messenger<Payload>
    const isProduction: bool
    /** `this[REAL_PORT]`: the parsed port. */
    const realPort: JsValue
    /** `this[PROTOCOL]`. */
    const protocol: string
    const logMethod: LogMethod
    var agentWorkerIndex: nat
    var isStarted: bool
    var closed: bool

    ghost predicate Valid()
      reads this, manager
    {
      manager.Valid()
    }

    /** The constructor's bookkeeping, from already parsed options. */
    constructor (options: Object, env: Env, ownPid: int, parentChannel: bool)
      ensures Valid() && fresh(manager) && fresh(messenger)
      ensures this.options == options
      ensures manager.agent == None && manager.workers == OrderedMaps.Empty() && !manager.active
      ensures messenger.ownPid == ownPid && messenger.hasParent == parentChannel && messenger.outbox == []
      ensures isProduction == IsProduction(env)
      ensures realPort == Get(options, "port")
      ensures protocol == Protocol(Get(options, "https"))
      ensures logMethod == ChooseLogMethod(env)
      ensures agentWorkerIndex == 0 && !isStarted && !closed
    {
      this.options := options;
      manager := new Manager();
      messenger := new Messenger(ownPid, parentChannel);
      isProduction := IsProduction(env);
      agentWorkerIndex := 0;
      closed := false;
      realPort := Get(options, "port");
      protocol := if Truthy(Get(options, "https")) then "https" else "http";
      isStarted := false;
      logMethod := if EnvIs(env, "IEDO_SERVER_ENV", "local") || EnvIs(env, "NODE_ENV", "development") then Debug else Info;
    }

    /**
     * `forkAgentWorker` after the fork: the agent is numbered with the next
     * index, marked "starting" and registered with the manager.
     */
    method ForkAgentWorker(pid: int)
      modifies this`agentWorkerIndex, manager`agent
      ensures agentWorkerIndex == old(agentWorkerIndex) + 1
      ensures manager.agent == Some(AgentProcess(pid, "starting", Some(agentWorkerIndex)))
    {
      agentWorkerIndex := agentWorkerIndex + 1;
      var agent := AgentProcess(pid, "starting", Some(agentWorkerIndex));
      manager.SetAgent(agent);
    }

    /**
     * The ready callback: marks the master started, sends 'egg-ready' to
     * the parent, the app workers and the agent in that order, and starts
     * the health check in production only.
     */
    method OnReady(workers: seq<ClusterWorker>)
      requires Valid()
      modifies this`isStarted, messenger`outbox, manager`exception, manager`active
      ensures Valid() && isStarted
      ensures messenger.outbox == old(messenger.outbox)
        + ReadyDeliveries(ReadyEnvelopes(realPort, protocol, options), messenger.ownPid,
                          messenger.hasParent && messenger.parentChannel, manager.agent, workers)
      ensures isProduction ==> manager.exception == Some(0) && manager.active
      ensures !isProduction ==> manager.exception == old(manager.exception) && manager.active == old(manager.active)
    {
      isStarted := true;
      SendReady(ReadyEnvelopes(realPort, protocol, options), workers);
      if isProduction {
        manager.StartCheck();
      }
    }

    /** The three `messenger.send` calls of `onReady`, in order. */
    method SendReady(es: seq<Envelope<Payload>>, workers: seq<ClusterWorker>)
      requires |es| == 3
      modifies messenger`outbox
      ensures messenger.outbox == old(messenger.outbox)
        + ReadyDeliveries(es, messenger.ownPid, messenger.hasParent && messenger.parentChannel, manager.agent, workers)
    {
      var agent := manager.agent;
      ghost var ownPid := messenger.ownPid;
      ghost var parentOpen := messenger.hasParent && messenger.parentChannel;
      ReadyDeliveriesOfThree(es, ownPid, parentOpen, agent, workers);
      ghost var before := messenger.outbox;
      messenger.Send(es[0], agent, workers);
      messenger.Send(es[1], agent, workers);
      messenger.Send(es[2], agent, workers);
      AppendThree(before, Dispatch(Resolve(es[0], ownPid, agent), parentOpen, agent, workers),
        Dispatch(Resolve(es[1], ownPid, agent), parentOpen, agent, workers),
        Dispatch(Resolve(es[2], ownPid, agent), parentOpen, agent, workers));
    }
  }

  /**
   * `parseOptions` then the constructor; a failed option assertion means no
   * master is built.
   */
  method NewMaster(given: Object, host: ClusterOptions.Host, env: Env, ownPid: int, parentChannel: bool)
    returns (r: Result<Master>)
    ensures ClusterOptions.Outcome(JsObjects.Overlay(ClusterOptions.Defaults(given, host.cwd), given), host,
      if r.Success? then Success(r.value.options) else Failure(r.error))
    ensures r.Success? ==> fresh(r.value) && r.value.Valid() && r.value.isProduction == IsProduction(env)
  {
    var options := ClusterOptions.ParseOptions(given, host);
    if options.Failure? {
      return Failure(options.error);
    }
    var master := new Master(options.value, env, ownPid, parentChannel);
    return Success(master);
  }

  /**
   * The agent the master registers is "starting", and nothing in the master
   * ever marks it "started": the manager's count does not include it.
   */
  lemma ForkedAgentNotCounted(pid: int, index: nat, workers: nat)
    ensures AgentCount(Some(AgentProcess(pid, "starting", Some(index)))) == 0
    ensures !Healthy(Counts(AgentCount(Some(AgentProcess(pid, "starting", Some(index)))), workers))
  {
  }
}
