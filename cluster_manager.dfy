/**
 * The process registry of the cluster master: the single agent handle, the
 * app workers keyed by their process id, the liveness counts, and the
 * health check. The check's `setInterval` is replaced by an explicit
 * `Tick()` that the environment calls every ten seconds while `active`.
 */
module ClusterManager {
  import opened Wrappers
  import opened OrderedMaps

  /** The agent child process: its pid, its `status` ("" while unset) and its `id`. */
  datatype AgentProcess = AgentProcess(pid: int, status: string, id: Option<int>)

  /** An app worker as the registry sees it: `worker.process.id` and `worker.state`. */
  datatype Worker = Worker(processId: int, state: string)

  /** The result of `count()`. */
  datatype Counts = Counts(agent: nat, worker: nat)

  /** `count.agent && count.worker`. */
  predicate Healthy(c: Counts) {
    c.agent != 0 && c.worker != 0
  }

  /** The agent count: 1 for an agent whose status is "started". */
  function AgentCount(agent: Option<AgentProcess>): (n: nat)
    ensures n == 1 <==> agent.Some? && agent.value.status == "started"
    ensures n == 0 <==> !(agent.Some? && agent.value.status == "started")
  {
    if agent.Some? && agent.value.status == "started" then 1 else 0
  }

  /** The ids of `keys` whose worker is in state "listening", in key order. */
  function ListeningIds(keys: seq<int>, entries: map<int, Worker>): seq<int>
  {
    if keys == [] then []
    else
      var last := keys[|keys| - 1];
      ListeningIds(keys[..|keys| - 1], entries)
        + (if last in entries && entries[last].state == "listening" then [last] else [])
  }

  /** An id is listed exactly when it is a key whose worker is listening. */
  lemma {:induction false} ListeningIdsMembers(keys: seq<int>, entries: map<int, Worker>, id: int)
    ensures id in ListeningIds(keys, entries)
        <==> id in keys && id in entries && entries[id].state == "listening"
  {
    if keys != [] {
      ListeningIdsMembers(keys[..|keys| - 1], entries, id);
      assert keys == keys[..|keys| - 1] + [keys[|keys| - 1]];
    }
  }

  /** One health-check tick: the new failure counter and whether it escalates. */
  function TickStep(counter: int, c: Counts): (r: (int, bool))
    ensures Healthy(c) ==> r == (0, false)
    ensures !Healthy(c) ==> r.0 == counter + 1 && (r.1 <==> counter + 1 >= 3)
  {
    if Healthy(c) then (0, false)
    else (counter + 1, counter + 1 >= 3)
  }

  class Manager {
    var workers: OrderedMap<int, Worker>
    var agent: Option<AgentProcess>
    /** The failure counter; None until `startCheck` runs. */
    var exception: Option<int>
    /** Whether the health-check timer is running. */
    var active: bool

    ghost predicate Valid()
      reads this
    {
      workers.Valid() && (active ==> exception.Some? && 0 <= exception.value < 3)
    }

    constructor ()
      ensures Valid()
      ensures workers == Empty() && agent == None
      ensures exception == None && !active
    {
      workers := Empty();
      agent := None;
      exception := None;
      active := false;
    }

    method SetAgent(a: AgentProcess)
      modifies this`agent
      ensures agent == Some(a)
    {
      agent := Some(a);
    }

    method DeleteAgent()
      modifies this`agent
      ensures agent == None
    {
      agent := None;
    }

    /** Registers `w` under `w.process.id`, replacing a worker with that id in place. */
    method SetWorker(w: Worker)
      requires Valid()
      modifies this`workers
      ensures Valid()
      ensures workers.entries == old(workers.entries)[w.processId := w]
      ensures w.processId in old(workers.entries) ==> workers.keys == old(workers.keys)
      ensures w.processId !in old(workers.entries) ==> workers.keys == old(workers.keys) + [w.processId]
    {
      workers := workers.Set(w.processId, w);
    }

    function GetWorker(id: int): (r: Option<Worker>)
      reads this
      ensures r.Some? <==> id in workers.entries
      ensures r.Some? ==> r.value == workers.entries[id]
    {
      workers.Get(id)
    }

    /** Removes the worker with this id, and only it. */
    method DeleteWorker(id: int)
      requires Valid()
      modifies this`workers
      ensures Valid()
      ensures workers.entries == old(workers.entries) - {id}
      ensures workers.keys == Without(old(workers.keys), id)
    {
      workers := workers.Delete(id);
    }

    function ListWorkerIds(): (ids: seq<int>)
      reads this
      requires Valid()
      ensures Distinct(ids)
      ensures forall id :: id in ids <==> id in workers.entries
    {
      workers.keys
    }

    /** The ids of the listening workers, in insertion order. */
    method GetListeningWorkerIds() returns (ids: seq<int>)
      requires Valid()
      ensures ids == ListeningIds(workers.keys, workers.entries)
      ensures forall id :: id in ids <==> id in workers.entries && workers.entries[id].state == "listening"
    {
      ids := [];
      var i := 0;
      while i < |workers.keys|
        invariant 0 <= i <= |workers.keys|
        invariant ids == ListeningIds(workers.keys[..i], workers.entries)
      {
        var id := workers.keys[i];
        assert workers.keys[..i + 1][..i] == workers.keys[..i];
        if GetWorker(id).value.state == "listening" {
          ids := ids + [id];
        }
        i := i + 1;
      }
      assert workers.keys[..i] == workers.keys;
      forall id ensures id in ids <==> id in workers.entries && workers.entries[id].state == "listening" {
        ListeningIdsMembers(workers.keys, workers.entries, id);
      }
    }

    /** `count()`: a started agent, and every tracked worker whatever its state. */
    function Count(): (c: Counts)
      reads this
      requires Valid()
      ensures c.agent == AgentCount(agent)
      ensures c.worker == |workers.entries|
    {
      Counts(AgentCount(agent), workers.Size())
    }

    /** Resets the failure counter and starts the timer. */
    method StartCheck()
      requires Valid()
      modifies this`exception, this`active
      ensures Valid()
      ensures exception == Some(0) && active
    {
      exception := Some(0);
      active := true;
    }

    /**
     * One timer tick. Returns the 'execption' event with the counts when the
     * counter reaches 3, and then stops the timer. Without a running timer
     * nothing happens.
     */
    method Tick() returns (event: Option<Counts>)
      requires Valid()
      modifies this`exception, this`active
      ensures Valid()
      ensures !old(active) ==> event == None && exception == old(exception) && !active
      ensures old(active) ==>
        var (counter, fire) := TickStep(old(exception).value, Count());
        && exception == Some(counter)
        && active == !fire
        && event == (if fire then Some(Count()) else None)
    {
      event := None;
      if !active {
        return;
      }
      var count := Count();
      if Healthy(count) {
        exception := Some(0);
        return;
      }
      if exception.None? || exception.value == 0 {
        exception := Some(0);
      }
      exception := Some(exception.value + 1);
      if exception.value >= 3 {
        event := Some(count);
        active := false;
      }
    }
  }

  /** A counter value and whether the timer still runs, as a value. */
  datatype Check = Check(counter: int, active: bool)

  /** The health check after the timer fired once per element of `ticks`, from `startCheck`. */
  function Run(ticks: seq<Counts>): (r: (Check, seq<Counts>))
  {
    if ticks == [] then (Check(0, true), [])
    else
      var (s, events) := Run(ticks[..|ticks| - 1]);
      var t := ticks[|ticks| - 1];
      if !s.active then (s, events)
      else
        var (counter, fire) := TickStep(s.counter, t);
        (Check(counter, !fire), events + (if fire then [t] else []))
  }

  /** How many ticks at the end of `ticks` saw a missing agent or no worker. */
  function Trailing(ticks: seq<Counts>): nat
  {
    if ticks == [] || Healthy(ticks[|ticks| - 1]) then 0
    else Trailing(ticks[..|ticks| - 1]) + 1
  }

  /** `Trailing` of the first `k + 1` ticks. */
  function TrailingAt(ticks: seq<Counts>, k: int): nat
    requires 0 <= k < |ticks|
  {
    Trailing(ticks[..k + 1])
  }

  /** No prefix of `ticks` ends in three unhealthy ticks. */
  predicate NoTriple(ticks: seq<Counts>) {
    forall k :: 0 <= k < |ticks| ==> TrailingAt(ticks, k) < 3
  }

  /** Tick `k` is the first to complete three unhealthy ticks in a row. */
  predicate FirstTriple(ticks: seq<Counts>, k: int) {
    0 <= k < |ticks| && TrailingAt(ticks, k) == 3 && NoTriple(ticks[..k])
  }

  /** Three unhealthy ticks in a row are what `Trailing` reaching 3 means. */
  lemma TrailingThree(ticks: seq<Counts>)
    requires |ticks| >= 3
    ensures Trailing(ticks) >= 3 <==>
      !Healthy(ticks[|ticks| - 1]) && !Healthy(ticks[|ticks| - 2]) && !Healthy(ticks[|ticks| - 3])
  {
    var p := ticks[..|ticks| - 1];
    var q := p[..|p| - 1];
    assert p[|p| - 1] == ticks[|ticks| - 2];
    assert q[|q| - 1] == ticks[|ticks| - 3];
    assert Trailing(ticks) == if Healthy(ticks[|ticks| - 1]) then 0 else Trailing(p) + 1;
    assert Trailing(p) == if Healthy(p[|p| - 1]) then 0 else Trailing(q) + 1;
    assert Trailing(q) == if Healthy(q[|q| - 1]) then 0 else Trailing(q[..|q| - 1]) + 1;
  }

  lemma PrefixTrailingAt(ticks: seq<Counts>, m: int)
    requires 0 <= m <= |ticks|
    ensures forall k :: 0 <= k < m ==> TrailingAt(ticks[..m], k) == TrailingAt(ticks, k)
  {
    forall k | 0 <= k < m ensures TrailingAt(ticks[..m], k) == TrailingAt(ticks, k) {
      assert ticks[..m][..k + 1] == ticks[..k + 1];
    }
  }

  /**
   * The escalation fires at most once, exactly on the first tick that
   * completes three consecutive unhealthy ticks, carrying that tick's
   * counts, and stops the timer; until then the counter equals the number
   * of trailing unhealthy ticks and the timer runs.
   */
  lemma {:induction false} RunEscalatesOnThirdFailure(ticks: seq<Counts>)
    ensures Run(ticks).0.active ==>
      Run(ticks).1 == [] && Run(ticks).0.counter == Trailing(ticks) < 3 && NoTriple(ticks)
    ensures !Run(ticks).0.active ==>
      exists k :: FirstTriple(ticks, k) && Run(ticks).1 == [ticks[k]]
  {
    if ticks != [] {
      var n := |ticks|;
      var p := ticks[..n - 1];
      RunEscalatesOnThirdFailure(p);
      PrefixTrailingAt(ticks, n - 1);
      var (s, events) := Run(p);
      var t := ticks[n - 1];
      assert TrailingAt(ticks, n - 1) == Trailing(ticks) by {
        assert ticks[..n] == ticks;
      }
      if !s.active {
        var k :| FirstTriple(p, k) && events == [p[k]];
        assert p[..k] == ticks[..k];
        assert FirstTriple(ticks, k);
      } else if !Run(ticks).0.active {
        assert FirstTriple(ticks, n - 1);
      }
    }
  }

  /** Over any run of ticks the escalation event is emitted at most once. */
  lemma AtMostOneEscalation(ticks: seq<Counts>)
    ensures |Run(ticks).1| <= 1
    ensures Run(ticks).1 == [] <==> NoTriple(ticks)
  {
    RunEscalatesOnThirdFailure(ticks);
    if !Run(ticks).0.active {
      var k :| FirstTriple(ticks, k) && Run(ticks).1 == [ticks[k]];
      assert TrailingAt(ticks, k) == 3;
    }
  }
}
