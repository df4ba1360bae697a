/**
 * Named start/end time records. Every record object is shared between the
 * name map and the list; here the map holds the record's position in the
 * list, so ending a record through the map updates the list entry. The
 * clock (`Date.now()`), the process id and the process start time are
 * parameters.
 */
module Timing {
  import opened Wrappers

  /** A record: `end` and `duration` are unset until it is ended. */
  datatype Item = Item(name: string, start: int, end: Option<int>, duration: Option<int>, pid: int, index: nat)

  /** The name map (name to position of its record) and the list of records. */
  datatype Records = Records(positions: map<string, nat>, list: seq<Item>)

  /** Every record sits at its own `index`, and every mapped name points at a record of that name. */
  ghost predicate Consistent(r: Records) {
    && (forall i :: 0 <= i < |r.list| ==> r.list[i].index == i)
    && (forall n :: n in r.positions ==> r.positions[n] < |r.list| && r.list[r.positions[n]].name == n)
  }

  /** `start || Date.now()`: an absent or zero start time is replaced by now. */
  function StartTime(start: Option<int>, now: int): (t: int)
    ensures start.Some? && start.value != 0 ==> t == start.value
    ensures start.None? || start.value == 0 ==> t == now
  {
    if start.None? || start.value == 0 then now else start.value
  }

  /** The records after `end(name)` at time `now`: the mapped record gets its end and duration. */
  function EndRecord(r: Records, name: string, now: int): Records
    requires name in r.positions && r.positions[name] < |r.list|
  {
    var at := r.positions[name];
    var item := r.list[at];
    Records(r.positions, r.list[at := item.(end := Some(now), duration := Some(now - item.start))])
  }

  /** The records after a new record for `name` is created: appended, and the name mapped to it. */
  function StartRecord(r: Records, name: string, start: int, pid: int): Records {
    Records(r.positions[name := |r.list|], r.list + [Item(name, start, None, None, pid, |r.list|)])
  }

  /** `start` keeps the records consistent and makes `name` point at the new last record. */
  lemma StartKeepsConsistent(r: Records, name: string, start: int, pid: int)
    requires Consistent(r)
    ensures var r' := StartRecord(r, name, start, pid);
      && Consistent(r')
      && |r'.list| == |r.list| + 1
      && r'.list[..|r.list|] == r.list
      && r'.positions[name] == |r.list|
      && r'.list[|r.list|] == Item(name, start, None, None, pid, |r.list|)
  {
    var r' := StartRecord(r, name, start, pid);
    assert r'.list[..|r.list|] == r.list;
    forall n | n in r'.positions ensures r'.positions[n] < |r'.list| && r'.list[r'.positions[n]].name == n {
      if n != name {
        assert r'.list[r.positions[n]] == r.list[r.positions[n]];
      }
    }
  }

  /**
   * `end` keeps the records consistent, changes only the mapped record,
   * and gives it the end time and `end - start` as duration.
   */
  lemma EndKeepsConsistent(r: Records, name: string, now: int)
    requires Consistent(r) && name in r.positions
    ensures var r' := EndRecord(r, name, now);
      var at := r.positions[name];
      && Consistent(r')
      && r'.positions == r.positions
      && |r'.list| == |r.list|
      && (forall i :: 0 <= i < |r.list| && i != at ==> r'.list[i] == r.list[i])
      && r'.list[at].end == Some(now)
      && r'.list[at].duration == Some(now - r.list[at].start)
      && r'.list[at].name == name && r'.list[at].start == r.list[at].start
  {
  }

  /**
   * Restarting a name that is already mapped ends its old record, which
   * stays in the list at its place, and appends a fresh one that the name
   * now points at.
   */
  lemma RestartKeepsOldRecord(r: Records, name: string, start: int, now: int, pid: int)
    requires Consistent(r) && name in r.positions
    ensures var old_at := r.positions[name];
      var r' := StartRecord(EndRecord(r, name, now), name, start, pid);
      && Consistent(r')
      && |r'.list| == |r.list| + 1
      && r'.list[old_at].name == name && r'.list[old_at].end == Some(now)
      && r'.positions[name] == |r.list| && r'.list[|r.list|].end == None
  {
    EndKeepsConsistent(r, name, now);
    StartKeepsConsistent(EndRecord(r, name, now), name, start, pid);
  }

  class Timing {
    var enabled: bool
    /** `this[MAP]`, with record positions in place of the shared record objects. */
    var positions: map<string, nat>
    /** `this[LIST]`. */
    var list: seq<Item>

    ghost function Current(): Records
      reads this`positions, this`list
    {
      Records(positions, list)
    }

    ghost predicate Valid()
      reads this`positions, this`list
    {
      Consistent(Current())
    }

    /**
     * A fresh timing is enabled and holds the ended 'Process Start' record
     * (at `now - uptimeMs`), followed by an ended 'Script Start' record
     * when a non-zero script start time is known.
     */
    constructor (now: int, uptimeMs: nat, scriptStartTime: Option<int>, pid: int)
      ensures Valid() && enabled
      ensures |list| == (if scriptStartTime.Some? && scriptStartTime.value != 0 then 2 else 1)
      ensures list[0].name == "Process Start" && list[0].start == StartTime(Some(now - uptimeMs), now)
      ensures list[0].end == Some(now) && list[0].index == 0
      ensures scriptStartTime.Some? && scriptStartTime.value != 0 ==>
        list[1].name == "Script Start" && list[1].start == scriptStartTime.value && list[1].end == Some(now)
    {
      enabled := true;
      positions := map[];
      list := [];
      new;
      var _ := Start("Process Start", Some(now - uptimeMs), now, pid);
      var _ := End("Process Start", now);
      if scriptStartTime.Some? && scriptStartTime.value != 0 {
        var _ := Start("Script Start", scriptStartTime, now, pid);
        var _ := End("Script Start", now);
      }
    }

    /**
     * `start(name, start)`: nothing happens for an empty name or while
     * disabled; otherwise a mapped name is ended first, and a new record
     * is appended and mapped.
     */
    method Start(name: string, start: Option<int>, now: int, pid: int) returns (r: Option<Item>)
      requires Valid()
      modifies this`positions, this`list
      ensures Valid()
      ensures name == "" || !enabled ==> r == None && Current() == old(Current())
      ensures name != "" && enabled ==>
        var ended := if name in old(positions) then EndRecord(old(Current()), name, now) else old(Current());
        && Current() == StartRecord(ended, name, StartTime(start, now), pid)
        && r == Some(Item(name, StartTime(start, now), None, None, pid, |old(list)|))
    {
      if name == "" || !enabled {
        return None;
      }
      if name in positions {
        var _ := End(name, now);
      }
      var item := Item(name, StartTime(start, now), None, None, pid, |list|);
      StartKeepsConsistent(Current(), name, item.start, pid);
      positions := positions[name := |list|];
      list := list + [item];
      r := Some(item);
    }

    /**
     * `end(name)`: nothing happens (Success(None)) for an empty name or
     * while disabled; an unmapped name fails the assertion; otherwise the
     * mapped record is ended at `now` and returned.
     */
    method End(name: string, now: int) returns (r: Result<Option<Item>>)
      requires Valid()
      modifies this`list
      ensures Valid()
      ensures name == "" || !enabled ==> r == Success(None) && list == old(list)
      ensures name != "" && enabled && name !in positions ==>
        r == Failure("Timing " + name + " not exists") && list == old(list)
      ensures name != "" && enabled && name in positions ==>
        && Current() == EndRecord(old(Current()), name, now)
        && r == Success(Some(list[positions[name]]))
    {
      if name == "" || !enabled {
        return Success(None);
      }
      if name !in positions {
        return Failure("Timing " + name + " not exists");
      }
      EndKeepsConsistent(Current(), name, now);
      var at := positions[name];
      var item := list[at].(end := Some(now), duration := Some(now - list[at].start));
      list := list[at := item];
      r := Success(Some(item));
    }

    method Enable()
      modifies this`enabled
      ensures enabled
    {
      enabled := true;
    }

    method Disable()
      modifies this`enabled
      ensures !enabled
    {
      enabled := false;
    }

    /** Empties the name map and the list; the flag is kept. */
    method Clear()
      modifies this`positions, this`list
      ensures Valid()
      ensures positions == map[] && list == []
    {
      positions := map[];
      list := [];
    }

    /** `toJSON()`: the list of records, each at its own index. */
    function ToJson(): (records: seq<Item>)
      reads this`positions, this`list
      requires Valid()
      ensures forall i :: 0 <= i < |records| ==> records[i].index == i
      ensures forall n :: n in positions ==> positions[n] < |records| && records[positions[n]].name == n
    {
      list
    }
  }
}
