/**
 * Dependency ordering of named tasks. `Sequence` walks the given names
 * depth first, marking the names reached through ordinary dependencies as
 * required, recording names that are missing and paths that close a
 * cycle, and appending every name it finishes to the sequence. The wrapper
 * empties the sequence when anything was missing or cyclic and keeps only
 * the required names.
 */
module Sequencify {
  import opened OrderedMaps

  datatype Task = Task(dependencies: seq<string>, optionalDependencies: seq<string>)

  datatype SequenceResult = SequenceResult(
    sequence: seq<string>,
    missingTasks: seq<string>,
    recursiveDependencies: seq<seq<string>>)

  /** `s.filter(item => keep[item])`, order kept. */
  function Filter(s: seq<string>, keep: set<string>): (r: seq<string>)
    ensures |r| <= |s|
  {
    if s == [] then []
    else Filter(s[..|s| - 1], keep) + (if s[|s| - 1] in keep then [s[|s| - 1]] else [])
  }

  lemma {:induction false} FilterMembers(s: seq<string>, keep: set<string>, x: string)
    ensures x in Filter(s, keep) <==> x in s && x in keep
  {
    if s != [] {
      FilterMembers(s[..|s| - 1], keep, x);
      assert s == s[..|s| - 1] + [s[|s| - 1]];
    }
  }

  lemma {:induction false} FilterDistinct(s: seq<string>, keep: set<string>)
    requires Distinct(s)
    ensures Distinct(Filter(s, keep))
  {
    if s != [] {
      var init := s[..|s| - 1];
      assert Distinct(init);
      FilterDistinct(init, keep);
      FilterMembers(init, keep, s[|s| - 1]);
    }
  }

  /** Filtering a longer sequence extends the filtered prefix. */
  lemma {:induction false} FilterPrefix(s: seq<string>, keep: set<string>, j: nat)
    requires j <= |s|
    ensures Filter(s[..j], keep) <= Filter(s, keep)
    decreases |s| - j
  {
    if j < |s| {
      FilterPrefix(s, keep, j + 1);
      assert s[..j + 1][..j] == s[..j];
    } else {
      assert s[..j] == s;
    }
  }

  /**
   * In a filtered sequence without repetitions, a kept element `s[j]`
   * stands exactly after the filtered elements before it.
   */
  lemma FilterPosition(s: seq<string>, keep: set<string>, i: nat, j: nat)
    requires Distinct(s) && j < |s| && s[j] in keep
    requires i < |Filter(s, keep)| && Filter(s, keep)[i] == s[j]
    ensures Filter(s, keep)[..i] == Filter(s[..j], keep)
  {
    var r := Filter(s, keep);
    var before := Filter(s[..j], keep);
    FilterPrefix(s, keep, j + 1);
    assert s[..j + 1][..j] == s[..j];
    assert Filter(s[..j + 1], keep) == before + [s[j]];
    FilterDistinct(s, keep);
    assert r[|before|] == s[j];
  }

  function Min(a: int, b: int): int {
    if a < b then a else b
  }

  /**
   * The state of one walk: the names marked required, the sequence so far,
   * the missing names, the recorded cycles, the current path and how many
   * names at the bottom of the path are visited as required.
   */
  datatype Walk = Walk(
    required: set<string>,
    sequence: seq<string>,
    missing: seq<string>,
    recursive: seq<seq<string>>,
    nest: seq<string>,
    depth: nat)

  /** Something is missing or cyclic: the final sequence will be empty. */
  predicate Failed(w: Walk) {
    |w.missing| > 0 || |w.recursive| > 0
  }

  /** The path has no repetitions, names only tasks, and the required part is a prefix. */
  ghost predicate NestOk(tasks: map<string, Task>, w: Walk) {
    Distinct(w.nest) && (forall x :: x in w.nest ==> x in tasks) && w.depth <= |w.nest|
  }

  /** Every finished task comes after its existing dependencies, unless the run failed. */
  ghost predicate Ordered(tasks: map<string, Task>, w: Walk) {
    forall i, d :: 0 <= i < |w.sequence| && w.sequence[i] in tasks && d in tasks[w.sequence[i]].dependencies ==>
      Failed(w) || d !in tasks || d in w.sequence[..i]
  }

  /** A required task's dependencies are required, unless the run failed. */
  ghost predicate RequiredClosed(tasks: map<string, Task>, w: Walk) {
    forall t, d :: t in w.required && t in tasks && d in tasks[t].dependencies ==> Failed(w) || d in w.required
  }

  /**
   * A required name was a root, or an ordinary dependency of a task that
   * is required, is `pending` (about to be marked), or is on the required
   * part of the path.
   */
  ghost predicate Supported(tasks: map<string, Task>, roots: seq<string>, w: Walk, x: string, pending: set<string>) {
    x in roots ||
    exists p :: p in tasks && x in tasks[p].dependencies &&
      (p in w.required || p in pending || p in w.nest[..Min(w.depth, |w.nest|)])
  }

  /** The invariant of the walk, with `pending` tasks counted as required for support. */
  ghost predicate Inv(tasks: map<string, Task>, roots: seq<string>, w: Walk, pending: set<string>) {
    && NestOk(tasks, w)
    && Distinct(w.sequence)
    && (forall x :: x in w.required ==> x in w.sequence)
    && (forall x :: x in w.required ==> x in tasks || x in w.missing)
    && (forall x :: x in w.missing ==> x !in tasks)
    && (forall c :: c in w.recursive ==> |c| >= 2 && c[|c| - 1] in c[..|c| - 1])
    && Ordered(tasks, w)
    && RequiredClosed(tasks, w)
    && (forall x :: x in w.required ==> Supported(tasks, roots, w, x, pending))
  }

  /** `x` may be marked required on this path: a root, or an ordinary dependency of the top of the path. */
  ghost predicate MayRequire(tasks: map<string, Task>, roots: seq<string>, nest: seq<string>, x: string) {
    x in roots || (|nest| > 0 && nest[|nest| - 1] in tasks && x in tasks[nest[|nest| - 1]].dependencies)
  }

  /** Counting more tasks as pending only weakens the support condition. */
  lemma MorePending(tasks: map<string, Task>, roots: seq<string>, w: Walk, pending: set<string>)
    requires Inv(tasks, roots, w, {})
    ensures Inv(tasks, roots, w, pending)
  {
    forall x | x in w.required ensures Supported(tasks, roots, w, x, pending) {
      assert Supported(tasks, roots, w, x, {});
    }
  }

  /** Pushing a task that is not on the path keeps the invariant. */
  lemma PushKeeps(tasks: map<string, Task>, roots: seq<string>, w: Walk, name: string, optional: bool)
    requires Inv(tasks, roots, w, {})
    requires name in tasks && name !in w.nest
    requires !optional ==> w.depth == |w.nest|
    ensures Inv(tasks, roots, w.(nest := w.nest + [name], depth := if optional then w.depth else |w.nest| + 1), {})
  {
    var w' := w.(nest := w.nest + [name], depth := if optional then w.depth else |w.nest| + 1);
    assert w.nest[..w.depth] <= w'.nest[..Min(w'.depth, |w'.nest|)];
    forall x | x in w.required ensures Supported(tasks, roots, w', x, {}) {
      assert Supported(tasks, roots, w, x, {});
    }
  }

  /**
   * Popping the task on top of the path keeps the invariant once that task
   * counts as pending, which it does when it was visited as required.
   */
  lemma PopKeeps(tasks: map<string, Task>, roots: seq<string>, w: Walk, base: seq<string>, name: string,
                 optional: bool, depth: nat)
    requires Inv(tasks, roots, w, {})
    requires w.nest == base + [name] && depth <= |base|
    requires w.depth == if optional then depth else |w.nest|
    requires !optional ==> depth == |base|
    ensures Inv(tasks, roots, w.(nest := base, depth := depth), if optional then {} else {name})
  {
    var w' := w.(nest := base, depth := depth);
    var pending := if optional then {} else {name};
    assert optional ==> w.nest[..Min(w.depth, |w.nest|)] == base[..depth];
    assert w.nest[..Min(w.depth, |w.nest|)] <= base + [name];
    assert NestOk(tasks, w') by {
      assert base == w.nest[..|base|];
    }
    forall x | x in w.required && x !in roots ensures Supported(tasks, roots, w', x, pending) {
      assert Supported(tasks, roots, w, x, {});
      var p :| p in tasks && x in tasks[p].dependencies && (p in w.required || p in w.nest[..Min(w.depth, |w.nest|)]);
      if p !in w.required && p != name {
        assert p in base;
        assert p in base[..depth];
      }
    }
  }

  /** Recording a missing name keeps the invariant. */
  lemma MissingKeeps(tasks: map<string, Task>, roots: seq<string>, w: Walk, name: string)
    requires Inv(tasks, roots, w, {}) && name !in tasks
    ensures Inv(tasks, roots, w.(missing := w.missing + [name]), {})
  {
    var w' := w.(missing := w.missing + [name]);
    forall x | x in w.required ensures Supported(tasks, roots, w', x, {}) {
      assert Supported(tasks, roots, w, x, {});
    }
  }

  /** Recording the path closed by a name already on it keeps the invariant. */
  lemma CycleKeeps(tasks: map<string, Task>, roots: seq<string>, w: Walk, name: string)
    requires Inv(tasks, roots, w, {}) && name in w.nest
    ensures Inv(tasks, roots, w.(recursive := w.recursive + [w.nest + [name]]), {})
  {
    var c := w.nest + [name];
    assert c[|c| - 1] in c[..|c| - 1] by {
      assert c[..|c| - 1] == w.nest;
    }
    var w' := w.(recursive := w.recursive + [c]);
    forall x | x in w.required ensures Supported(tasks, roots, w', x, {}) {
      assert Supported(tasks, roots, w, x, {});
    }
  }

  /** The walk only grew from `a` to `b`: the lists are extended, the required set enlarged. */
  ghost predicate Grew(a: Walk, b: Walk) {
    a.sequence <= b.sequence && a.missing <= b.missing && a.recursive <= b.recursive && a.required <= b.required
  }

  lemma GrewTrans(a: Walk, b: Walk, c: Walk)
    requires Grew(a, b) && Grew(b, c)
    ensures Grew(a, c)
  {
  }

  /** Each of `names` is finished (in the sequence), missing, or the run failed. */
  ghost predicate Finished(tasks: map<string, Task>, w: Walk, names: seq<string>) {
    forall n :: n in names ==> Failed(w) || n !in tasks || n in w.sequence
  }

  /** What was finished stays finished as the walk grows. */
  lemma FinishedGrows(tasks: map<string, Task>, a: Walk, b: Walk, names: seq<string>)
    requires Finished(tasks, a, names) && Grew(a, b)
    ensures Finished(tasks, b, names)
  {
    forall n | n in names && !Failed(b) && n in tasks ensures n in b.sequence {
      assert |a.missing| <= |b.missing| && |a.recursive| <= |b.recursive|;
      assert n in a.sequence;
      var i :| 0 <= i < |a.sequence| && a.sequence[i] == n;
      assert b.sequence[i] == n;
    }
  }

  /** Appending a name whose dependencies are finished keeps the invariant. */
  lemma AppendKeeps(tasks: map<string, Task>, roots: seq<string>, w: Walk, name: string, pending: set<string>)
    requires Inv(tasks, roots, w, pending) && name !in w.sequence
    requires name in tasks ==> Finished(tasks, w, tasks[name].dependencies)
    ensures Inv(tasks, roots, w.(sequence := w.sequence + [name]), pending)
  {
    var w' := w.(sequence := w.sequence + [name]);
    forall i, d | 0 <= i < |w'.sequence| && w'.sequence[i] in tasks && d in tasks[w'.sequence[i]].dependencies
      ensures Failed(w') || d !in tasks || d in w'.sequence[..i]
    {
      if i < |w.sequence| {
        assert w'.sequence[..i] == w.sequence[..i];
      } else {
        assert w'.sequence[..i] == w.sequence;
      }
    }
    forall x | x in w.required ensures Supported(tasks, roots, w', x, pending) {
      assert Supported(tasks, roots, w, x, pending);
    }
  }

  /**
   * Marking a finished name required keeps the invariant once it no longer
   * needs to count as pending, provided it may be required here and its
   * dependencies are required unless the run failed.
   */
  lemma MarkKeeps(tasks: map<string, Task>, roots: seq<string>, w: Walk, name: string)
    requires Inv(tasks, roots, w, {name}) && name in w.sequence
    requires name in tasks || name in w.missing
    requires MayRequire(tasks, roots, w.nest, name) && w.depth == |w.nest|
    requires name in tasks && !Failed(w) ==> forall d :: d in tasks[name].dependencies ==> d in w.required
    ensures Inv(tasks, roots, w.(required := w.required + {name}), {})
  {
    var w' := w.(required := w.required + {name});
    forall x | x in w'.required && x !in roots ensures Supported(tasks, roots, w', x, {}) {
      if x == name {
        var top := w.nest[|w.nest| - 1];
        assert w.nest[..Min(w.depth, |w.nest|)] == w.nest;
        assert top in w.nest;
      } else {
        assert Supported(tasks, roots, w, x, {name});
      }
    }
  }

  /** The walk after the end of a visit: `name` marked required unless optional, and appended once. */
  function Finish(w: Walk, name: string, optional: bool): Walk {
    w.(required := if optional then w.required else w.required + {name},
       sequence := if name in w.sequence then w.sequence else w.sequence + [name])
  }

  /**
   * Ending a visit keeps the invariant, provided the name's dependencies
   * were finished (and, when required, marked) unless the run failed.
   */
  lemma FinishKeeps(tasks: map<string, Task>, roots: seq<string>, w: Walk, name: string, optional: bool)
    requires Inv(tasks, roots, w, if optional then {} else {name})
    requires !optional ==> MayRequire(tasks, roots, w.nest, name) && w.depth == |w.nest|
    requires !optional ==> name in tasks || name in w.missing
    requires name in tasks ==> Finished(tasks, w, tasks[name].dependencies)
    requires name in tasks && !Failed(w) && !optional ==>
      forall d :: d in tasks[name].dependencies ==> d in w.required
    ensures Inv(tasks, roots, Finish(w, name, optional), {})
  {
    var appended := if name in w.sequence then w else w.(sequence := w.sequence + [name]);
    if name !in w.sequence {
      AppendKeeps(tasks, roots, w, name, if optional then {} else {name});
    }
    if !optional {
      MarkKeeps(tasks, roots, appended, name);
      assert Finish(w, name, optional) == appended.(required := w.required + {name});
    }
  }

  /**
   * `sequence(tasks, names, results, missing, recursive, nest, optional)`:
   * the recursive walk, with `results.requires`, `results.sequence`,
   * `missing`, `recursive` and `nest` as the fields it updates in place.
   */
  class Sequencer {
    const tasks: map<string, Task>
    /** The names the whole run started from. */
    ghost const roots: seq<string>
    /** `results.requires`, as the set of names marked true. */
    var required: set<string>
    /** `results.sequence`. */
    var sequence: seq<string>
    var missing: seq<string>
    var recursive: seq<seq<string>>
    /** The names on the current path of the walk. */
    var nest: seq<string>
    /** How many names at the bottom of `nest` are visited as required. */
    ghost var requiredDepth: nat

    ghost function State(): Walk
      reads this`required, this`sequence, this`missing, this`recursive, this`nest, this`requiredDepth
    {
      Walk(required, sequence, missing, recursive, nest, requiredDepth)
    }

    ghost predicate Valid()
      reads this`required, this`sequence, this`missing, this`recursive, this`nest, this`requiredDepth
    {
      Inv(tasks, roots, State(), {})
    }

    /**
     * Visits the names in order. Every name ends up finished (in the
     * sequence) unless it is missing or the run failed; in a required walk
     * every name ends up required.
     */
    method Sequence(names: seq<string>, optional: bool)
      requires Valid()
      requires !optional ==> requiredDepth == |nest| && forall n :: n in names ==> MayRequire(tasks, roots, nest, n)
      modifies this`required, this`sequence, this`missing, this`recursive, this`nest, this`requiredDepth
      decreases tasks.Keys - (set x | x in nest), 2
      ensures Valid()
      ensures nest == old(nest) && requiredDepth == old(requiredDepth)
      ensures Grew(old(State()), State())
      ensures optional ==> required == old(required)
      ensures Finished(tasks, State(), names)
      ensures !optional ==> forall n :: n in names ==> n in required
    {
      var i := 0;
      while i < |names|
        invariant 0 <= i <= |names|
        invariant Valid()
        invariant nest == old(nest) && requiredDepth == old(requiredDepth)
        invariant Grew(old(State()), State())
        invariant optional ==> required == old(required)
        invariant Finished(tasks, State(), names[..i])
        invariant !optional ==> forall n :: n in names[..i] ==> n in required
      {
        ghost var before := State();
        Visit(names[i], optional);
        GrewTrans(old(State()), before, State());
        FinishedGrows(tasks, before, State(), names[..i]);
        assert names[..i + 1] == names[..i] + [names[i]];
        i := i + 1;
      }
      assert names[..i] == names;
    }

    /**
     * The body of the `forEach` for one name: skip a required name; a
     * missing name is skipped when optional and reported otherwise; a name
     * already on the path records the path closed by it; otherwise the
     * dependencies, then the optional dependencies, are walked with the
     * name on the path. Then the name is marked required (unless optional)
     * and appended to the sequence if it is not there yet.
     */
    method Visit(name: string, optional: bool)
      requires Valid()
      requires !optional ==> requiredDepth == |nest| && MayRequire(tasks, roots, nest, name)
      modifies this`required, this`sequence, this`missing, this`recursive, this`nest, this`requiredDepth
      decreases tasks.Keys - (set x | x in nest), 1
      ensures Valid()
      ensures nest == old(nest) && requiredDepth == old(requiredDepth)
      ensures Grew(old(State()), State())
      ensures optional ==> required == old(required)
      ensures Failed(State()) || name !in tasks || name in sequence
      ensures !optional ==> name in required
      ensures name in old(required) ==> State() == old(State())
      ensures name !in old(required) && name !in tasks && optional ==> State() == old(State())
      ensures name !in old(required) && name !in tasks && !optional ==>
        State() == Finish(old(State()).(missing := old(missing) + [name]), name, false)
      ensures name !in old(required) && name in tasks && name in old(nest) ==>
        State() == Finish(old(State()).(recursive := old(recursive) + [old(nest) + [name]]), name, optional)
      ensures name !in old(required) && name in tasks && name !in old(nest) &&
              tasks[name].dependencies == [] && tasks[name].optionalDependencies == [] ==>
        State() == Finish(old(State()), name, optional)
    {
      if name in required {
        return;
      }
      if name !in tasks {
        if optional {
          return;
        }
        ReportMissing(name);
        MorePending(tasks, roots, State(), {name});
      } else if name in nest {
        RecordCycle(name);
        MorePending(tasks, roots, State(), if optional then {} else {name});
      } else if |tasks[name].dependencies| > 0 || |tasks[name].optionalDependencies| > 0 {
        Descend(name, optional);
      } else {
        MorePending(tasks, roots, State(), if optional then {} else {name});
      }
      ghost var before := State();
      Complete(name, optional);
      GrewTrans(old(State()), before, State());
    }

    /** `missing.push(name)`. */
    method ReportMissing(name: string)
      requires Valid() && name !in tasks
      modifies this`missing
      ensures Valid()
      ensures missing == old(missing) + [name]
    {
      MissingKeeps(tasks, roots, State(), name);
      missing := missing + [name];
    }

    /** Records the path closed by a name already on it: push, copy into `recursive`, pop. */
    method RecordCycle(name: string)
      requires Valid() && name in nest
      modifies this`nest, this`recursive
      ensures Valid()
      ensures nest == old(nest)
      ensures recursive == old(recursive) + [old(nest) + [name]]
    {
      CycleKeeps(tasks, roots, State(), name);
      nest := nest + [name];
      recursive := recursive + [nest];
      nest := nest[..|nest| - 1];
    }

    /** The end of the `forEach` body: mark the name required unless optional, append it once. */
    method Complete(name: string, optional: bool)
      requires Inv(tasks, roots, State(), if optional then {} else {name})
      requires !optional ==> MayRequire(tasks, roots, nest, name) && requiredDepth == |nest|
      requires !optional ==> name in tasks || name in missing
      requires name in tasks ==> Finished(tasks, State(), tasks[name].dependencies)
      requires name in tasks && !Failed(State()) && !optional ==>
        forall d :: d in tasks[name].dependencies ==> d in required
      modifies this`required, this`sequence
      ensures Valid()
      ensures State() == Finish(old(State()), name, optional)
      ensures Grew(old(State()), State())
    {
      FinishKeeps(tasks, roots, State(), name, optional);
      if !optional {
        required := required + {name};
      }
      if name !in sequence {
        sequence := sequence + [name];
      }
    }

    /**
     * The branch for a task with dependencies: put it on the path (as a
     * required step unless optional), walk its dependencies with the same
     * optionality and its optional dependencies as optional, and take it
     * off the path again.
     */
    method Descend(name: string, optional: bool)
      requires Valid()
      requires name in tasks && name !in nest && name !in required
      requires !optional ==> requiredDepth == |nest| && MayRequire(tasks, roots, nest, name)
      modifies this`required, this`sequence, this`missing, this`recursive, this`nest, this`requiredDepth
      decreases tasks.Keys - (set x | x in nest), 0
      ensures Inv(tasks, roots, State(), if optional then {} else {name})
      ensures nest == old(nest) && requiredDepth == old(requiredDepth)
      ensures Grew(old(State()), State())
      ensures optional ==> required == old(required)
      ensures Finished(tasks, State(), tasks[name].dependencies)
      ensures !optional ==> forall d :: d in tasks[name].dependencies ==> d in required
    {
      var node := tasks[name];
      Push(name, optional);
      assert (set x | x in nest) == (set x | x in old(nest)) + {name};
      ghost var pushed := State();
      if |node.dependencies| > 0 {
        Sequence(node.dependencies, optional);
      }
      ghost var afterDeps := State();
      assert Finished(tasks, afterDeps, node.dependencies);
      if |node.optionalDependencies| > 0 {
        Sequence(node.optionalDependencies, true);
      }
      ghost var afterOptional := State();
      GrewTrans(pushed, afterDeps, afterOptional);
      FinishedGrows(tasks, afterDeps, afterOptional, node.dependencies);
      Pop(old(nest), name, optional, old(requiredDepth));
    }

    /** `nest.push(name)`; a required visit extends the required part of the path. */
    method Push(name: string, optional: bool)
      requires Valid()
      requires name in tasks && name !in nest
      requires !optional ==> requiredDepth == |nest|
      modifies this`nest, this`requiredDepth
      ensures Valid()
      ensures nest == old(nest) + [name]
      ensures requiredDepth == if optional then old(requiredDepth) else |nest|
    {
      PushKeeps(tasks, roots, State(), name, optional);
      nest := nest + [name];
      if !optional {
        requiredDepth := |nest|;
      }
    }

    /** `nest.pop()`, back to the path `base` and its required part `depth`. */
    method Pop(ghost base: seq<string>, name: string, optional: bool, ghost depth: nat)
      requires Valid()
      requires nest == base + [name] && depth <= |base|
      requires requiredDepth == if optional then depth else |nest|
      requires !optional ==> depth == |base|
      modifies this`nest, this`requiredDepth
      ensures Inv(tasks, roots, State(), if optional then {} else {name})
      ensures nest == base && requiredDepth == depth
    {
      PopKeeps(tasks, roots, State(), base, name, optional, depth);
      nest := nest[..|nest| - 1];
      requiredDepth := depth;
    }

    constructor (tasks: map<string, Task>, roots: seq<string>)
      ensures Valid()
      ensures this.tasks == tasks && this.roots == roots
      ensures required == {} && sequence == [] && missing == [] && recursive == [] && nest == []
      ensures requiredDepth == 0
    {
      this.tasks := tasks;
      this.roots := roots;
      required := {};
      sequence := [];
      missing := [];
      recursive := [];
      nest := [];
      requiredDepth := 0;
    }
  }

  /** The result the wrapper builds from a finished walk. */
  function Outcome(w: Walk): SequenceResult {
    SequenceResult(Filter(if Failed(w) then [] else w.sequence, w.required), w.missing, w.recursive)
  }

  /**
   * In a finished walk without failures every task of the result is known,
   * comes after all its dependencies, and was reached from a given name
   * through ordinary dependencies of tasks in the result.
   */
  lemma OutcomeOrdered(tasks: map<string, Task>, names: seq<string>, w: Walk)
    requires Inv(tasks, names, w, {}) && w.nest == [] && !Failed(w)
    ensures var r := Outcome(w).sequence;
      && (forall x :: x in r ==> x in tasks)
      && (forall i, d :: 0 <= i < |r| && d in tasks[r[i]].dependencies ==> d in r[..i])
  {
    var r := Outcome(w).sequence;
    forall x | x in r ensures x in tasks {
      FilterMembers(w.sequence, w.required, x);
    }
    forall i, d | 0 <= i < |r| && d in tasks[r[i]].dependencies ensures d in r[..i] {
      FilterMembers(w.sequence, w.required, r[i]);
      var j :| 0 <= j < |w.sequence| && w.sequence[j] == r[i];
      assert d in w.required;
      assert d in w.sequence[..j];
      FilterPosition(w.sequence, w.required, i, j);
      FilterMembers(w.sequence[..j], w.required, d);
    }
  }

  lemma OutcomeSupported(tasks: map<string, Task>, names: seq<string>, w: Walk)
    requires Inv(tasks, names, w, {}) && w.nest == [] && !Failed(w)
    ensures var r := Outcome(w).sequence;
      forall x :: x in r ==> x in names || exists p :: p in r && p in tasks && x in tasks[p].dependencies
  {
    var r := Outcome(w).sequence;
    forall x | x in r && x !in names ensures exists p :: p in r && p in tasks && x in tasks[p].dependencies {
      FilterMembers(w.sequence, w.required, x);
      assert Supported(tasks, names, w, x, {});
      var p :| p in tasks && x in tasks[p].dependencies && p in w.required;
      FilterMembers(w.sequence, w.required, p);
    }
  }

  /**
   * `sequencify(tasks, names)`: walks the names as required, empties the
   * sequence when a task is missing or a cycle was found, and keeps the
   * required names of the sequence.
   */
  method Sequencify(tasks: map<string, Task>, names: seq<string>) returns (result: SequenceResult)
    ensures |result.missingTasks| > 0 || |result.recursiveDependencies| > 0 ==> result.sequence == []
    ensures Distinct(result.sequence)
    ensures forall n :: n in names && n !in tasks ==> n in result.missingTasks
    ensures forall m :: m in result.missingTasks ==> m !in tasks
    ensures forall c :: c in result.recursiveDependencies ==> |c| >= 2 && c[|c| - 1] in c[..|c| - 1]
    ensures |result.missingTasks| == 0 && |result.recursiveDependencies| == 0 ==>
      forall n :: n in names ==> n in result.sequence
    ensures forall x :: x in result.sequence ==> x in tasks
    ensures forall i, d :: 0 <= i < |result.sequence| && d in tasks[result.sequence[i]].dependencies ==>
      d in result.sequence[..i]
    ensures forall x :: x in result.sequence ==>
      x in names || exists p :: p in result.sequence && p in tasks && x in tasks[p].dependencies
  {
    var walker := new Sequencer(tasks, names);
    walker.Sequence(names, false);
    var sequence := walker.sequence;
    if |walker.missing| > 0 || |walker.recursive| > 0 {
      sequence := [];
    }
    result := SequenceResult(Filter(sequence, walker.required), walker.missing, walker.recursive);
    ghost var w := walker.State();
    assert result == Outcome(w);
    FilterDistinct(sequence, walker.required);
    if !Failed(w) {
      OutcomeOrdered(tasks, names, w);
      OutcomeSupported(tasks, names, w);
      forall n | n in names ensures n in result.sequence {
        FilterMembers(sequence, walker.required, n);
      }
    }
  }
}
