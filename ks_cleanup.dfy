// The cleanup registry shared by the three copies of the ks tool
// (ks/src/ks/helpers.py, ks/src/ks/helpers/__init__.py, ks/ks.py): a global
// list of (function, arguments) pairs that `register_cleanup` appends to and
// `run_cleanup` walks newest first, catching and logging whatever a task
// raises so that the remaining tasks still run. The list is never emptied,
// so every run replays every task registered so far.
//
// A task is named by its function and arguments; what a task does is outside
// the model, and whether its call raises is an input (`raises`, indexed by the
// number of cleanup calls made before it).

module KsCleanup {

  /** A registered cleanup: the function's name and the arguments it is called with. */
  datatype Task = Task(name: string, args: seq<string>)

  /** One call made by a cleanup run: which task, and whether it raised. */
  datatype Call = Call(task: Task, raised: bool)

  /** The order a cleanup run visits the registered tasks: last registered first. */
  function RunOrder(tasks: seq<Task>): (r: seq<Task>)
    decreases |tasks|
  {
    if tasks == [] then [] else [tasks[|tasks| - 1]] + RunOrder(tasks[..|tasks| - 1])
  }

  /** The run order is the registration order read backwards, position by position. */
  lemma {:induction false} RunOrderReverses(tasks: seq<Task>)
    ensures |RunOrder(tasks)| == |tasks|
    ensures forall i :: 0 <= i < |tasks| ==> RunOrder(tasks)[i] == tasks[|tasks| - 1 - i]
    decreases |tasks|
  {
    if tasks != [] {
      RunOrderReverses(tasks[..|tasks| - 1]);
    }
  }

  /** Tasks registered later run before every task registered earlier. */
  lemma {:induction false} LaterRunsFirst(earlier: seq<Task>, later: seq<Task>)
    ensures RunOrder(earlier + later) == RunOrder(later) + RunOrder(earlier)
    decreases |later|
  {
    if later == [] {
      assert earlier + later == earlier;
    } else {
      var n := |later| - 1;
      assert (earlier + later)[..|earlier + later| - 1] == earlier + later[..n];
      LaterRunsFirst(earlier, later[..n]);
    }
  }

  /** Every task of the run order is visited once and only once: the run is a permutation of the registrations. */
  lemma {:induction false} RunOrderPermutes(tasks: seq<Task>)
    ensures multiset(RunOrder(tasks)) == multiset(tasks)
    decreases |tasks|
  {
    if tasks != [] {
      var n := |tasks| - 1;
      RunOrderPermutes(tasks[..n]);
      assert tasks == tasks[..n] + [tasks[n]];
    }
  }

  /**
   * The calls made for `order` when cleanup calls numbered from `start` on
   * raise as `raises` says: one call per task, raising or not.
   */
  function Calls(order: seq<Task>, start: nat, raises: nat -> bool): (r: seq<Call>)
    ensures |r| == |order|
  {
    seq(|order|, k requires 0 <= k < |order| => Call(order[k], raises(start + k)))
  }

  /** The tasks a run called, whatever they raised. */
  function Called(calls: seq<Call>): (r: seq<Task>)
    ensures |r| == |calls|
  {
    seq(|calls|, k requires 0 <= k < |calls| => calls[k].task)
  }

  /** A raising task stops nothing: whatever raises, the run calls exactly the tasks of its order, in that order. */
  lemma FailuresIsolated(order: seq<Task>, start: nat, raises: nat -> bool)
    ensures Called(Calls(order, start, raises)) == order
  {
  }

  /** Calls made by two runs are the concatenation of the calls of each. */
  lemma CalledAppend(a: seq<Call>, b: seq<Call>)
    ensures Called(a + b) == Called(a) + Called(b)
  {
  }

  /** The global registry: `cleanup_tasks`, plus the record of every cleanup call made. */
  class Registry {
    /** The registered tasks, oldest first. */
    var tasks: seq<Task>
    /** Every cleanup call made so far, in the order made. */
    var calls: seq<Call>

    /** The module-level empty list, before anything is registered or run. */
    constructor()
      ensures tasks == [] && calls == []
    {
      tasks := [];
      calls := [];
    }

    /** `register_cleanup`: append `t`; nothing runs yet. */
    method Register(t: Task)
      modifies this
      ensures tasks == old(tasks) + [t]
      ensures calls == old(calls)
    {
      tasks := tasks + [t];
    }

    /**
     * `run_cleanup`: call every registered task, newest first, catching what
     * each raises. The list is left as it was, so a later run calls every
     * task again.
     */
    method RunCleanup(raises: nat -> bool)
      modifies this
      ensures tasks == old(tasks)
      ensures calls == old(calls) + Calls(RunOrder(tasks), |old(calls)|, raises)
    {
      ghost var order := RunOrder(tasks);
      RunOrderReverses(tasks);
      var start := |calls|;
      var i := |tasks|;
      while i > 0
        invariant tasks == old(tasks)
        invariant 0 <= i <= |tasks|
        invariant calls == old(calls) + Calls(order, start, raises)[..|tasks| - i]
        decreases i
      {
        i := i - 1;
        var raised := raises(|calls|);
        calls := calls + [Call(tasks[i], raised)];
        assert Calls(order, start, raises)[..|tasks| - i]
          == Calls(order, start, raises)[..|tasks| - i - 1] + [Call(tasks[i], raised)];
      }
      assert Calls(order, start, raises)[..|tasks|] == Calls(order, start, raises);
    }
  }

  /** Two runs over the same registrations call every task twice, newest first each time. */
  lemma RunTwiceReplays(tasks: seq<Task>, start: nat, raises: nat -> bool)
    ensures Called(Calls(RunOrder(tasks), start, raises) + Calls(RunOrder(tasks), start + |tasks|, raises))
         == RunOrder(tasks) + RunOrder(tasks)
  {
    var first := Calls(RunOrder(tasks), start, raises);
    var second := Calls(RunOrder(tasks), start + |tasks|, raises);
    FailuresIsolated(RunOrder(tasks), start, raises);
    FailuresIsolated(RunOrder(tasks), start + |tasks|, raises);
    CalledAppend(first, second);
  }
}
