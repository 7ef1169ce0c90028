/**
 * The `reactor` module singleton of reactor.js: the earlier, smaller variant
 * of the scheduler. Its closure variables `isLocked` and `queue` become the
 * fields of `class Reactor`; `run`, `setImmediate` and `done` its methods.
 * A queue entry is the whole `arguments` list of a `setImmediate` call,
 * `[fn, thisArg, arg1, …]`; `run` hands `fn.apply(thisArg, [arg1, …])` to the
 * timer queue.
 *
 * As in `EventLoop`, `State` and the `After…` functions specify the methods,
 * and the lemmas prove the scheduling discipline about them.
 */
module SingletonReactor {
  import opened JsValues

  /** JavaScript array indexing: past the end it yields `undefined`. */
  function At(entry: seq<JsValue>, k: nat): JsValue
  {
    if k < |entry| then entry[k] else Undefined
  }

  /** The call `run` schedules for an entry:
      `event[0].apply(event[1], event.slice(2))`. It undoes the packing of
      `setImmediate(fn, thisArg, …args)` into its `arguments` list. */
  function ToCall(entry: seq<JsValue>): (c: Call)
    ensures entry != [] ==> c.fn == entry[0]
    ensures |entry| >= 2 ==> [c.fn, c.thisArg] + c.args == entry
    ensures |entry| <= 1 ==> c.thisArg == Undefined && c.args == []
  {
    Call(At(entry, 0), At(entry, 1), if |entry| >= 2 then entry[2..] else [])
  }

  /** A snapshot of the singleton. `isLocked` and `queue` are the closure's
      variables (`isLocked` starts `undefined`, which tests as false). The
      rest is a log no code reads: every entry pushed, every entry shifted
      and dispatched, the calls scheduled for them, and the number of `done`
      calls. */
  datatype State = State(
    isLocked: bool,
    queue: seq<seq<JsValue>>,
    submitted: seq<seq<JsValue>>,
    dispatched: seq<seq<JsValue>>,
    scheduled: seq<Call>,
    dones: nat)

  function Init(): State
  {
    State(false, [], [], [], [], 0)
  }

  /** Everything that holds of the singleton, except that an unlocked reactor
      has an empty queue: that part is restored by `run`. */
  ghost predicate ReadyToRun(s: State)
  {
    // every pushed entry is dispatched or queued, in push order
    && s.dispatched + s.queue == s.submitted
    // only entries with a truthy function are pushed
    && (forall i :: 0 <= i < |s.submitted| ==> Truthy(At(s.submitted[i], 0)))
    // one scheduled call per dispatched entry
    && |s.scheduled| == |s.dispatched|
    && (forall i :: 0 <= i < |s.dispatched| ==> s.scheduled[i] == ToCall(s.dispatched[i]))
    // at most one dispatched entry is outstanding: all others were followed by a `done`
    && |s.dispatched| <= s.dones + (if s.isLocked then 1 else 0)
  }

  /** The singleton's invariant. */
  ghost predicate Inv(s: State)
  {
    ReadyToRun(s) && (!s.isLocked ==> s.queue == [])
  }

  /** `run`: return when locked or when the queue is empty; otherwise lock,
      shift the head and schedule its call. */
  function AfterRun(s: State): State
  {
    if s.isLocked || s.queue == [] then s
    else
      var event := s.queue[0];
      s.(isLocked := true,
         queue := s.queue[1..],
         dispatched := s.dispatched + [event],
         scheduled := s.scheduled + [ToCall(event)])
  }

  /** `setImmediate`: push the whole argument list when its first element is
      truthy, then run. */
  function AfterSetImmediate(s: State, arguments: seq<JsValue>): State
  {
    var pushed :=
      if Truthy(At(arguments, 0))
      then s.(queue := s.queue + [arguments], submitted := s.submitted + [arguments])
      else s;
    AfterRun(pushed)
  }

  /** `done`: unlock, then run. */
  function AfterDone(s: State): State
  {
    AfterRun(s.(isLocked := false, dones := s.dones + 1))
  }

  datatype Op = SetImmediateOp(arguments: seq<JsValue>) | RunOp | DoneOp

  function Step(s: State, op: Op): State
  {
    match op
    case SetImmediateOp(arguments) => AfterSetImmediate(s, arguments)
    case RunOp => AfterRun(s)
    case DoneOp => AfterDone(s)
  }

  function Exec(s: State, ops: seq<Op>): State
    decreases |ops|
  {
    if ops == [] then s else Exec(Step(s, ops[0]), ops[1..])
  }

  /** `t` is a later state than `s`: the logs only grew. */
  ghost predicate Advances(s: State, t: State)
  {
    && s.submitted <= t.submitted
    && s.dispatched <= t.dispatched
    && s.scheduled <= t.scheduled
    && s.dones <= t.dones
  }

  /** `run` restores the invariant; unlocked with a non-empty queue, it
      dispatches exactly the oldest undispatched entry, with `fn` as the
      function, `thisArg` as `this` and the rest as arguments, and takes the
      lock. It never releases the lock. */
  lemma RunDispatchesHead(s: State)
    requires ReadyToRun(s)
    ensures Inv(AfterRun(s))
    ensures Advances(s, AfterRun(s))
    ensures s.isLocked ==> AfterRun(s).isLocked
    ensures s.isLocked || s.queue == [] ==> AfterRun(s) == s
    ensures !s.isLocked && s.queue != [] ==>
              var r := AfterRun(s);
              && r.isLocked
              && r.queue == s.queue[1..]
              && s.queue[0] == s.submitted[|s.dispatched|]
              && r.dispatched == s.dispatched + [s.queue[0]]
              && r.scheduled == s.scheduled + [ToCall(s.queue[0])]
  {
    if !s.isLocked && s.queue != [] {
      var r := AfterRun(s);
      assert s.submitted[|s.dispatched|] == s.queue[0];
      assert r.dispatched + r.queue == s.submitted by {
        assert s.dispatched + [s.queue[0]] + s.queue[1..] == s.dispatched + s.queue;
      }
    }
  }

  /** `setImmediate` with a truthy `fn` appends its argument list as one
      entry at the tail, which is dispatched at once when unlocked; with a
      falsy `fn` it changes nothing (an unlocked singleton stays unlocked). */
  lemma SetImmediateAppends(s: State, arguments: seq<JsValue>)
    requires Inv(s)
    ensures var r := AfterSetImmediate(s, arguments);
            && Inv(r)
            && Advances(s, r)
            && r.dones == s.dones
            && (!Truthy(At(arguments, 0)) ==> r == s)
            && (Truthy(At(arguments, 0)) ==>
                  && r.submitted == s.submitted + [arguments]
                  && r.isLocked
                  && (s.isLocked ==> r.queue == s.queue + [arguments] && r.dispatched == s.dispatched)
                  && (!s.isLocked ==> r.queue == [] && r.dispatched == s.dispatched + [arguments]
                                      && r.scheduled == s.scheduled + [ToCall(arguments)]))
  {
    if Truthy(At(arguments, 0)) {
      var pushed := s.(queue := s.queue + [arguments], submitted := s.submitted + [arguments]);
      assert pushed.dispatched + pushed.queue == pushed.submitted;
      assert ReadyToRun(pushed);
      RunDispatchesHead(pushed);
    } else {
      RunDispatchesHead(s);
    }
  }

  /** `done` releases the lock, then dispatches exactly the next queued entry,
      if any, re-taking the lock. */
  lemma DoneDispatchesNext(s: State)
    requires Inv(s)
    ensures var r := AfterDone(s);
            && Inv(r)
            && Advances(s, r)
            && r.dones == s.dones + 1
            && r.submitted == s.submitted
            && (s.queue == [] ==> !r.isLocked && r.queue == [] && r.dispatched == s.dispatched)
            && (s.queue != [] ==> r.isLocked && r.queue == s.queue[1..]
                                  && r.dispatched == s.dispatched + [s.queue[0]])
  {
    RunDispatchesHead(s.(isLocked := false, dones := s.dones + 1));
  }

  lemma StepKeepsInv(s: State, op: Op)
    requires Inv(s)
    ensures Inv(Step(s, op)) && Advances(s, Step(s, op))
  {
    match op
    case SetImmediateOp(arguments) => SetImmediateAppends(s, arguments);
    case RunOp => RunDispatchesHead(s);
    case DoneOp => DoneDispatchesNext(s);
  }

  lemma {:induction false} ExecKeepsInv(s: State, ops: seq<Op>)
    requires Inv(s)
    ensures Inv(Exec(s, ops)) && Advances(s, Exec(s, ops))
    decreases |ops|
  {
    if ops != [] {
      StepKeepsInv(s, ops[0]);
      ExecKeepsInv(Step(s, ops[0]), ops[1..]);
    }
  }

  /** What holds in every state the singleton can reach. */
  lemma {:induction false} Reachable(ops: seq<Op>)
    ensures var s := Exec(Init(), ops);
            // entries are dispatched in push order; the rest wait, in order
            && s.dispatched <= s.submitted
            && s.queue == s.submitted[|s.dispatched|..]
            // each dispatched entry is called as fn.apply(thisArg, rest)
            && |s.scheduled| == |s.dispatched|
            && (forall i :: 0 <= i < |s.dispatched| ==> s.scheduled[i] == ToCall(s.dispatched[i]))
            // an unlocked singleton has nothing waiting
            && (!s.isLocked ==> s.queue == [])
            // dispatches are at most one more than `done` calls
            && |s.dispatched| <= s.dones + 1
  {
    ExecKeepsInv(Init(), ops);
    var s := Exec(Init(), ops);
    assert s.submitted[|s.dispatched|..] == s.queue by {
      assert s.submitted == s.dispatched + s.queue;
    }
  }

  class Reactor {
    var isLocked: bool
    var queue: seq<seq<JsValue>>
    ghost var submitted: seq<seq<JsValue>>
    ghost var dispatched: seq<seq<JsValue>>
    ghost var scheduled: seq<Call>
    ghost var dones: nat

    ghost function Snapshot(): State
      reads this
    {
      State(isLocked, queue, submitted, dispatched, scheduled, dones)
    }

    ghost predicate Valid()
      reads this
    {
      Inv(Snapshot())
    }

    /** The immediately invoked function that builds the closure. */
    constructor ()
      ensures Valid() && Snapshot() == Init()
    {
      isLocked := false;
      queue := [];
      submitted := [];
      dispatched := [];
      scheduled := [];
      dones := 0;
    }

    method Run()
      requires ReadyToRun(Snapshot())
      modifies this
      ensures Valid() && Snapshot() == AfterRun(old(Snapshot()))
    {
      RunDispatchesHead(Snapshot());
      if isLocked {
        return;
      }
      if |queue| == 0 {
        return;
      }
      isLocked := true;
      var event := queue[0];
      queue := queue[1..];
      dispatched := dispatched + [event];
      scheduled := scheduled + [ToCall(event)];
    }

    /** `setImmediate(fn, thisArg, arg1, …)`, given its `arguments` list. */
    method SetImmediate(arguments: seq<JsValue>)
      requires Valid()
      modifies this
      ensures Valid() && Snapshot() == AfterSetImmediate(old(Snapshot()), arguments)
    {
      if Truthy(At(arguments, 0)) {
        queue := queue + [arguments];
        submitted := submitted + [arguments];
      }
      Run();
    }

    method Done()
      requires Valid()
      modifies this
      ensures Valid() && Snapshot() == AfterDone(old(Snapshot()))
    {
      isLocked := false;
      dones := dones + 1;
      Run();
    }
  }

  /** Two entries pushed while unlocked: the first is dispatched at once, the
      second waits for `done`; a second `done` leaves the singleton idle. */
  method FifoScenario() returns (waiting0: nat, locked1: bool, waiting1: nat, locked2: bool)
    ensures waiting0 == 1 && locked1 && waiting1 == 0 && !locked2
  {
    var r := new Reactor();
    ghost var s := r.Snapshot();
    r.SetImmediate([Object(1), Undefined, Number(7)]);
    SetImmediateAppends(s, [Object(1), Undefined, Number(7)]);
    s := r.Snapshot();
    r.SetImmediate([Object(2)]);
    SetImmediateAppends(s, [Object(2)]);
    waiting0 := |r.queue|;
    s := r.Snapshot();
    r.Done();
    DoneDispatchesNext(s);
    locked1 := r.isLocked;
    waiting1 := |r.queue|;
    s := r.Snapshot();
    r.Done();
    DoneDispatchesNext(s);
    locked2 := r.isLocked;
  }

  /** `setImmediate()` without a function does not lock an idle singleton. */
  method NoFunctionScenario() returns (locked: bool)
    ensures !locked
  {
    var r := new Reactor();
    r.SetImmediate([]);
    locked := r.isLocked;
  }
}
