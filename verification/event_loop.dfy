/**
 * The `Reactor` class of index.js: a single-lock FIFO event scheduler.
 *
 * The JavaScript class is modelled twice over, as Dafny asks of stateful code:
 *  - `State` and the `After…` functions give the effect of each operation on a
 *    snapshot of the reactor, and the lemmas prove what the scheduler promises
 *    (FIFO starts, one event at a time, unique increasing ids, settle-once
 *    outcomes, a monotone stale guard) about those functions;
 *  - `class Reactor` keeps the source's fields, updates them step by step, and
 *    proves each method equal to its `After…` function.
 *
 * The asynchronous callbacks of `run` (the event function settling, the
 * timeout timer firing) are environment steps: methods the surrounding event
 * loop calls atomically, as single-threaded JavaScript does.
 */
module EventLoop {
  import opened JsValues

  /** Message of the error with which a timed-out event is rejected. */
  const TIMEOUT_MESSAGE: string := "Event timeout"

  /** An invoked event: the caller's `fn`, `thisArg`, `args` and `timeout`,
      stamped with the id `invoke` gave it. */
  datatype Event = Event(fn: JsValue, thisArg: JsValue, args: seq<JsValue>, timeout: JsValue, id: nat)

  /** The state of the promise `invoke` returned for one event. */
  datatype Outcome = Pending | Resolved(value: JsValue) | Rejected(reason: string)

  /** The predicate `makeIsEventLocked` returns is determined by the counter
      value it captured. A guard is meant for the reactor that issued it: the
      source's closure reads that reactor's `activeEventId`, while this value
      carries no reactor, so `IsEventLocked` does not check where it came from. */
  datatype Guard = Guard(eventId: nat)

  /** A snapshot of a reactor. The first five fields are the object's own
      (`activeEventId` is -1 while it is still `undefined`); `settled` holds the
      invoke promises by event id. The rest is a log no code reads: every
      invoked event in order, every started event in order, the ids whose
      function has been scheduled and has not yet settled, and the number of
      lock releases (`done` calls and timeouts). */
  datatype State = State(
    locked: bool,
    queue: seq<Event>,
    activeEventId: int,
    lastEventId: nat,
    timerArmed: bool,
    settled: map<nat, Outcome>,
    invoked: seq<Event>,
    started: seq<Event>,
    inFlight: set<nat>,
    releases: nat)

  /** A fresh reactor: unlocked, empty queue, counter at zero. */
  function Init(): State
  {
    State(false, [], -1, 0, false, map[], [], [], {}, 0)
  }

  function Last(events: seq<Event>): Event
    requires events != []
  {
    events[|events| - 1]
  }

  /** Everything that holds of a reactor, except that an unlocked reactor has
      an empty queue: that part is restored by `run`. */
  ghost predicate ReadyToRun(s: State)
  {
    // every invoked event is either started or queued, in invocation order
    && s.started + s.queue == s.invoked
    // ids are the invocation positions
    && |s.invoked| == s.lastEventId
    && (forall i :: 0 <= i < |s.invoked| ==> s.invoked[i].id == i)
    // the active id is that of the most recently started event
    && s.activeEventId == |s.started| - 1
    && (s.locked ==> s.started != [])
    // one promise per invoked event; queued events have not settled
    && (forall id: nat :: id in s.settled <==> id < s.lastEventId)
    && (forall j :: 0 <= j < |s.queue| ==> s.queue[j].id in s.settled && s.settled[s.queue[j].id].Pending?)
    // only started events have a function in flight
    && (forall id :: id in s.inFlight ==> id < |s.started|)
    // the one armed timer belongs to the active, still pending event, which has a timeout
    && (s.timerArmed ==>
          && s.locked
          && Truthy(Last(s.started).timeout)
          && Last(s.started).id in s.settled
          && s.settled[Last(s.started).id].Pending?)
    // mutual exclusion: every start but the one holding the lock follows a release
    && |s.started| <= s.releases + (if s.locked then 1 else 0)
  }

  /** The reactor invariant. */
  ghost predicate Inv(s: State)
  {
    ReadyToRun(s) && (!s.locked ==> s.queue == [])
  }

  /** Promise settlement: a pending promise takes the outcome `o`, a settled
      one ignores it. */
  function Settle(m: map<nat, Outcome>, id: nat, o: Outcome): (m': map<nat, Outcome>)
    requires id in m
    ensures m'.Keys == m.Keys
    ensures forall j :: j in m && j != id ==> m'[j] == m[j]
    ensures m'[id] == (if m[id].Pending? then o else m[id])
  {
    if m[id].Pending? then m[id := o] else m
  }

  /** No outcome that had settled is changed, and no promise disappears. */
  ghost predicate SettlesOnce(m: map<nat, Outcome>, m': map<nat, Outcome>)
  {
    forall id :: id in m ==> id in m' && (!m[id].Pending? ==> m'[id] == m[id])
  }

  /** `run`: a no-op when locked or idle; otherwise lock, shift the head,
      record its id as active, arm its timer when its timeout is truthy and
      schedule its function. */
  function AfterRun(s: State): State
  {
    if s.locked || s.queue == [] then s
    else
      var event := s.queue[0];
      s.(locked := true,
         queue := s.queue[1..],
         activeEventId := event.id,
         timerArmed := Truthy(event.timeout),
         started := s.started + [event],
         inFlight := s.inFlight + {event.id})
  }

  /** The synchronous part of `invoke` before it calls `run`: push the event
      stamped with the counter, then increment the counter. */
  function Enqueue(s: State, fn: JsValue, thisArg: JsValue, args: seq<JsValue>, timeout: JsValue): State
  {
    var event := Event(fn, thisArg, args, timeout, s.lastEventId);
    s.(queue := s.queue + [event],
       lastEventId := s.lastEventId + 1,
       settled := s.settled[s.lastEventId := Pending],
       invoked := s.invoked + [event])
  }

  /** `invoke`. */
  function AfterInvoke(s: State, fn: JsValue, thisArg: JsValue, args: seq<JsValue>, timeout: JsValue): State
  {
    AfterRun(Enqueue(s, fn, thisArg, args, timeout))
  }

  /** `done`: clear the timer, unlock, run. */
  function AfterDone(s: State): State
  {
    AfterRun(s.(timerArmed := false, locked := false, releases := s.releases + 1))
  }

  /** The timeout timer can fire: it is armed, and belongs to the event most
      recently started. */
  predicate TimerCanFire(s: State)
  {
    s.timerArmed && s.started != [] && Last(s.started).id in s.settled
  }

  /** The timer of the active event fires: its run's `hasEvent` promise
      rejects, and the catch block rejects the event, unlocks and runs. */
  function AfterTimeout(s: State): State
    requires TimerCanFire(s)
  {
    var event := Last(s.started);
    AfterRun(s.(timerArmed := false,
                settled := Settle(s.settled, event.id, Rejected(TIMEOUT_MESSAGE)),
                locked := false,
                releases := s.releases + 1))
  }

  /** The function of event `id` resolves with `value`: the callback clears the
      timer `timeoutId` holds (whichever event armed it) and resolves the
      event's promise. The lock is kept. */
  function AfterCompleted(s: State, id: nat, value: JsValue): State
    requires id in s.inFlight && id in s.settled
  {
    s.(inFlight := s.inFlight - {id},
       timerArmed := false,
       settled := Settle(s.settled, id, Resolved(value)))
  }

  /** The function of event `id` throws or rejects: the exception escapes the
      timer callback, so neither the timer nor the promise nor the lock is
      touched. */
  function AfterFailed(s: State, id: nat): State
    requires id in s.inFlight
  {
    s.(inFlight := s.inFlight - {id})
  }

  /** Everything that can happen to a reactor: a call of one of its methods,
      or an asynchronous callback. */
  datatype Op =
    | InvokeOp(fn: JsValue, thisArg: JsValue, args: seq<JsValue>, timeout: JsValue)
    | RunOp
    | DoneOp
    | TimerFires
    | FnResolves(id: nat, value: JsValue)
    | FnThrows(id: nat)

  /** One step; a callback that cannot occur in `s` leaves it unchanged. */
  function Step(s: State, op: Op): State
  {
    match op
    case InvokeOp(fn, thisArg, args, timeout) => AfterInvoke(s, fn, thisArg, args, timeout)
    case RunOp => AfterRun(s)
    case DoneOp => AfterDone(s)
    case TimerFires => if TimerCanFire(s) then AfterTimeout(s) else s
    case FnResolves(id, value) =>
      if id in s.inFlight && id in s.settled then AfterCompleted(s, id, value) else s
    case FnThrows(id) => if id in s.inFlight then AfterFailed(s, id) else s
  }

  function Exec(s: State, ops: seq<Op>): State
    decreases |ops|
  {
    if ops == [] then s else Exec(Step(s, ops[0]), ops[1..])
  }

  /** `t` is a later state than `s`: the logs only grew, the active id and the
      counter did not go back, and no settled promise changed. */
  ghost predicate Advances(s: State, t: State)
  {
    && s.invoked <= t.invoked
    && s.started <= t.started
    && s.activeEventId <= t.activeEventId
    && s.lastEventId <= t.lastEventId
    && SettlesOnce(s.settled, t.settled)
  }

  // ---------------------------------------------------------------------
  // run

  /** `run` restores the invariant, and starts exactly the oldest waiting
      event when unlocked with a non-empty queue. */
  lemma RunStartsOldestWaiting(s: State)
    requires ReadyToRun(s)
    ensures Inv(AfterRun(s))
    ensures s.locked || s.queue == [] ==> AfterRun(s) == s
    ensures !s.locked && s.queue != [] ==>
              var r := AfterRun(s);
              && r.locked
              && r.queue == s.queue[1..]
              && r.activeEventId == s.queue[0].id == |s.started|
              && r.started == s.started + [s.invoked[|s.started|]]
              && r.timerArmed == Truthy(s.queue[0].timeout)
              && r.settled == s.settled
  {
    if !s.locked && s.queue != [] {
      var r := AfterRun(s);
      assert s.invoked[|s.started|] == s.queue[0];
      assert r.started + r.queue == s.invoked by {
        assert s.started + [s.queue[0]] + s.queue[1..] == s.started + s.queue;
      }
    }
  }

  // ---------------------------------------------------------------------
  // invoke

  /** `invoke` adds exactly one event, with id the old counter, at the tail of
      the invocation order; it waits at the tail of the queue when the reactor
      is locked and starts at once otherwise. */
  lemma InvokeAppendsOne(s: State, fn: JsValue, thisArg: JsValue, args: seq<JsValue>, timeout: JsValue)
    requires Inv(s)
    ensures var r := AfterInvoke(s, fn, thisArg, args, timeout);
            var event := Event(fn, thisArg, args, timeout, s.lastEventId);
            && Inv(r)
            && s.lastEventId !in s.settled
            && r.lastEventId == s.lastEventId + 1
            && r.invoked == s.invoked + [event]
            && r.settled == s.settled[s.lastEventId := Pending]
            && r.locked
            && (s.locked ==> r.queue == s.queue + [event] && r.started == s.started
                             && r.activeEventId == s.activeEventId)
            && (!s.locked ==> r.queue == [] && r.started == s.started + [event]
                              && r.activeEventId == event.id)
  {
    var e := Enqueue(s, fn, thisArg, args, timeout);
    var event := Event(fn, thisArg, args, timeout, s.lastEventId);
    assert e.started + e.queue == s.invoked + [event];
    assert ReadyToRun(e);
    RunStartsOldestWaiting(e);
  }

  // ---------------------------------------------------------------------
  // done

  /** `done` settles nothing; it releases the lock and then starts the head
      of the queue, if any, which re-takes the lock. */
  lemma DoneStartsNext(s: State)
    requires Inv(s)
    ensures var r := AfterDone(s);
            && Inv(r)
            && r.settled == s.settled
            && r.releases == s.releases + 1
            && (s.queue == [] ==> !r.locked && r.queue == [] && !r.timerArmed
                                  && r.started == s.started && r.activeEventId == s.activeEventId)
            && (s.queue != [] ==> r.locked && r.activeEventId == s.queue[0].id
                                  && r.queue == s.queue[1..] && r.started == s.started + [s.queue[0]]
                                  && r.timerArmed == Truthy(s.queue[0].timeout))
  {
    RunStartsOldestWaiting(s.(timerArmed := false, locked := false, releases := s.releases + 1));
  }

  // ---------------------------------------------------------------------
  // the timeout race

  /** A firing timer rejects the active event with the timeout message,
      releases the lock and starts the next queued event, if any. */
  lemma TimeoutRejectsActive(s: State)
    requires Inv(s) && s.timerArmed
    ensures TimerCanFire(s)
    ensures s.activeEventId >= 0 && s.activeEventId in s.settled
    ensures var r := AfterTimeout(s);
            && Inv(r)
            && r.settled == s.settled[s.activeEventId := Rejected(TIMEOUT_MESSAGE)]
            && s.settled[s.activeEventId] == Pending
            && (s.queue == [] ==> !r.locked && r.queue == [] && !r.timerArmed)
            && (s.queue != [] ==> r.locked && r.activeEventId == s.queue[0].id
                                  && r.queue == s.queue[1..]
                                  && r.timerArmed == Truthy(s.queue[0].timeout))
  {
    var event := Last(s.started);
    assert event == s.invoked[|s.started| - 1];
    QueueIdsOrdered(s);
    var u := s.(timerArmed := false,
                settled := Settle(s.settled, event.id, Rejected(TIMEOUT_MESSAGE)),
                locked := false,
                releases := s.releases + 1);
    assert ReadyToRun(u);
    RunStartsOldestWaiting(u);
  }

  /** Completion of an event's function settles its promise (unless the
      timeout already rejected it) and keeps the lock: only `done` or a
      timeout releases it. */
  lemma CompletionKeepsLock(s: State, id: nat, value: JsValue)
    requires Inv(s) && id in s.inFlight
    ensures id in s.settled
    ensures var r := AfterCompleted(s, id, value);
            && Inv(r)
            && r.locked == s.locked && r.queue == s.queue
            && r.activeEventId == s.activeEventId && r.started == s.started
            && !r.timerArmed
            && r.settled == s.settled[id := if s.settled[id].Pending? then Resolved(value) else s.settled[id]]
  {
    QueueIdsOrdered(s);
  }

  // ---------------------------------------------------------------------
  // every step

  lemma StepKeepsInv(s: State, op: Op)
    requires Inv(s)
    ensures Inv(Step(s, op))
    ensures Advances(s, Step(s, op))
  {
    match op
    case InvokeOp(fn, thisArg, args, timeout) =>
      InvokeAppendsOne(s, fn, thisArg, args, timeout);
    case RunOp =>
      RunStartsOldestWaiting(s);
    case DoneOp =>
      DoneStartsNext(s);
    case TimerFires =>
      if TimerCanFire(s) {
        TimeoutRejectsActive(s);
      }
    case FnResolves(id, value) =>
      if id in s.inFlight && id in s.settled {
        CompletionKeepsLock(s, id, value);
      }
    case FnThrows(id) =>
  }

  lemma {:induction false} ExecKeepsInv(s: State, ops: seq<Op>)
    requires Inv(s)
    ensures Inv(Exec(s, ops))
    ensures Advances(s, Exec(s, ops))
    decreases |ops|
  {
    if ops != [] {
      var t := Step(s, ops[0]);
      StepKeepsInv(s, ops[0]);
      ExecKeepsInv(t, ops[1..]);
    }
  }

  /** What holds in every state a fresh reactor can reach. */
  lemma {:induction false} Reachable(ops: seq<Op>)
    ensures var s := Exec(Init(), ops);
            // ids are 0, 1, 2, … in invocation order, hence unique and increasing
            && (forall i :: 0 <= i < |s.invoked| ==> s.invoked[i].id == i)
            && |s.invoked| == s.lastEventId
            // events start in invocation order; the rest wait in the queue, in order
            && s.started <= s.invoked
            && s.queue == s.invoked[|s.started|..]
            // an unlocked reactor has nothing waiting
            && (!s.locked ==> s.queue == [])
            // starts are bounded by releases (`done` calls, idle ones included, and timeouts)
            && |s.started| <= s.releases + (if s.locked then 1 else 0)
            // only an event with a truthy timeout can have an armed timer
            && (s.timerArmed ==> s.started != [] && Truthy(Last(s.started).timeout))
  {
    ExecKeepsInv(Init(), ops);
    var s := Exec(Init(), ops);
    assert s.invoked[|s.started|..] == s.queue by {
      assert s.invoked == s.started + s.queue;
    }
  }

  /** Mutual exclusion: while an event holds the lock, nothing but `done` or a
      firing timer releases it or starts another event. */
  lemma LockHolderKeepsLock(s: State, op: Op)
    requires Inv(s) && s.locked && !op.DoneOp? && !op.TimerFires?
    ensures Step(s, op).locked
    ensures Step(s, op).started == s.started
    ensures Step(s, op).activeEventId == s.activeEventId
  {
    match op
    case InvokeOp(fn, thisArg, args, timeout) =>
      InvokeAppendsOne(s, fn, thisArg, args, timeout);
    case RunOp =>
    case FnResolves(id, value) =>
    case FnThrows(id) =>
  }

  /** Queued ids lie strictly between the active id and the counter, and
      increase along the queue. */
  lemma QueueIdsOrdered(s: State)
    requires Inv(s)
    ensures forall j :: 0 <= j < |s.queue| ==> s.activeEventId < s.queue[j].id < s.lastEventId
    ensures forall i, j :: 0 <= i < j < |s.queue| ==> s.queue[i].id < s.queue[j].id
  {
    forall j | 0 <= j < |s.queue|
      ensures s.queue[j].id == |s.started| + j
    {
      assert s.queue[j] == s.invoked[|s.started| + j];
    }
  }

  // ---------------------------------------------------------------------
  // the stale guard

  /** A guard that captured `k` reports true exactly when some event with an
      id above `k` has started; `k` is the id the next invoked event gets, so
      the guard trips once an event invoked after that one has started. */
  lemma GuardMeaning(s: State, k: nat)
    requires Inv(s)
    ensures s.activeEventId > k <==> exists i :: 0 <= i < |s.started| && s.started[i].id > k
  {
    forall i | 0 <= i < |s.started|
      ensures s.started[i].id == i
    {
      assert s.started[i] == s.invoked[i];
    }
    if s.activeEventId > k {
      assert s.started[|s.started| - 1].id > k;
    }
  }

  /** Once a guard reports true it stays true, whatever happens next. */
  lemma GuardStaysTripped(s: State, ops: seq<Op>, k: nat)
    requires Inv(s) && s.activeEventId > k
    ensures Exec(s, ops).activeEventId > k
  {
    ExecKeepsInv(s, ops);
  }

  /** The invoke promise of every event settles at most once along any run. */
  lemma OutcomesSettleOnce(s: State, ops: seq<Op>, id: nat)
    requires Inv(s) && id in s.settled && !s.settled[id].Pending?
    ensures id in Exec(s, ops).settled && Exec(s, ops).settled[id] == s.settled[id]
  {
    ExecKeepsInv(s, ops);
  }

  // ---------------------------------------------------------------------
  // the class

  class Reactor {
    var locked: bool
    var queue: seq<Event>
    var activeEventId: int
    var lastEventId: nat
    /** Whether `timeoutId` names a timer that is still armed. */
    var timerArmed: bool
    /** The promise `invoke` returned, by event id. */
    var settled: map<nat, Outcome>
    ghost var invoked: seq<Event>
    ghost var started: seq<Event>
    ghost var inFlight: set<nat>
    ghost var releases: nat

    ghost function Snapshot(): State
      reads this
    {
      State(locked, queue, activeEventId, lastEventId, timerArmed, settled,
            invoked, started, inFlight, releases)
    }

    ghost predicate Valid()
      reads this
    {
      Inv(Snapshot())
    }

    constructor ()
      ensures Valid() && Snapshot() == Init()
    {
      locked := false;
      queue := [];
      activeEventId := -1;
      lastEventId := 0;
      timerArmed := false;
      settled := map[];
      invoked := [];
      started := [];
      inFlight := {};
      releases := 0;
    }

    method Run()
      requires ReadyToRun(Snapshot())
      modifies this
      ensures Valid() && Snapshot() == AfterRun(old(Snapshot()))
    {
      RunStartsOldestWaiting(Snapshot());
      if locked || |queue| == 0 {
        return;
      }
      locked := true;
      var event := queue[0];
      queue := queue[1..];
      activeEventId := event.id;
      timerArmed := Truthy(event.timeout);
      started := started + [event];
      inFlight := inFlight + {event.id};
    }

    /** Returns a guard; `IsEventLocked` evaluates it. */
    method MakeIsEventLocked() returns (g: Guard)
      ensures g.eventId == lastEventId
    {
      g := Guard(lastEventId);
    }

    /** The guard's predicate: has a newer event than the one it was issued
        for started? Meant for guards this reactor issued. */
    function IsEventLocked(g: Guard): (r: bool)
      reads this
      requires Valid()
      ensures r <==> exists i :: 0 <= i < |started| && started[i].id > g.eventId
    {
      GuardMeaning(Snapshot(), g.eventId);
      activeEventId > g.eventId
    }

    method Done()
      requires Valid()
      modifies this
      ensures Valid() && Snapshot() == AfterDone(old(Snapshot()))
    {
      timerArmed := false;
      locked := false;
      releases := releases + 1;
      Run();
    }

    /** Returns the id of the new event, which names its promise in `settled`. */
    method Invoke(fn: JsValue, thisArg: JsValue, args: seq<JsValue>, timeout: JsValue) returns (id: nat)
      requires Valid()
      modifies this
      ensures Valid() && id == old(lastEventId)
      ensures Snapshot() == AfterInvoke(old(Snapshot()), fn, thisArg, args, timeout)
    {
      var event := Event(fn, thisArg, args, timeout, lastEventId);
      queue := queue + [event];
      invoked := invoked + [event];
      settled := settled[lastEventId := Pending];
      id := lastEventId;
      lastEventId := lastEventId + 1;
      assert Snapshot() == Enqueue(old(Snapshot()), fn, thisArg, args, timeout);
      Run();
    }

    method IsLocked() returns (r: bool)
      ensures r == locked
    {
      r := locked;
    }

    /** Environment step: the active event's timer fires. */
    method TimeoutFired()
      requires Valid() && timerArmed
      modifies this
      ensures Valid() && Snapshot() == AfterTimeout(old(Snapshot()))
    {
      TimeoutRejectsActive(Snapshot());
      var id: nat := activeEventId;
      assert id == Last(started).id;
      timerArmed := false;
      settled := Settle(settled, id, Rejected(TIMEOUT_MESSAGE));
      locked := false;
      releases := releases + 1;
      Run();
    }

    /** Environment step: the function of event `id` resolves with `value`. */
    method Completed(id: nat, value: JsValue)
      requires Valid() && id in inFlight
      modifies this
      ensures Valid() && Snapshot() == AfterCompleted(old(Snapshot()), id, value)
    {
      CompletionKeepsLock(Snapshot(), id, value);
      inFlight := inFlight - {id};
      timerArmed := false;
      settled := Settle(settled, id, Resolved(value));
    }

    /** Environment step: the function of event `id` throws or rejects. */
    method Failed(id: nat)
      requires Valid() && id in inFlight
      modifies this
      ensures Valid() && Snapshot() == AfterFailed(old(Snapshot()), id)
    {
      inFlight := inFlight - {id};
    }
  }

  // ---------------------------------------------------------------------
  // scenarios from the source's test suite, as clients of the class

  /** Three events invoked while unlocked start one per `done`, in order. */
  method FifoScenario() returns (first: int, second: int, third: int, waiting: nat)
    ensures first == 0 && second == 1 && third == 2 && waiting == 0
  {
    var r := new Reactor();
    ghost var s := r.Snapshot();
    var a := r.Invoke(Object(1), Undefined, [], Undefined);
    InvokeAppendsOne(s, Object(1), Undefined, [], Undefined);
    s := r.Snapshot();
    var b := r.Invoke(Object(2), Undefined, [], Undefined);
    InvokeAppendsOne(s, Object(2), Undefined, [], Undefined);
    s := r.Snapshot();
    var c := r.Invoke(Object(3), Undefined, [], Undefined);
    InvokeAppendsOne(s, Object(3), Undefined, [], Undefined);
    first := r.activeEventId;
    s := r.Snapshot();
    r.Done();
    DoneStartsNext(s);
    second := r.activeEventId;
    s := r.Snapshot();
    r.Done();
    DoneStartsNext(s);
    third := r.activeEventId;
    waiting := |r.queue|;
  }

  /** An event invoked while another holds the lock waits, even after the
      first one's function has completed, until `done`. */
  method LockScenario() returns (lockedAfterCompletion: bool, activeBeforeDone: int, activeAfterDone: int)
    ensures lockedAfterCompletion && activeBeforeDone == 0 && activeAfterDone == 1
  {
    var r := new Reactor();
    var a := r.Invoke(Object(1), Undefined, [], Undefined);
    r.Completed(a, Undefined);
    lockedAfterCompletion := r.IsLocked();
    var b := r.Invoke(Object(2), Undefined, [], Undefined);
    activeBeforeDone := r.activeEventId;
    r.Done();
    activeAfterDone := r.activeEventId;
  }

  /** An event whose timer fires first is rejected with the timeout message
      and the reactor is unlocked. */
  method TimeoutScenario() returns (outcome: Outcome, lockedAfter: bool)
    ensures outcome == Rejected(TIMEOUT_MESSAGE) && !lockedAfter
  {
    var r := new Reactor();
    var a := r.Invoke(Object(1), Undefined, [], Number(10));
    r.TimeoutFired();
    outcome := r.settled[a];
    lockedAfter := r.locked;
  }

  /** Two guards issued before two invokes: `done` trips the first only. */
  method GuardScenario() returns (first0: bool, second0: bool, first1: bool, second1: bool)
    ensures !first0 && !second0 && first1 && !second1
  {
    var r := new Reactor();
    var g1 := r.MakeIsEventLocked();
    var a := r.Invoke(Object(1), Undefined, [], Undefined);
    var g2 := r.MakeIsEventLocked();
    var b := r.Invoke(Object(2), Undefined, [], Undefined);
    first0 := r.IsEventLocked(g1);
    second0 := r.IsEventLocked(g2);
    r.Done();
    first1 := r.IsEventLocked(g1);
    second1 := r.IsEventLocked(g2);
  }

  /** The shared `timeoutId`: the late completion of an abandoned event
      clears the timer of the event that replaced it, which can then no
      longer time out. */
  method SharedTimerScenario() returns (stillPending: bool, armed: bool)
    ensures stillPending && !armed
  {
    var r := new Reactor();
    var a := r.Invoke(Object(1), Undefined, [], Number(10));
    var b := r.Invoke(Object(2), Undefined, [], Number(10));
    r.Done();
    r.Completed(a, Undefined);
    stillPending := r.settled[b].Pending?;
    armed := r.timerArmed;
  }
}
