/**
 * Model of the `Throttle` admission controller of the utilities package.
 *
 * A throttle keeps a FIFO queue of pending tasks, a counter of tasks in
 * flight bounded by `limit`, and an optional periodic timer that re-runs the
 * drain loop. All of its bookkeeping is synchronous; the asynchrony of the
 * tasks themselves is replaced by explicit events: a task starts when the
 * drain loop takes it off the queue, and it settles later through `Complete`
 * with the value or the error its own promise receives.
 *
 * The specification is a pure state (`Sched`) with one step function per
 * operation; the class `Throttle` holds the same state in fields and each of
 * its methods is proved to perform the corresponding step.
 */
module Throttling {

  /** Identity of a submitted task, and of the promise `add` returned for it:
    * the n-th call of `add` creates task n. */
  type TaskId = nat

  /** Identity of a periodic timer handle created by `setInterval`. */
  type TimerHandle = nat

  datatype Option<T> = None | Some(value: T)

  datatype Result<T> = Ok(value: T) | Err(message: string)

  /** How a task's own promise settles: with the task's value or its error. */
  datatype Outcome = Resolved(value: string) | Rejected(error: string)

  const LimitErrorMessage: string := "Limit must be greater than 0"

  /** The constructor's guard: a limit below 1 is refused with an error. */
  function CheckLimit(limit: int): (r: Result<nat>)
    ensures r.Ok? <==> limit >= 1
    ensures r.Ok? ==> r.value == limit
    ensures r.Err? ==> r.message == LimitErrorMessage
  {
    if limit < 1 then Err(LimitErrorMessage) else Ok(limit)
  }

  /**
   * The state of one throttle. `queue`, `activeCount` and `intervalId` are the
   * source's fields; `timersCreated` numbers the handles `setInterval` hands
   * out; `submitted` counts the calls of `add`; `started`, `running` and
   * `outcomes` record which tasks have been started, which are in flight and
   * what each settled promise received.
   */
  datatype Sched = Sched(
    limit: nat,
    queue: seq<TaskId>,
    activeCount: nat,
    intervalId: Option<TimerHandle>,
    timersCreated: nat,
    submitted: nat,
    started: seq<TaskId>,
    running: set<TaskId>,
    outcomes: map<TaskId, Outcome>)

  /** A freshly constructed throttle: nothing queued, nothing running, no timer. */
  function Initial(limit: nat): Sched {
    Sched(limit, [], 0, None, 0, 0, [], {}, map[])
  }

  /** `startInterval`: create a timer only when there is none. */
  function StartIntervalStep(s: Sched): (r: Sched)
    ensures r.intervalId.Some?
    ensures s.intervalId.Some? ==> r == s
    ensures s.intervalId.None? ==>
              && r.intervalId == Some(s.timersCreated)
              && r.(intervalId := None, timersCreated := s.timersCreated) == s
  {
    if s.intervalId.None? then
      s.(intervalId := Some(s.timersCreated), timersCreated := s.timersCreated + 1)
    else
      s
  }

  /** `stopInterval`: clear the timer when there is one. */
  function StopIntervalStep(s: Sched): (r: Sched)
    ensures r.intervalId.None?
    ensures r.(intervalId := s.intervalId) == s
  {
    if s.intervalId.Some? then s.(intervalId := None) else s
  }

  /** One iteration of the drain loop: take the head of the queue and start it. */
  function StartHead(s: Sched): Sched
    requires |s.queue| > 0
  {
    var next := s.queue[0];
    s.(queue := s.queue[1..], activeCount := s.activeCount + 1,
       started := s.started + [next], running := s.running + {next})
  }

  /** The `while` loop of `processQueue`, run until it exits. */
  function Drain(s: Sched): Sched
    decreases |s.queue|
  {
    if |s.queue| > 0 && s.activeCount < s.limit then Drain(StartHead(s)) else s
  }

  /** `processQueue`: drain, then stop the timer when the throttle is idle. */
  function ProcessQueueStep(s: Sched): Sched {
    var d := Drain(s);
    if |d.queue| == 0 && d.activeCount == 0 then StopIntervalStep(d) else d
  }

  /** `queue.push(task)` for the task created by the next call of `add`. */
  function Enqueue(s: Sched): Sched {
    s.(queue := s.queue + [s.submitted], submitted := s.submitted + 1)
  }

  /** `add`: start the timer, enqueue the new task, drain. */
  function AddStep(s: Sched): Sched {
    ProcessQueueStep(Enqueue(StartIntervalStep(s)))
  }

  /** The `try`/`catch` of the completion handler: the outcome goes to the
    * task's own promise; then `finally` gives back its slot. */
  function SettleStep(s: Sched, id: TaskId, outcome: Outcome): Sched
    requires id in s.running && s.activeCount > 0
  {
    s.(outcomes := s.outcomes[id := outcome], activeCount := s.activeCount - 1,
       running := s.running - {id})
  }

  /** The completion handler of task `id`: settle, then drain. */
  function CompleteStep(s: Sched, id: TaskId, outcome: Outcome): Sched
    requires id in s.running && s.activeCount > 0
  {
    ProcessQueueStep(SettleStep(s, id, outcome))
  }

  /** How many tasks one drain starts: as many as are queued, but no more
    * than there are free slots. */
  function Admitted(s: Sched): (k: nat)
    ensures k <= |s.queue|
    ensures s.activeCount <= s.limit ==> s.activeCount + k <= s.limit
    ensures k == |s.queue| || s.activeCount + k >= s.limit
    ensures k > 0 ==> s.activeCount < s.limit
  {
    if s.activeCount >= s.limit then 0
    else if |s.queue| <= s.limit - s.activeCount then |s.queue|
    else s.limit - s.activeCount
  }

  /** The set of ids in a sequence. */
  function Elems(q: seq<TaskId>): set<TaskId> {
    set x | x in q
  }

  /** Submission order: the ids of the first `n` tasks added. */
  function Ids(n: nat): (r: seq<TaskId>)
    ensures |r| == n && forall i :: 0 <= i < n ==> r[i] == i
  {
    seq(n, i => i)
  }

  /** The ids below `n`. */
  function Range(n: nat): (r: set<nat>)
    ensures forall t: nat :: t in r <==> t < n
    ensures |r| == n
  {
    if n == 0 then {} else Range(n - 1) + {n - 1}
  }

  /**
   * What holds of every state, also in the middle of an operation: the limit
   * is positive and respected, the started tasks are the first ones
   * submitted and the queue holds the rest in order, and every started task
   * is either in flight or settled, never both.
   */
  ghost predicate Core(s: Sched) {
    && s.limit >= 1
    && s.activeCount <= s.limit
    && |s.started| + |s.queue| == s.submitted
    && (forall i :: 0 <= i < |s.started| ==> s.started[i] == i)
    && (forall j :: 0 <= j < |s.queue| ==> s.queue[j] == |s.started| + j)
    && s.activeCount == |s.running|
    && (forall t :: t in s.running ==> t < |s.started| && t !in s.outcomes)
    && (forall t :: t in s.outcomes ==> t < |s.started|)
    && (forall i :: 0 <= i < |s.started| ==> s.started[i] in s.running || s.started[i] in s.outcomes)
  }

  /**
   * What holds between operations: a waiting task means every slot is taken,
   * and the timer is live exactly while there is queued or running work.
   */
  ghost predicate Inv(s: Sched) {
    && Core(s)
    && (|s.queue| > 0 ==> s.activeCount == s.limit)
    && (s.intervalId.Some? <==> (|s.queue| > 0 || s.activeCount > 0))
  }

  lemma InitialInv(limit: nat)
    requires limit >= 1
    ensures Inv(Initial(limit))
  {
  }

  /** Taking the first `k` elements of `q` is taking its head and then the
    * first `k - 1` elements of its tail. */
  lemma PrefixAfterHead(q: seq<TaskId>, k: nat)
    requires 0 < k <= |q|
    ensures q[1..][k - 1..] == q[k..]
    ensures q[..k] == [q[0]] + q[1..][..k - 1]
    ensures Elems(q[..k]) == {q[0]} + Elems(q[1..][..k - 1])
  {
    assert q[..k] == [q[0]] + q[1..][..k - 1];
  }

  /** The state after starting the first `k` queued tasks, in queue order. */
  function StartFirst(s: Sched, k: nat): Sched
    requires k <= |s.queue|
  {
    s.(queue := s.queue[k..], activeCount := s.activeCount + k,
       started := s.started + s.queue[..k], running := s.running + Elems(s.queue[..k]))
  }

  /** Starting the head and then `k - 1` more is starting the first `k`. */
  lemma StartFirstAfterHead(s: Sched, k: nat)
    requires 0 < k <= |s.queue|
    ensures StartFirst(StartHead(s), k - 1) == StartFirst(s, k)
  {
    PrefixAfterHead(s.queue, k);
    assert s.started + [s.queue[0]] + s.queue[1..][..k - 1] == s.started + s.queue[..k];
  }

  /** The drain loop starts exactly the first `Admitted(s)` queued tasks, in
    * queue order, and touches nothing else. */
  lemma {:induction false} DrainClosedForm(s: Sched)
    ensures Drain(s) == StartFirst(s, Admitted(s))
    decreases |s.queue|
  {
    var k := Admitted(s);
    if |s.queue| > 0 && s.activeCount < s.limit {
      var h := StartHead(s);
      DrainClosedForm(h);
      assert Admitted(h) == k - 1;
      StartFirstAfterHead(s, k);
    } else {
      assert s.queue[0..] == s.queue;
      assert s.queue[..0] == [];
      assert Elems([]) == {};
    }
  }

  /** After a drain no further task can be started. */
  lemma DrainQuiescent(s: Sched)
    ensures var d := Drain(s); |d.queue| == 0 || d.activeCount >= d.limit
  {
    DrainClosedForm(s);
  }

  lemma StartHeadKeepsCore(s: Sched)
    requires Core(s) && |s.queue| > 0 && s.activeCount < s.limit
    ensures Core(StartHead(s))
  {
  }

  lemma {:induction false} DrainKeepsCore(s: Sched)
    requires Core(s)
    ensures Core(Drain(s))
    decreases |s.queue|
  {
    if |s.queue| > 0 && s.activeCount < s.limit {
      StartHeadKeepsCore(s);
      DrainKeepsCore(StartHead(s));
    }
  }

  /** `processQueue` ends in a state that satisfies the invariant, as long as
    * it runs while a timer is live (which `add`, completion and tick ensure). */
  lemma ProcessQueueEstablishesInv(s: Sched)
    requires Core(s) && s.intervalId.Some?
    ensures Inv(ProcessQueueStep(s))
  {
    DrainClosedForm(s);
    DrainQuiescent(s);
    DrainKeepsCore(s);
  }

  /** Draining is idempotent: a second `processQueue` right after the first changes nothing. */
  lemma ProcessQueueIdempotent(s: Sched)
    ensures ProcessQueueStep(ProcessQueueStep(s)) == ProcessQueueStep(s)
  {
    var d := Drain(s);
    DrainQuiescent(s);
    var p := ProcessQueueStep(s);
    assert Drain(p) == p;
  }

  /** Enqueueing the task created by `add` keeps the always-true part of the invariant. */
  lemma EnqueueKeepsCore(s: Sched)
    requires Core(s)
    ensures Core(Enqueue(s))
  {
  }

  /** `add` keeps the invariant. */
  lemma AddKeepsInv(s: Sched)
    requires Inv(s)
    ensures Inv(AddStep(s))
  {
    var e := Enqueue(StartIntervalStep(s));
    EnqueueKeepsCore(StartIntervalStep(s));
    ProcessQueueEstablishesInv(e);
  }

  /**
   * What `add` does: the timer is live afterwards and an existing handle is
   * kept; the new task starts at once when a slot is free, and otherwise
   * waits at the tail of the queue; no promise settles.
   */
  lemma AddAdmission(s: Sched)
    requires Inv(s)
    ensures var r := AddStep(s);
      && r.intervalId.Some?
      && (s.intervalId.Some? ==> r.intervalId == s.intervalId)
      && r.submitted == s.submitted + 1
      && r.outcomes == s.outcomes
      && if s.activeCount < s.limit then
           && r.started == s.started + [s.submitted]
           && r.queue == []
           && r.activeCount == s.activeCount + 1
           && r.running == s.running + {s.submitted}
         else
           && r.started == s.started
           && r.queue == s.queue + [s.submitted]
           && r.activeCount == s.activeCount
           && r.running == s.running
  {
    var e := Enqueue(StartIntervalStep(s));
    DrainClosedForm(e);
    if s.activeCount < s.limit {
      assert e.queue == [s.submitted];
      assert Admitted(e) == 1;
      assert Elems([s.submitted]) == {s.submitted};
    } else {
      assert Admitted(e) == 0;
      assert e.queue[0..] == e.queue;
    }
  }

  /** Settling a task keeps the always-true part of the invariant. */
  lemma SettleKeepsCore(s: Sched, id: TaskId, outcome: Outcome)
    requires Core(s) && id in s.running
    ensures s.activeCount > 0
    ensures Core(SettleStep(s, id, outcome))
  {
  }

  /** The completion of a running task keeps the invariant. */
  lemma CompleteKeepsInv(s: Sched, id: TaskId, outcome: Outcome)
    requires Inv(s) && id in s.running
    ensures s.activeCount > 0
    ensures Inv(CompleteStep(s, id, outcome))
  {
    SettleKeepsCore(s, id, outcome);
    ProcessQueueEstablishesInv(SettleStep(s, id, outcome));
  }

  /**
   * What the completion of task `id` does: its promise and no other receives
   * the outcome, its slot is given back and immediately handed to the head of
   * the queue if a task is waiting; the timer is cleared exactly when this
   * was the last task in flight and none is waiting.
   */
  lemma CompleteAdmission(s: Sched, id: TaskId, outcome: Outcome)
    requires Inv(s) && id in s.running
    ensures s.activeCount > 0
    ensures var r := CompleteStep(s, id, outcome);
      && r.outcomes == s.outcomes[id := outcome]
      && r.submitted == s.submitted
      && if |s.queue| > 0 then
           && r.started == s.started + [s.queue[0]]
           && r.queue == s.queue[1..]
           && r.activeCount == s.activeCount
           && r.running == s.running - {id} + {s.queue[0]}
           && r.intervalId == s.intervalId
         else
           && r.started == s.started
           && r.queue == []
           && r.activeCount == s.activeCount - 1
           && r.running == s.running - {id}
           && r.intervalId == (if s.activeCount == 1 then None else s.intervalId)
  {
    SettleKeepsCore(s, id, outcome);
    var st := SettleStep(s, id, outcome);
    DrainClosedForm(st);
    if |s.queue| > 0 {
      assert Admitted(st) == 1;
      assert st.queue[..1] == [s.queue[0]];
      assert Elems([s.queue[0]]) == {s.queue[0]};
    } else {
      assert Admitted(st) == 0;
      assert st.queue[0..] == st.queue;
      assert Elems(st.queue[..0]) == {};
    }
  }

  /** Draining does not look at or change the settled promises. */
  lemma ProcessQueueIgnoresOutcomes(s: Sched, m: map<TaskId, Outcome>)
    ensures ProcessQueueStep(s.(outcomes := m)) == ProcessQueueStep(s).(outcomes := m)
    ensures ProcessQueueStep(s).outcomes == s.outcomes
  {
    DrainClosedForm(s);
    DrainClosedForm(s.(outcomes := m));
  }

  /**
   * Failure isolation: whether task `id` resolves or rejects, the completion
   * leaves the scheduler in the same state except for that one promise, so a
   * rejected task does not hold up or change what happens to later tasks.
   */
  lemma OutcomeDoesNotAffectScheduling(s: Sched, id: TaskId, o1: Outcome, o2: Outcome)
    requires id in s.running && s.activeCount > 0
    ensures CompleteStep(s, id, o1).outcomes == s.outcomes[id := o1]
    ensures CompleteStep(s, id, o1).(outcomes := s.outcomes)
         == CompleteStep(s, id, o2).(outcomes := s.outcomes)
  {
    var s1 := SettleStep(s, id, o1);
    var s2 := SettleStep(s, id, o2);
    ProcessQueueIgnoresOutcomes(s1, s.outcomes);
    ProcessQueueIgnoresOutcomes(s2, s.outcomes);
    assert s1.(outcomes := s.outcomes) == s2.(outcomes := s.outcomes);
  }

  /** A timer tick in a state between operations changes nothing: every slot
    * freed by a completion has already been refilled by its handler. */
  lemma TickAtRestIsNoOp(s: Sched)
    requires Inv(s)
    ensures ProcessQueueStep(s) == s
  {
    assert Drain(s) == s;
  }

  /**
   * Conservation of tasks: every task added is queued, in flight or settled,
   * and the counter is the number started minus the number settled.
   */
  lemma Conservation(s: Sched)
    requires Core(s)
    ensures s.submitted == |s.queue| + s.activeCount + |s.outcomes|
    ensures s.activeCount == |s.started| - |s.outcomes|
  {
    var n := |s.started|;
    forall t: nat | t < n
      ensures t in s.running || t in s.outcomes
    {
      assert s.started[t] == t;
    }
    assert s.running + s.outcomes.Keys == Range(n);
    assert s.running !! s.outcomes.Keys;
  }

  /** FIFO start order: the started tasks are a prefix of the submission order
    * and the queue holds the rest of it. */
  lemma StartedInSubmissionOrder(s: Sched)
    requires Core(s)
    ensures s.started + s.queue == Ids(s.submitted)
    ensures s.started == Ids(s.submitted)[..|s.started|]
  {
  }

  /** The throttle as the source's class: the same state held in fields. */
  class Throttle {
    const limit: nat
    const interval: int
    var queue: seq<TaskId>
    var activeCount: nat
    var intervalId: Option<TimerHandle>
    // The source's own state is `queue`, `activeCount` and `intervalId`.
    // `timersCreated` stands for the fresh handles `setInterval` returns and
    // `submitted` for the identity of each closure pushed on the queue; the
    // remaining fields are bookkeeping for the proofs only.
    var timersCreated: nat
    var submitted: nat
    ghost var started: seq<TaskId>
    ghost var running: set<TaskId>
    ghost var outcomes: map<TaskId, Outcome>

    ghost function State(): Sched
      reads this
    {
      Sched(limit, queue, activeCount, intervalId, timersCreated, submitted,
            started, running, outcomes)
    }

    ghost predicate Valid()
      reads this
    {
      Inv(State())
    }

    /** A throttle with a valid limit; `Create` applies the guard. */
    constructor (limit: nat, interval: int)
      requires limit >= 1
      ensures Valid()
      ensures State() == Initial(limit) && this.interval == interval
    {
      this.limit := limit;
      this.interval := interval;
      queue := [];
      activeCount := 0;
      intervalId := None;
      timersCreated := 0;
      submitted := 0;
      started := [];
      running := {};
      outcomes := map[];
      InitialInv(limit);
    }

    /** `new Throttle(limit, interval)`, which throws when `limit < 1`. */
    static method Create(limit: int, interval: int) returns (r: Result<Throttle>)
      ensures r.Err? <==> limit < 1
      ensures r.Err? ==> r.message == LimitErrorMessage
      ensures r.Ok? ==> fresh(r.value) && r.value.Valid() && r.value.State() == Initial(limit)
    {
      var checked := CheckLimit(limit);
      match checked {
        case Err(message) =>
          r := Err(message);
        case Ok(l) =>
          var t := new Throttle(l, interval);
          r := Ok(t);
      }
    }

    method StartInterval()
      modifies this
      ensures State() == StartIntervalStep(old(State()))
    {
      if intervalId.None? {
        intervalId := Some(timersCreated);
        timersCreated := timersCreated + 1;
      }
    }

    method StopInterval()
      modifies this
      ensures State() == StopIntervalStep(old(State()))
    {
      if intervalId.Some? {
        intervalId := None;
      }
    }

    method ProcessQueue()
      modifies this
      ensures State() == ProcessQueueStep(old(State()))
    {
      while |queue| > 0 && activeCount < limit
        invariant Drain(State()) == Drain(old(State()))
        decreases |queue|
      {
        ghost var before := State();
        var next := queue[0];
        queue := queue[1..];
        activeCount := activeCount + 1;
        // `next()`: the task starts; it settles later through `Complete`.
        started := started + [next];
        running := running + {next};
        assert State() == StartHead(before);
      }
      if |queue| == 0 && activeCount == 0 {
        StopInterval();
      }
    }

    /** `add`: returns the id of the new task, whose promise is `outcomes[id]` once settled. */
    method Add() returns (id: TaskId)
      requires Valid()
      modifies this
      ensures Valid()
      ensures State() == AddStep(old(State()))
      ensures id == old(submitted) && submitted == id + 1
      ensures intervalId.Some? && (old(intervalId).Some? ==> intervalId == old(intervalId))
      ensures outcomes == old(outcomes)
      ensures old(activeCount) < limit ==>
                && started == old(started) + [id] && queue == [] && activeCount == old(activeCount) + 1
                && running == old(running) + {id}
      ensures old(activeCount) == limit ==>
                && started == old(started) && queue == old(queue) + [id] && activeCount == limit
                && running == old(running)
    {
      ghost var s := State();
      StartInterval();
      id := submitted;
      queue := queue + [id];
      submitted := submitted + 1;
      ProcessQueue();
      AddKeepsInv(s);
      AddAdmission(s);
    }

    /** The completion handler of task `id` (`finally` after `resolve`/`reject`). */
    method Complete(id: TaskId, outcome: Outcome)
      requires Valid() && id in running
      modifies this
      ensures Valid()
      ensures State() == CompleteStep(old(State()), id, outcome)
      ensures outcomes == old(outcomes)[id := outcome] && submitted == old(submitted)
      ensures |old(queue)| > 0 ==>
                started == old(started) + [old(queue)[0]] && queue == old(queue)[1..]
                && activeCount == old(activeCount)
      ensures |old(queue)| == 0 ==>
                started == old(started) && queue == [] && activeCount == old(activeCount) - 1
      ensures intervalId.None? <==> (queue == [] && activeCount == 0)
    {
      ghost var s := State();
      SettleKeepsCore(s, id, outcome);
      outcomes := outcomes[id := outcome];
      activeCount := activeCount - 1;
      running := running - {id};
      ProcessQueue();
      CompleteKeepsInv(s, id, outcome);
      CompleteAdmission(s, id, outcome);
    }

    /** A firing of the periodic timer, which only happens while one is live. */
    method Tick()
      requires Valid() && intervalId.Some?
      modifies this
      ensures Valid()
      ensures State() == ProcessQueueStep(old(State()))
      ensures State() == old(State())
    {
      ghost var s := State();
      ProcessQueue();
      TickAtRestIsNoOp(s);
    }
  }

  // One-step closed forms for the cases the unit tests go through, stated
  // without the invariant so that they apply to literal states directly.

  /** `add` with an empty queue and a free slot starts the new task at once. */
  lemma AddToFreeSlot(s: Sched)
    requires s.queue == [] && s.activeCount < s.limit
    ensures AddStep(s) == StartIntervalStep(s).(submitted := s.submitted + 1,
              activeCount := s.activeCount + 1, started := s.started + [s.submitted],
              running := s.running + {s.submitted})
  {
    var e := Enqueue(StartIntervalStep(s));
    DrainClosedForm(e);
    assert Admitted(e) == 1;
    assert Elems([s.submitted]) == {s.submitted};
  }

  /** `add` with every slot taken puts the new task at the tail of the queue. */
  lemma AddWhenFull(s: Sched)
    requires s.activeCount >= s.limit
    ensures AddStep(s) == StartIntervalStep(s).(queue := s.queue + [s.submitted],
              submitted := s.submitted + 1)
  {
    var e := Enqueue(StartIntervalStep(s));
    DrainClosedForm(e);
    assert e.queue[0..] == e.queue;
  }

  /** A completion while tasks wait and every slot is taken starts the head of
    * the queue in the freed slot. */
  lemma CompleteHandsOn(s: Sched, id: TaskId, outcome: Outcome)
    requires id in s.running && 0 < s.activeCount == s.limit && |s.queue| > 0
    ensures CompleteStep(s, id, outcome)
         == s.(queue := s.queue[1..], started := s.started + [s.queue[0]],
               running := s.running - {id} + {s.queue[0]},
               outcomes := s.outcomes[id := outcome])
  {
    var st := SettleStep(s, id, outcome);
    DrainClosedForm(st);
    assert Admitted(st) == 1;
    assert st.queue[..1] == [s.queue[0]];
    assert Elems([s.queue[0]]) == {s.queue[0]};
  }

  /** A completion with nothing waiting frees the slot, and clears the timer
    * when it was the last task in flight. */
  lemma CompleteWithEmptyQueue(s: Sched, id: TaskId, outcome: Outcome)
    requires id in s.running && s.activeCount > 0 && s.queue == []
    ensures var x := s.(activeCount := s.activeCount - 1, running := s.running - {id},
                        outcomes := s.outcomes[id := outcome]);
      CompleteStep(s, id, outcome) == if s.activeCount == 1 then x.(intervalId := None) else x
  {
    var st := SettleStep(s, id, outcome);
    DrainClosedForm(st);
    assert st.queue[0..] == st.queue;
    assert Elems(st.queue[..0]) == {};
  }

  // The unit tests' scenarios, as traces of the step functions through
  // literal states. A state is written
  // Sched(limit, queue, activeCount, intervalId, timersCreated, submitted,
  //       started, running, outcomes).
  // Each proof names the one-step closed form that applies at each step.

  /** Back-to-back adds with limit 2: tasks 0 and 1 start at once, one timer
    * is created by the first add and kept, tasks 2 and 3 wait in order. */
  lemma BackToBackAddsLimitTwo()
    ensures AddStep(Initial(2)) == Sched(2, [], 1, Some(0), 1, 1, [0], {0}, map[])
    ensures AddStep(Sched(2, [], 1, Some(0), 1, 1, [0], {0}, map[]))
         == Sched(2, [], 2, Some(0), 1, 2, [0, 1], {0, 1}, map[])
    ensures AddStep(Sched(2, [], 2, Some(0), 1, 2, [0, 1], {0, 1}, map[]))
         == Sched(2, [2], 2, Some(0), 1, 3, [0, 1], {0, 1}, map[])
    ensures AddStep(Sched(2, [2], 2, Some(0), 1, 3, [0, 1], {0, 1}, map[]))
         == Sched(2, [2, 3], 2, Some(0), 1, 4, [0, 1], {0, 1}, map[])
  {
    AddToFreeSlot(Initial(2));
    AddToFreeSlot(Sched(2, [], 1, Some(0), 1, 1, [0], {0}, map[]));
    AddWhenFull(Sched(2, [], 2, Some(0), 1, 2, [0, 1], {0, 1}, map[]));
    AddWhenFull(Sched(2, [2], 2, Some(0), 1, 3, [0, 1], {0, 1}, map[]));
  }

  /** After three adds with limit 2, each completion hands its slot on, every
    * promise receives its own value, and the last one clears the timer. */
  lemma WithinLimitCompletions()
    ensures CompleteStep(Sched(2, [2], 2, Some(0), 1, 3, [0, 1], {0, 1}, map[]), 0, Resolved("result"))
         == Sched(2, [], 2, Some(0), 1, 3, [0, 1, 2], {1, 2}, map[0 := Resolved("result")])
    ensures CompleteStep(Sched(2, [], 2, Some(0), 1, 3, [0, 1, 2], {1, 2}, map[0 := Resolved("result")]),
                         1, Resolved("result"))
         == Sched(2, [], 1, Some(0), 1, 3, [0, 1, 2], {2},
                  map[0 := Resolved("result"), 1 := Resolved("result")])
    ensures CompleteStep(Sched(2, [], 1, Some(0), 1, 3, [0, 1, 2], {2},
                               map[0 := Resolved("result"), 1 := Resolved("result")]),
                         2, Resolved("result"))
         == Sched(2, [], 0, None, 1, 3, [0, 1, 2], {},
                  map[0 := Resolved("result"), 1 := Resolved("result"), 2 := Resolved("result")])
  {
    CompleteHandsOn(Sched(2, [2], 2, Some(0), 1, 3, [0, 1], {0, 1}, map[]), 0, Resolved("result"));
    CompleteWithEmptyQueue(Sched(2, [], 2, Some(0), 1, 3, [0, 1, 2], {1, 2}, map[0 := Resolved("result")]),
                           1, Resolved("result"));
    CompleteWithEmptyQueue(Sched(2, [], 1, Some(0), 1, 3, [0, 1, 2], {2},
                                 map[0 := Resolved("result"), 1 := Resolved("result")]),
                           2, Resolved("result"));
  }

  /** After four adds with limit 2, a tick starts nothing while both slots are
    * taken, and each completion starts the next waiting task. */
  lemma RateLimitCompletions()
    ensures ProcessQueueStep(Sched(2, [2, 3], 2, Some(0), 1, 4, [0, 1], {0, 1}, map[]))
         == Sched(2, [2, 3], 2, Some(0), 1, 4, [0, 1], {0, 1}, map[])
    ensures CompleteStep(Sched(2, [2, 3], 2, Some(0), 1, 4, [0, 1], {0, 1}, map[]), 0, Resolved("task1"))
         == Sched(2, [3], 2, Some(0), 1, 4, [0, 1, 2], {1, 2}, map[0 := Resolved("task1")])
    ensures CompleteStep(Sched(2, [3], 2, Some(0), 1, 4, [0, 1, 2], {1, 2}, map[0 := Resolved("task1")]),
                         1, Resolved("task2"))
         == Sched(2, [], 2, Some(0), 1, 4, [0, 1, 2, 3], {2, 3},
                  map[0 := Resolved("task1"), 1 := Resolved("task2")])
  {
    DrainClosedForm(Sched(2, [2, 3], 2, Some(0), 1, 4, [0, 1], {0, 1}, map[]));
    CompleteHandsOn(Sched(2, [2, 3], 2, Some(0), 1, 4, [0, 1], {0, 1}, map[]), 0, Resolved("task1"));
    CompleteHandsOn(Sched(2, [3], 2, Some(0), 1, 4, [0, 1, 2], {1, 2}, map[0 := Resolved("task1")]),
                    1, Resolved("task2"));
  }

  /** With limit 1, a task is added and awaited, then a failing one: the first
    * promise resolves, the throttle goes idle and clears its timer, the next
    * add creates a new timer, and the second promise rejects. */
  lemma ResolveThenRejectLimitOne()
    ensures AddStep(Initial(1)) == Sched(1, [], 1, Some(0), 1, 1, [0], {0}, map[])
    ensures CompleteStep(Sched(1, [], 1, Some(0), 1, 1, [0], {0}, map[]), 0, Resolved("success"))
         == Sched(1, [], 0, None, 1, 1, [0], {}, map[0 := Resolved("success")])
    ensures AddStep(Sched(1, [], 0, None, 1, 1, [0], {}, map[0 := Resolved("success")]))
         == Sched(1, [], 1, Some(1), 2, 2, [0, 1], {1}, map[0 := Resolved("success")])
    ensures CompleteStep(Sched(1, [], 1, Some(1), 2, 2, [0, 1], {1}, map[0 := Resolved("success")]),
                         1, Rejected("failure"))
         == Sched(1, [], 0, None, 2, 2, [0, 1], {},
                  map[0 := Resolved("success"), 1 := Rejected("failure")])
  {
    AddToFreeSlot(Initial(1));
    CompleteWithEmptyQueue(Sched(1, [], 1, Some(0), 1, 1, [0], {0}, map[]), 0, Resolved("success"));
    AddToFreeSlot(Sched(1, [], 0, None, 1, 1, [0], {}, map[0 := Resolved("success")]));
    CompleteWithEmptyQueue(Sched(1, [], 1, Some(1), 2, 2, [0, 1], {1}, map[0 := Resolved("success")]),
                           1, Rejected("failure"));
  }

  /** With limit 1, a task that rejects delivers its error to its own promise
    * only; the task queued behind it starts and resolves normally, and the
    * timer ends cleared. */
  lemma RejectionDoesNotBlockQueue()
    ensures AddStep(Sched(1, [], 1, Some(0), 1, 1, [0], {0}, map[]))
         == Sched(1, [1], 1, Some(0), 1, 2, [0], {0}, map[])
    ensures CompleteStep(Sched(1, [1], 1, Some(0), 1, 2, [0], {0}, map[]), 0, Rejected("failure"))
         == Sched(1, [], 1, Some(0), 1, 2, [0, 1], {1}, map[0 := Rejected("failure")])
    ensures CompleteStep(Sched(1, [], 1, Some(0), 1, 2, [0, 1], {1}, map[0 := Rejected("failure")]),
                         1, Resolved("success"))
         == Sched(1, [], 0, None, 1, 2, [0, 1], {},
                  map[0 := Rejected("failure"), 1 := Resolved("success")])
  {
    AddWhenFull(Sched(1, [], 1, Some(0), 1, 1, [0], {0}, map[]));
    CompleteHandsOn(Sched(1, [1], 1, Some(0), 1, 2, [0], {0}, map[]), 0, Rejected("failure"));
    CompleteWithEmptyQueue(Sched(1, [], 1, Some(0), 1, 2, [0, 1], {1}, map[0 := Rejected("failure")]),
                           1, Resolved("success"));
  }

  /** Two tasks added and awaited one after the other leave no timer behind. */
  method StopsIntervalScenario() returns (handle: Option<TimerHandle>)
    ensures handle == None
  {
    var t := new Throttle(2, 1000);
    var a := t.Add();
    t.Complete(a, Resolved("result"));
    var b := t.Add();
    t.Complete(b, Resolved("result"));
    handle := t.intervalId;
  }

  /** `new Throttle(0, 1000)` throws "Limit must be greater than 0". */
  method InvalidLimitScenario() returns (r: Result<Throttle>)
    ensures r == Err("Limit must be greater than 0")
  {
    r := Throttle.Create(0, 1000);
  }
}
