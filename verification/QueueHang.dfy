/**
 Can the queue's joins fail to return?  A stop signal is one Set of a notification event that any
 worker may clear, and a worker between its test of Stop and its wait can miss it.  With one worker
 this cannot happen; with two or more it can, in knFcQueueUninitialize as well as in the join of a
 worker whose start failed half-way, and then it is for ever.
 */
module QueueHang {
  import opened Options
  import opened WideText
  import opened QueueModel
  import opened QueueInvariant
  import opened QueueTheorems

  /** Teardown waits for a worker that waits for an event that is clear. */
  predicate HungStop(s: State) {
    && s.control.Join? && !s.q.event
    && exists i :: s.control.next <= i < s.threadCount && i < |s.workers| && s.workers[i].Wait?
  }

  /** Stop is set, and this call has not got past its test of Stop: it will not set the event. */
  predicate Barred(c: Call) {
    !c.pc.Reserve? && !c.pc.Allocate? && !c.pc.Insert? && !c.pc.Signal?
  }

  /** The failed start waits for its last worker, which waits for an event that nobody is left to set. */
  predicate HungStart(s: State) {
    && s.control.StartFailJoin? && s.q.stop && !s.q.event
    && s.workers != [] && s.workers[|s.workers| - 1].Wait?
    && (forall n :: n in s.calls ==> Barred(s.calls[n]))
  }

  predicate Hung(s: State) { HungStop(s) || HungStart(s) }

  ghost predicate StopHangs(size: nat) {
    exists s :: Reachable(size, s) && HungStop(s)
  }

  ghost predicate StartHangs(size: nat) {
    exists s :: Reachable(size, s) && HungStart(s)
  }

  lemma HungAdvance(s: State, n: nat, poolOk: bool, reply: Reply)
    requires HungStop(s) && n in s.calls && Outside(s.calls[n]) && AdvanceCall(s, n, poolOk, reply).Some?
    ensures HungStop(AdvanceCall(s, n, poolOk, reply).value)
  {
    assert s.calls[n].pc.EnterRundown? || s.calls[n].pc.SyncEnterRundown?;
  }

  lemma HungWork(s: State, i: nat, excluded: bool, poolOk: bool, reply: Reply)
    requires HungStop(s) && i < |s.workers| && WorkStep(s, i, excluded, poolOk, reply).Some?
    ensures HungStop(WorkStep(s, i, excluded, poolOk, reply).value)
  {
    var k :| s.control.next <= k < s.threadCount && k < |s.workers| && s.workers[k].Wait?;
    assert WorkStep(s, i, excluded, poolOk, reply).value.workers[k].Wait?;
  }

  lemma HungStopStep(s: State, a: Action)
    requires Inv(s) && HungStop(s) && Next(s, a).Some?
    ensures HungStop(Next(s, a).value)
  {
    NobodyInside(s);
    hide Inv;
    match a
    case Begin(_, _, _) =>
    case Advance(n, poolOk, reply) => HungAdvance(s, n, poolOk, reply);
    case Work(i, excluded, poolOk, reply) => HungWork(s, i, excluded, poolOk, reply);
    case Manage(_) =>
  }

  lemma BarredAdvance(s: State, n: nat, poolOk: bool, reply: Reply)
    requires HungStart(s) && n in s.calls && AdvanceCall(s, n, poolOk, reply).Some?
    ensures HungStart(AdvanceCall(s, n, poolOk, reply).value)
  {
    BarredStep(s.q, s.m, n, s.calls[n], poolOk, reply);
    hide CallStep, Barred;
  }

  lemma BarredStep(q: Queue, m: Memory, n: nat, c: Call, poolOk: bool, reply: Reply)
    requires q.stop && Barred(c) && CallStep(q, m, n, c, poolOk, reply).Some?
    ensures var e := CallStep(q, m, n, c, poolOk, reply).value;
      Barred(e.call) && e.q.stop && e.q.event == q.event
  {}

  lemma HungStartStep(s: State, a: Action)
    requires HungStart(s) && Next(s, a).Some?
    ensures HungStart(Next(s, a).value)
  {
    match a
    case Begin(_, _, _) =>
    case Advance(n, poolOk, reply) => BarredAdvance(s, n, poolOk, reply);
    case Work(_, _, _, _) =>
    case Manage(_) =>
  }

  /** A missed stop signal is missed for ever: nothing that can still run sets the event. */
  lemma {:induction false} HungForEver(size: nat, s: State, acts: seq<Action>)
    requires Reachable(size, s) && Hung(s) && Run(s, acts).Some?
    ensures Hung(Run(s, acts).value) && !Run(s, acts).value.control.Finished?
  {
    ReachableInv(size, s);
    if acts != [] {
      HungForEver(size, s, acts[..|acts| - 1]);
      RunInv(s, acts[..|acts| - 1]);
      var t := Run(s, acts[..|acts| - 1]).value;
      hide Inv;
      if HungStop(t) { HungStopStep(t, acts[|acts| - 1]); } else { HungStartStep(t, acts[|acts| - 1]); }
      hide Next;
    }
  }

  // ----- one worker -----

  /** Once the final signal is given, the only worker there is cannot be left waiting. */
  ghost predicate SingleInv(s: State) {
    && |s.workers| <= s.size <= 1
    && (s.control.Join? || s.control.StartFailJoin? ==>
          forall i :: 0 <= i < |s.workers| && s.workers[i].Wait? ==> s.q.event)
  }

  lemma SingleWork(s: State, i: nat, excluded: bool, poolOk: bool, reply: Reply)
    requires SingleInv(s) && (s.control.Join? || s.control.StartFailJoin? ==> s.q.stop)
    requires i < |s.workers| && WorkStep(s, i, excluded, poolOk, reply).Some?
    ensures SingleInv(WorkStep(s, i, excluded, poolOk, reply).value)
  {}

  lemma SingleAdvance(s: State, n: nat, poolOk: bool, reply: Reply)
    requires SingleInv(s) && n in s.calls && AdvanceCall(s, n, poolOk, reply).Some?
    ensures SingleInv(AdvanceCall(s, n, poolOk, reply).value)
  {
    assert s.q.event ==> AdvanceCall(s, n, poolOk, reply).value.q.event;
  }

  lemma SingleStep(s: State, a: Action)
    requires Inv(s) && SingleInv(s) && Next(s, a).Some?
    ensures SingleInv(Next(s, a).value)
  {
    assert s.control.Join? || s.control.StartFailJoin? ==> s.q.stop;
    hide Inv;
    match a
    case Begin(_, _, _) =>
    case Advance(n, poolOk, reply) => SingleAdvance(s, n, poolOk, reply);
    case Work(i, excluded, poolOk, reply) => SingleWork(s, i, excluded, poolOk, reply);
    case Manage(_) =>
  }

  lemma {:induction false} SingleWorkerNeverHangs(size: nat, acts: seq<Action>)
    requires size <= 1 && Run(Initial(size), acts).Some?
    ensures SingleInv(Run(Initial(size), acts).value) && !Hung(Run(Initial(size), acts).value)
  {
    if acts != [] {
      SingleWorkerNeverHangs(size, acts[..|acts| - 1]);
      InitialInv(size);
      RunInv(Initial(size), acts[..|acts| - 1]);
      SingleStep(Run(Initial(size), acts[..|acts| - 1]).value, acts[|acts| - 1]);
    }
  }

  // ----- two or more workers -----

  lemma Extend(size: nat, s: State, a: Action)
    requires Reachable(size, s) && Next(s, a).Some?
    ensures Reachable(size, Next(s, a).value)
  {
    hide Next, Initial;
    var acts: seq<Action> :| Run(Initial(size), acts) == Some(s);
    assert (acts + [a])[..|acts|] == acts;
    assert Run(Initial(size), acts + [a]) == Next(s, a);
  }

  function Idle(n: nat): seq<Worker> { seq(n, _ => Top) }

  lemma {:induction false} AllStarted(size: nat, n: nat)
    requires n <= size
    ensures Reachable(size, Initial(size).(threadCount := n, workers := Idle(n)))
  {
    if n == 0 {
      assert Run(Initial(size), []) == Some(Initial(size));
      assert Idle(0) == [];
    } else {
      AllStarted(size, n - 1);
      Extend(size, Initial(size).(threadCount := n - 1, workers := Idle(n - 1)), Manage(Started));
      assert Idle(n - 1) + [Top] == Idle(n);
    }
  }

  /** One action of worker i that involves no message. */
  function Worked(i: nat): Action { Work(i, false, false, Undelivered) }

  lemma Step(size: nat, s: State, a: Action) returns (t: State)
    requires Reachable(size, s) && Next(s, a).Some?
    ensures t == Next(s, a).value && Reachable(size, t)
  {
    Extend(size, s, a);
    t := Next(s, a).value;
  }

  /** A started pool with an empty queue and nobody in it. */
  predicate Calm(s: State, size: nat) {
    && |s.workers| == s.size == s.threadCount == size && s.q.list == [] && s.q.lock == Unlocked && s.q.rundownRefs == 0
    && size >= 2 && s.workers[1].Wait?
  }

  /** Workers 0 and 1 test Stop and go on to the wait. */
  lemma BothTestStop(size: nat) returns (s: State)
    requires size >= 2
    ensures Reachable(size, s) && Calm(s, size) && s.control.Starting? && s.workers[0].Wait?
  {
    AllStarted(size, size);
    s := Initial(size).(threadCount := size, workers := Idle(size));
    s := Step(size, s, Worked(0));
    s := Step(size, s, Worked(1));
  }

  lemma StopIsSet(size: nat) returns (s: State)
    requires size >= 2
    ensures Reachable(size, s) && Calm(s, size) && s.control.CloseRundown? && s.workers[0].Wait?
  {
    s := BothTestStop(size);
    s := Step(size, s, Manage(Started));
    s := Step(size, s, Manage(Started));
    s := Step(size, s, Manage(Started));
  }

  lemma EventIsSet(size: nat) returns (s: State)
    requires size >= 2
    ensures Reachable(size, s) && Calm(s, size) && s.control == Join(0) && s.q.event && s.workers[0].Wait?
  {
    s := StopIsSet(size);
    s := Step(size, s, Manage(Started));
    s := Step(size, s, Manage(Started));
    s := Step(size, s, Manage(Started));
  }

  /** Worker 0 wakes first, finds the list empty and clears the event; worker 1 reaches its wait too late. */
  lemma MissedStopSignal(size: nat) returns (s: State)
    requires size >= 2
    ensures Reachable(size, s) && HungStop(s)
  {
    s := EventIsSet(size);
    s := Step(size, s, Worked(0));
    s := Step(size, s, Worked(0));
    s := Step(size, s, Worked(0));
    assert s.workers[1].Wait?;
  }

  /** Worker 0 is started, worker 1 only half-way; both test Stop and go on to the wait. */
  lemma BothTestStopEarly(size: nat) returns (s: State)
    requires size >= 2
    ensures Reachable(size, s) && |s.workers| == 2 && s.workers[0].Wait? && s.workers[1].Wait?
    ensures s.control.StartFailStop? && s.q.list == [] && s.q.lock == Unlocked && s.calls == map[]
  {
    AllStarted(size, 1);
    s := Initial(size).(threadCount := 1, workers := Idle(1));
    s := Step(size, s, Manage(ReferenceFailed));
    s := Step(size, s, Worked(0));
    s := Step(size, s, Worked(1));
  }

  lemma StartSignalled(size: nat) returns (s: State)
    requires size >= 2
    ensures Reachable(size, s) && |s.workers| == 2 && s.workers[0].TakeLock? && s.workers[1].Wait?
    ensures s.control.StartFailJoin? && s.q.stop && s.q.list == [] && s.q.lock == Unlocked && s.calls == map[]
  {
    s := BothTestStopEarly(size);
    s := Step(size, s, Manage(Started));
    s := Step(size, s, Manage(Started));
    s := Step(size, s, Worked(0));
  }

  /** The failed start signals its half-started worker, and the other worker clears the signal first. */
  lemma MissedStartSignal(size: nat) returns (s: State)
    requires size >= 2
    ensures Reachable(size, s) && HungStart(s)
  {
    s := StartSignalled(size);
    s := Step(size, s, Worked(0));
    s := Step(size, s, Worked(0));
  }

  /** Either join is safe from the missed stop signal exactly when the pool has at most one worker. */
  lemma HangsExactlyWithSeveralWorkers(size: nat)
    ensures StopHangs(size) <==> size >= 2
    ensures StartHangs(size) <==> size >= 2
  {
    if size >= 2 {
      var s := MissedStopSignal(size);
      var t := MissedStartSignal(size);
    } else {
      forall s | Reachable(size, s) ensures !Hung(s) {
        var acts: seq<Action> :| Run(Initial(size), acts) == Some(s);
        SingleWorkerNeverHangs(size, acts);
      }
    }
  }

  /** The pool the driver starts is of the kind that can hang. */
  lemma DriverPoolCanHang()
    ensures StopHangs(WORKER_COUNT) && StartHangs(WORKER_COUNT)
  {
    HangsExactlyWithSeveralWorkers(WORKER_COUNT);
  }
}
