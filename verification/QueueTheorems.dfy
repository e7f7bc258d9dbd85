/** What every interleaving of the backup queue guarantees, and where its teardown can fail to return. */
module QueueTheorems {
  import opened Options
  import opened WideText
  import opened Tally
  import opened QueueModel
  import opened QueueInvariant

  lemma ReachableInv(size: nat, s: State)
    requires Reachable(size, s)
    ensures Inv(s)
  {
    var acts: seq<Action> :| Run(Initial(size), acts) == Some(s);
    InitialInv(size);
    RunInv(Initial(size), acts);
  }

  // ----- no lost work wakeup -----

  /** Work on the list never waits unnoticed: a waiting worker can go, or the inserting call is about to signal. */
  lemma NoLostWakeup(size: nat, s: State, i: nat)
    requires Reachable(size, s) && s.q.list != [] && i < |s.workers| && s.workers[i].Wait?
    ensures Next(s, Work(i, false, false, Undelivered)).Some?
      || exists n :: n in s.calls && s.calls[n].pc.Signal?
           && Next(s, Advance(n, false, Undelivered)).Some?
           && Next(s, Advance(n, false, Undelivered)).value.q.event
  {
    ReachableInv(size, s);
    assert EventInv(s.q.list, s.q.event, s.calls);
    hide Inv;
    if !s.q.event {
      var n :| n in s.calls && s.calls[n].pc.Signal?;
      SignalSets(s, n);
    }
  }

  lemma SignalSets(s: State, n: nat)
    requires n in s.calls && s.calls[n].pc.Signal?
    ensures Next(s, Advance(n, false, Undelivered)).Some?
    ensures Next(s, Advance(n, false, Undelivered)).value.q.event
  {}

  // ----- the lock-free cap -----

  lemma CapHolds(size: nat, s: State)
    requires Reachable(size, s)
    ensures s.q.depth == |s.q.list| + Count(s.calls, Reserving) + Undecremented(s.q.lock, s.workers)
    ensures 0 <= |s.q.list| <= s.q.depth
    ensures |s.q.list| + Count(s.calls, Admitted) <= MAX_DEPTH
  {
    ReachableInv(size, s);
  }

  /** Depth may overshoot the cap, by no more than the calls that are about to take their increment back. */
  lemma OvershootIsRefused(size: nat, s: State)
    requires Reachable(size, s)
    ensures s.q.depth <= MAX_DEPTH + Count(s.calls, (c: Call) => c.pc.Undo?) + Undecremented(s.q.lock, s.workers)
  {
    ReachableInv(size, s);
    CountSplit(s.calls, Admitted, (c: Call) => c.pc.Undo?, Reserving);
  }

  // ----- conservation -----

  predicate Inserted(p: Place) { !p.Carried? }

  function Hands(workers: seq<Worker>): set<nat> {
    set i: nat | i < |workers| && InHand(workers[i])
  }

  function DrainHand(c: Control): nat {
    if c.DrainDecrement? || c.DrainFree? then 1 else 0
  }

  function IdAt(list: seq<Item>, j: nat): nat {
    if j < |list| then list[j].id else 0
  }

  lemma QueuedCount(s: State)
    requires MemoryInv(s)
    ensures Count(s.m.place, (p: Place) => p.Queued?) == |s.q.list|
  {
    var index, queued := Below(|s.q.list|), Matching(s.m.place, (p: Place) => p.Queued?);
    forall k | k in queued ensures exists j :: j in index && IdAt(s.q.list, j) == k {
      assert Owned(k, s.m.place[k], s.q.list, s.calls, s.workers, s.control);
      var j: nat :| j < |s.q.list| && s.q.list[j].id == k;
      assert j in index && IdAt(s.q.list, j) == k;
    }
    SameSize(index, queued, (j: nat) => IdAt(s.q.list, j));
  }

  function HolderAt(place: map<nat, Place>, k: nat): nat {
    if k in place && place[k].Held? then place[k].worker else 0
  }

  lemma HeldCount(s: State)
    requires MemoryInv(s)
    ensures Count(s.m.place, (p: Place) => p.Held?) == |Hands(s.workers)|
  {
    var held := Matching(s.m.place, (p: Place) => p.Held?);
    forall k | k in held
      ensures HolderAt(s.m.place, k) in Hands(s.workers) && s.workers[HolderAt(s.m.place, k)].item.id == k
    {
      assert Owned(k, s.m.place[k], s.q.list, s.calls, s.workers, s.control);
    }
    forall i | i in Hands(s.workers) ensures exists k :: k in held && HolderAt(s.m.place, k) == i {
      assert s.workers[i].item.id in held;
    }
    SameSize(held, Hands(s.workers), (k: nat) => HolderAt(s.m.place, k));
  }

  lemma DrainCount(s: State)
    requires MemoryInv(s)
    ensures Count(s.m.place, (p: Place) => p.Draining?) == DrainHand(s.control)
  {
    var draining := Matching(s.m.place, (p: Place) => p.Draining?);
    forall k | k in draining ensures DrainHand(s.control) == 1 && k == s.control.item.id {
      assert Owned(k, s.m.place[k], s.q.list, s.calls, s.workers, s.control);
    }
    assert draining == if DrainHand(s.control) == 1 then {s.control.item.id} else {};
  }

  lemma SettledCount(s: State)
    requires MemoryInv(s)
    ensures Count(s.m.place, (p: Place) => p.Spent? || p.Freed?)
      == s.q.sent + s.q.sendFailed + Count(s.m.place, p => OfFate(p, Excluded))
          + Count(s.m.place, p => OfFate(p, Discarded))
  {
    CountSplit(s.m.place, p => OfFate(p, Sent), p => OfFate(p, SendFailed),
      p => OfFate(p, Sent) || OfFate(p, SendFailed));
    CountSplit(s.m.place, p => OfFate(p, Excluded), p => OfFate(p, Discarded),
      p => OfFate(p, Excluded) || OfFate(p, Discarded));
    CountSplit(s.m.place, p => OfFate(p, Sent) || OfFate(p, SendFailed),
      p => OfFate(p, Excluded) || OfFate(p, Discarded),
      (p: Place) => p.Spent? || p.Freed?);
  }

  /**
   Every item that was ever inserted is in exactly one place, so the totals balance: on the list,
   in a worker's hand, in the drain's hand, or settled as sent, failed, excluded or discarded.
   */
  lemma ItemsAreConserved(size: nat, s: State)
    requires Reachable(size, s)
    ensures Count(s.m.place, Inserted)
      == |s.q.list| + |Hands(s.workers)| + DrainHand(s.control) + s.q.sent + s.q.sendFailed
         + Count(s.m.place, p => OfFate(p, Excluded)) + Count(s.m.place, p => OfFate(p, Discarded))
  {
    ReachableInv(size, s);
    QueuedCount(s);
    HeldCount(s);
    DrainCount(s);
    CountSplit(s.m.place, (p: Place) => p.Queued?, (p: Place) => p.Held?, (p: Place) => p.Queued? || p.Held?);
    CountSplit(s.m.place, (p: Place) => p.Queued? || p.Held?, (p: Place) => p.Draining?,
      (p: Place) => p.Queued? || p.Held? || p.Draining?);
    SettledCount(s);
    CountSplit(s.m.place, (p: Place) => p.Queued? || p.Held? || p.Draining?,
      (p: Place) => p.Spent? || p.Freed?, Inserted);
  }

  /** The inserted items are exactly the async ids issued that are no longer in the hand of the call. */
  lemma InsertedItems(size: nat, s: State, k: nat)
    requires Reachable(size, s)
    ensures k in s.m.issued && s.m.issued[k].Async? <==> k in s.m.place
    ensures k in s.m.place && s.m.place[k].Carried? ==>
      s.m.place[k].call in s.calls && s.calls[s.m.place[k].call].pc.Insert?
          && s.calls[s.m.place[k].call].pc.item.id == k
  {
    ReachableInv(size, s);
    if k in s.m.place {
      assert Owned(k, s.m.place[k], s.q.list, s.calls, s.workers, s.control);
    }
  }

  /**
   An enqueue that is over, on its own or as the fallback of a synchronous send, was refused for
   lack of room or memory exactly when it bumped Dropped; a call of its own returns that status.
   */
  lemma RefusedExactlyWhenDropped(size: nat, s: State, n: nat)
    requires Reachable(size, s) && n in s.calls
    ensures var c := s.calls[n];
      && (c.enqueueResult.Some? ==> (c.enqueueResult == Some(InsufficientResources) <==> c.countedDrop))
      && (!c.sync && c.pc.Returned? ==> (c.pc.st == InsufficientResources <==> c.countedDrop))
    ensures s.q.dropped == Count(s.calls, CountedDrop)
  {
    ReachableInv(size, s);
    assert DropStory(s.calls[n]);
  }

  /** No two requests carry the same id, whichever way they travel. */
  lemma IdsAreDistinct(size: nat, s: State, n: nat, m: nat)
    requires Reachable(size, s) && n in s.calls && m in s.calls
    ensures n != m && s.calls[n].asyncId.Some? ==> s.calls[n].asyncId != s.calls[m].asyncId
    ensures n != m && s.calls[n].syncId.Some? ==> s.calls[n].syncId != s.calls[m].syncId
    ensures s.calls[n].asyncId.Some? ==> s.calls[n].asyncId != s.calls[m].syncId
  {
    ReachableInv(size, s);
    assert OwnIds(s.m.issued, n, s.calls[n]) && OwnIds(s.m.issued, m, s.calls[m]);
  }

  // ----- teardown -----

  /** Neither inside an enqueue nor inside a sync send. */
  predicate Outside(c: Call) { !InEnqueue(c) && !InSync(c) }

  lemma NobodyInside(s: State)
    requires Inv(s) && PastRundown(s.control)
    ensures forall n :: n in s.calls ==> Outside(s.calls[n])
  {
    CountZero(s.calls, InEnqueue);
    CountZero(s.calls, InSync);
  }

  /**
   When knFcQueueUninitialize returns, whichever way the start went, nothing is left: no item, no
   reservation, no running worker, no call inside, and every item was freed exactly once.
   */
  lemma TeardownIsClean(size: nat, s: State)
    requires Reachable(size, s) && s.control.Finished?
    ensures s.q.list == [] && s.q.depth == 0 && s.q.lock == Unlocked && s.q.rundownRefs == 0
    ensures forall i :: 0 <= i < |s.workers| ==> s.workers[i].Exited?
    ensures forall n :: n in s.calls ==> Outside(s.calls[n])
    ensures forall k: nat :: s.m.frees[k] == if k in s.m.issued && s.m.issued[k].Async? then 1 else 0
  {
    ReachableInv(size, s);
    NobodyInside(s);
    CountZero(s.calls, Reserving);
    forall k | k in s.m.place ensures s.m.place[k].Freed? {
      assert Owned(k, s.m.place[k], s.q.list, s.calls, s.workers, s.control);
    }
  }

  /** At no moment of any interleaving has an item been freed twice. */
  lemma NoDoubleFree(size: nat, s: State, k: nat)
    requires Reachable(size, s)
    ensures s.m.frees[k] <= 1
  {
    ReachableInv(size, s);
  }

  /** A call that begins after teardown: it is refused at the door. */
  predicate TurnedAway(c: Call) {
    && c.frame.Direct?
    && (c.pc.EnterRundown? || c.pc.SyncEnterRundown? || c.pc.Returned?)
    && (c.req.path == [] ==> c.pc.Returned?)
    && (c.pc.Returned? ==> c.pc.st == if c.req.path == [] then InvalidParameter else DeviceNotReady)
  }

  /** A call that had begun but not entered when teardown returned: it too is refused at the door. */
  predicate ShutOut(c: Call) {
    (c.pc.EnterRundown? && c.frame.Direct?) || c.pc.SyncEnterRundown? || c.pc == Returned(DeviceNotReady)
  }

  ghost predicate SameQueue(s: State, u: State) {
    (u.q.list, u.q.depth, u.q.dropped, u.q.sent, u.q.sendFailed, u.q.syncSent, u.q.syncFailed, u.q.nextId, u.m.frees,
        u.control, u.q.rundownClosed)
    == (s.q.list, s.q.depth, s.q.dropped, s.q.sent, s.q.sendFailed, s.q.syncSent, s.q.syncFailed, s.q.nextId,
        s.m.frees, s.control, s.q.rundownClosed)
  }

  ghost predicate AfterTeardown(s: State, u: State) {
    && SameQueue(s, u) && u.workers == s.workers && u.q.lock == s.q.lock
    && s.calls.Keys <= u.calls.Keys
    && (forall n :: n in u.calls && n !in s.calls ==> TurnedAway(u.calls[n]))
    && (forall n :: n in s.calls ==> if s.calls[n].pc.Returned? then u.calls[n] == s.calls[n] else ShutOut(u.calls[n]))
    && (forall n :: n in u.calls ==> Outside(u.calls[n]))
  }

  lemma AfterTeardownAdvance(s: State, u: State, n: nat, poolOk: bool, reply: Reply)
    requires s.q.rundownClosed && AfterTeardown(s, u)
    requires n in u.calls && AdvanceCall(u, n, poolOk, reply).Some?
    ensures AfterTeardown(s, AdvanceCall(u, n, poolOk, reply).value)
  {
    assert u.calls[n].pc.EnterRundown? || u.calls[n].pc.SyncEnterRundown?;
  }

  lemma AfterTeardownStep(s: State, u: State, a: Action)
    requires s.control.Finished? && s.q.rundownClosed && AfterTeardown(s, u)
    requires forall i :: 0 <= i < |s.workers| ==> s.workers[i].Exited?
    requires Next(u, a).Some?
    ensures AfterTeardown(s, Next(u, a).value)
  {
    match a
    case Begin(_, _, _) =>
    case Advance(n, poolOk, reply) => AfterTeardownAdvance(s, u, n, poolOk, reply);
    case Work(_, _, _, _) =>
    case Manage(_) =>
  }

  /**
   Every call that enters once teardown has returned is refused, whenever it began, and the queue
   never changes again.
   */
  lemma {:induction false} LateCallsAreTurnedAway(size: nat, s: State, acts: seq<Action>)
    requires Reachable(size, s) && s.control.Finished? && Run(s, acts).Some?
    ensures AfterTeardown(s, Run(s, acts).value)
  {
    TeardownIsClean(size, s);
    ReachableInv(size, s);
    if acts != [] {
      LateCallsAreTurnedAway(size, s, acts[..|acts| - 1]);
      AfterTeardownStep(s, Run(s, acts[..|acts| - 1]).value, acts[|acts| - 1]);
    }
  }
}
