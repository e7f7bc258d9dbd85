/** The inductive invariant of the backup queue, one concern at a time. */
module QueueInvariant {
  import opened Options
  import opened WideText
  import opened Tally
  import opened QueueModel

  // ----- classes of program counters -----

  /** Holds one unit of Depth that is not a list entry. */
  predicate Reserving(c: Call) {
    c.pc.Allocate? || c.pc.Insert? || c.pc.Undo?
  }

  /** Passed the capacity check and may still insert. */
  predicate Admitted(c: Call) {
    c.pc.Allocate? || c.pc.Insert?
  }

  /** Inside the enqueue body, holding its own rundown reference. */
  predicate InEnqueue(c: Call) {
    Reserving(c) || c.pc.TestStop? || c.pc.Reserve? || c.pc.Signal? || c.pc.CountDrop? || c.pc.LeaveRundown?
  }

  predicate InSync(c: Call) {
    c.pc.SyncTestStop? || c.pc.SyncAllocate? || c.pc.SyncSend? || c.pc.SyncLeaveRundown?
    || (c.frame.Fallback? && (c.pc.EnterRundown? || InEnqueue(c)))
  }

  predicate CountedDrop(c: Call) { c.countedDrop }

  predicate HoldsLock(w: Worker) { w.Removed? || w.Clearing? }

  predicate InHand(w: Worker) { w.Removed? || w.Have? || w.Sending? }

  predicate OfFate(p: Place, f: Fate) { (p.Spent? || p.Freed?) && p.fate == f }

  /** Removed from the list, Depth not yet decremented. */
  function Undecremented(lock: Lock, workers: seq<Worker>): int {
    if lock.ByDrain? then 1
    else if lock.ByWorker? && lock.i < |workers| && workers[lock.i].Removed? then 1
    else 0
  }

  predicate Stopping(c: Control) {
    c.StartFailSignal? || c.StartFailJoin? || c.CloseRundown? || PastClose(c)
  }

  predicate PastClose(c: Control) { c.AwaitRundown? || PastRundown(c) }

  predicate PastRundown(c: Control) { c.FinalSignal? || c.Join? || PastJoin(c) }

  predicate Joining(c: Control) {
    c.SetStop? || c.CloseRundown? || c.AwaitRundown? || c.FinalSignal? || c.Join?
  }

  predicate PastJoin(c: Control) {
    c.DrainLock? || c.DrainDecrement? || c.DrainFree? || c.Finished?
  }

  // ----- the conjuncts -----

  ghost predicate LockInv(lock: Lock, list: seq<Item>, workers: seq<Worker>, control: Control) {
    && (forall i :: 0 <= i < |workers| && HoldsLock(workers[i]) ==> lock == ByWorker(i))
    && (lock.ByWorker? ==> lock.i < |workers| && HoldsLock(workers[lock.i]))
    && (lock.ByDrain? <==> control.DrainDecrement?)
    && (lock.ByWorker? && workers[lock.i].Clearing? ==> list == [])
  }

  ghost predicate DepthInv(depth: int, list: seq<Item>, calls: map<nat, Call>, lock: Lock, workers: seq<Worker>) {
    depth == |list| + Count(calls, Reserving) + Undecremented(lock, workers)
  }

  ghost predicate CapInv(list: seq<Item>, calls: map<nat, Call>) {
    |list| + Count(calls, Admitted) <= MAX_DEPTH
  }

  ghost predicate EventInv(list: seq<Item>, event: bool, calls: map<nat, Call>) {
    list != [] ==> event || exists n :: n in calls && calls[n].pc.Signal?
  }

  ghost predicate RundownInv(refs: int, calls: map<nat, Call>, control: Control) {
    && refs == Count(calls, InEnqueue) + Count(calls, InSync)
    && (PastRundown(control) ==> refs == 0)
  }

  ghost predicate FlagInv(stop: bool, closed: bool, control: Control) {
    && (closed <==> PastClose(control))
    && (Stopping(control) ==> stop)
  }

  ghost predicate WorkersInv(workers: seq<Worker>, threadCount: nat, control: Control) {
    && (control.Starting? || control.Running? ==> |workers| == threadCount)
    && (control.StartFailStop? || control.StartFailSignal? || control.StartFailJoin? ==> |workers| == threadCount + 1)
    && (Joining(control) ==> forall i :: threadCount <= i < |workers| ==> workers[i].Exited?)
    && (control.Join? ==> forall i :: 0 <= i < control.next && i < |workers| ==> workers[i].Exited?)
    && (PastJoin(control) ==> forall i :: 0 <= i < |workers| ==> workers[i].Exited?)
  }

  ghost predicate IssueInv(issued: map<nat, Issuer>, nextId: nat, place: map<nat, Place>) {
    && (forall k :: k in issued <==> 1 <= k <= nextId)
    && (forall k :: k in place <==> k in issued && issued[k].Async?)
  }

  ghost predicate IdInv(issued: map<nat, Issuer>, calls: map<nat, Call>) {
    forall n :: n in calls ==> OwnIds(issued, n, calls[n])
  }

  ghost predicate OwnIds(issued: map<nat, Issuer>, n: nat, c: Call) {
    && (c.asyncId.Some? ==> c.asyncId.value in issued && issued[c.asyncId.value] == Async(n))
    && (c.syncId.Some? ==> c.syncId.value in issued && issued[c.syncId.value] == Sync(n))
  }

  /** Everything that holds an item is where the item is. */
  ghost predicate CallPlaceInv(place: map<nat, Place>, calls: map<nat, Call>) {
    forall n :: n in calls && calls[n].pc.Insert? ==> At(place, calls[n].pc.item, Carried(n))
  }

  ghost predicate ListPlaceInv(place: map<nat, Place>, list: seq<Item>) {
    && (forall j :: 0 <= j < |list| ==> At(place, list[j], Queued))
    && (forall j, k :: 0 <= j < k < |list| ==> list[j].id != list[k].id)
  }

  ghost predicate WorkerPlaceInv(place: map<nat, Place>, workers: seq<Worker>) {
    forall i :: 0 <= i < |workers| ==>
      && (InHand(workers[i]) ==> At(place, workers[i].item, Held(i)))
      && (workers[i].Free? ==> At(place, workers[i].item, Spent(i, workers[i].fate)))
  }

  ghost predicate ControlPlaceInv(place: map<nat, Place>, control: Control) {
    control.DrainDecrement? || control.DrainFree? ==> At(place, control.item, Draining)
  }

  ghost predicate At(place: map<nat, Place>, item: Item, p: Place) {
    item.id in place && place[item.id] == p
  }

  /** The converse: no item is at a place that does not hold it. */
  ghost predicate OwnerInv(place: map<nat, Place>, list: seq<Item>, calls: map<nat, Call>, workers: seq<Worker>,
      control: Control) {
    forall k :: k in place ==> Owned(k, place[k], list, calls, workers, control)
  }

  ghost predicate Owned(k: nat, p: Place, list: seq<Item>, calls: map<nat, Call>, workers: seq<Worker>,
      control: Control) {
    match p
    case Carried(n) => n in calls && calls[n].pc.Insert? && calls[n].pc.item.id == k
    case Queued => Listed(k, list)
    case Held(i) => i < |workers| && InHand(workers[i]) && workers[i].item.id == k
    case Spent(i, f) => i < |workers| && workers[i].Free? && workers[i].fate == f && workers[i].item.id == k
    case Draining => (control.DrainDecrement? || control.DrainFree?) && control.item.id == k
    case Freed(_) => true
  }

  ghost predicate Listed(k: nat, list: seq<Item>) {
    exists j :: 0 <= j < |list| && list[j].id == k
  }

  ghost predicate FreeInv(frees: multiset<nat>, place: map<nat, Place>) {
    forall k: nat :: frees[k] == if k in place && place[k].Freed? then 1 else 0
  }

  ghost predicate CounterInv(sent: int, sendFailed: int, place: map<nat, Place>) {
    && sent == Count(place, p => OfFate(p, Sent))
    && sendFailed == Count(place, p => OfFate(p, SendFailed))
  }

  ghost predicate DropInv(dropped: int, calls: map<nat, Call>) {
    && dropped == Count(calls, CountedDrop)
    && (forall n :: n in calls ==> DropStory(calls[n]))
  }

  /** A call has counted a drop exactly when its enqueue is failing, or failed, for lack of room. */
  ghost predicate DropStory(c: Call) {
    && (c.countedDrop <==>
         c.pc == LeaveRundown(InsufficientResources) || c.enqueueResult == Some(InsufficientResources))
    && (c.enqueueResult.Some? ==> c.pc.Returned? || c.pc.SyncLeaveRundown?)
    && (!c.sync ==> c.frame.Direct? && !c.pc.SyncEnterRundown? && !InSync(c))
    && (!c.sync && c.pc.Returned? && c.pc.st != InvalidParameter ==> c.enqueueResult == Some(c.pc.st))
    && (!c.sync && c.enqueueResult.Some? ==> c.pc == Returned(c.enqueueResult.value))
  }

  ghost predicate Inv(s: State) {
    && LockInv(s.q.lock, s.q.list, s.workers, s.control)
    && DepthInv(s.q.depth, s.q.list, s.calls, s.q.lock, s.workers)
    && CapInv(s.q.list, s.calls)
    && EventInv(s.q.list, s.q.event, s.calls)
    && RundownInv(s.q.rundownRefs, s.calls, s.control)
    && FlagInv(s.q.stop, s.q.rundownClosed, s.control)
    && WorkersInv(s.workers, s.threadCount, s.control)
    && DropInv(s.q.dropped, s.calls)
    && (s.control.Finished? ==> s.q.list == [])
    && MemoryInv(s)
  }

  ghost predicate MemoryInv(s: State) {
    LedgerInv(s) && HolderInv(s)
  }

  ghost predicate LedgerInv(s: State) {
    && IssueInv(s.m.issued, s.q.nextId, s.m.place)
    && IdInv(s.m.issued, s.calls)
    && FreeInv(s.m.frees, s.m.place)
    && CounterInv(s.q.sent, s.q.sendFailed, s.m.place)
  }

  ghost predicate HolderInv(s: State) {
    && CallPlaceInv(s.m.place, s.calls)
    && ListPlaceInv(s.m.place, s.q.list)
    && WorkerPlaceInv(s.m.place, s.workers)
    && ControlPlaceInv(s.m.place, s.control)
    && OwnerInv(s.m.place, s.q.list, s.calls, s.workers, s.control)
  }

  lemma InitialInv(size: nat)
    ensures Inv(Initial(size))
  {
    var s := Initial(size);
    CountZero(s.calls, Reserving);
    CountZero(s.calls, Admitted);
    CountZero(s.calls, InEnqueue);
    CountZero(s.calls, InSync);
    CountZero(s.calls, CountedDrop);
    CountZero(s.m.place, p => OfFate(p, Sent));
    CountZero(s.m.place, p => OfFate(p, SendFailed));
  }

  // ----- counting -----

  lemma AdmittedBelowReserving(calls: map<nat, Call>)
    ensures Count(calls, Admitted) <= Count(calls, Reserving)
  {
    SubsetSize(Matching(calls, Admitted), Matching(calls, Reserving));
  }

  function Bit(b: bool): int { if b then 1 else 0 }

  /** A step of one call changes every count by that one call. */
  lemma CallCounts(calls: map<nat, Call>, n: nat, c: Call)
    ensures var u := calls[n := c];
      && Count(u, Reserving) == Count(calls, Reserving) - Weight(calls, Reserving, n) + Bit(Reserving(c))
      && Count(u, Admitted) == Count(calls, Admitted) - Weight(calls, Admitted, n) + Bit(Admitted(c))
      && Count(u, InEnqueue) == Count(calls, InEnqueue) - Weight(calls, InEnqueue, n) + Bit(InEnqueue(c))
      && Count(u, InSync) == Count(calls, InSync) - Weight(calls, InSync, n) + Bit(InSync(c))
      && Count(u, CountedDrop) == Count(calls, CountedDrop) - Weight(calls, CountedDrop, n) + Bit(c.countedDrop)
  {
    CountUpdate(calls, Reserving, n, c);
    CountUpdate(calls, Admitted, n, c);
    CountUpdate(calls, InEnqueue, n, c);
    CountUpdate(calls, InSync, n, c);
    CountUpdate(calls, CountedDrop, n, c);
  }

  // ----- steps of calls -----

  /** What a step of call n may do to everything outside the item memory. */
  ghost predicate CallStepFits(s: State, n: nat, c: Call, t: State)
    requires n in s.calls
  {
    var b := s.calls[n];
    && t.calls == s.calls[n := c]
    && (t.q.lock, t.workers, t.control, t.q.stop, t.q.rundownClosed, t.threadCount)
       == (s.q.lock, s.workers, s.control, s.q.stop, s.q.rundownClosed, s.threadCount)
    && t.q.depth + |s.q.list| == s.q.depth + |t.q.list| + Bit(Reserving(c)) - Bit(Reserving(b))
    && t.q.rundownRefs == s.q.rundownRefs + Bit(InEnqueue(c)) - Bit(InEnqueue(b)) + Bit(InSync(c)) - Bit(InSync(b))
    && (t.q.rundownRefs <= s.q.rundownRefs || !s.q.rundownClosed)
    && (|t.q.list| + Bit(Admitted(c)) <= |s.q.list| + Bit(Admitted(b))
         || (t.q.list == s.q.list && t.q.depth <= MAX_DEPTH))
    && (t.q.event || (!s.q.event && (c.pc.Signal? || (t.q.list == s.q.list && !b.pc.Signal?))))
    && t.q.dropped == s.q.dropped + Bit(c.countedDrop) - Bit(b.countedDrop)
    && DropStory(c)
    && (t.q.list == s.q.list || (s.q.lock == Unlocked && InEnqueue(b)))
  }

  lemma CallFitsKeeps(s: State, n: nat, c: Call, t: State)
    requires Inv(s) && n in s.calls && CallStepFits(s, n, c, t) && MemoryInv(t)
    ensures Inv(t)
  {
    CallCounts(s.calls, n, c);
    AdmittedBelowReserving(t.calls);
    CountZero(s.calls, InEnqueue);
    assert EventInv(t.q.list, t.q.event, t.calls) by {
      if !t.q.event && t.q.list != [] {
        if c.pc.Signal? {
          assert n in t.calls;
        } else {
          var m :| m in s.calls && s.calls[m].pc.Signal?;
          assert m in t.calls;
        }
      }
    }
  }

  /** Steps of a call that leave every item where it is. */
  lemma CallQuietMemory(s: State, n: nat, c: Call, t: State)
    requires MemoryInv(s) && (n in s.calls ==> !s.calls[n].pc.Insert?)
    requires t.calls == s.calls[n := c] && !c.pc.Insert? && OwnIds(t.m.issued, n, c)
    requires (t.m.place, t.q.list, t.workers, t.control, t.m.frees, t.q.sent, t.q.sendFailed)
             == (s.m.place, s.q.list, s.workers, s.control, s.m.frees, s.q.sent, s.q.sendFailed)
    requires (t.m.issued, t.q.nextId) == (s.m.issued, s.q.nextId)
        || (t.q.nextId == s.q.nextId + 1 && t.m.issued == s.m.issued[t.q.nextId := Sync(n)])
    ensures MemoryInv(t)
  {}

  lemma FateCounts(place: map<nat, Place>, k: nat, p: Place)
    ensures var u := place[k := p];
      && Count(u, q => OfFate(q, Sent)) == Count(place, q => OfFate(q, Sent))
           - Weight(place, q => OfFate(q, Sent), k) + Bit(OfFate(p, Sent))
      && Count(u, q => OfFate(q, SendFailed)) == Count(place, q => OfFate(q, SendFailed))
           - Weight(place, q => OfFate(q, SendFailed), k) + Bit(OfFate(p, SendFailed))
  {
    CountUpdate(place, q => OfFate(q, Sent), k, p);
    CountUpdate(place, q => OfFate(q, SendFailed), k, p);
  }

  lemma AllocateLedger(s: State, n: nat, r: Reply)
    requires LedgerInv(s) && n in s.calls && s.calls[n].pc.Allocate?
    ensures LedgerInv(AdvanceCall(s, n, true, r).value)
  {
    var id := s.q.nextId + 1;
    assert id !in s.m.place && id !in s.m.issued;
    FateCounts(s.m.place, id, Carried(n));
  }

  lemma AllocateHolder(s: State, n: nat, r: Reply)
    requires HolderInv(s) && s.q.nextId + 1 !in s.m.place && n in s.calls && s.calls[n].pc.Allocate?
    ensures HolderInv(AdvanceCall(s, n, true, r).value)
  {}

  lemma InsertLedger(s: State, n: nat, r: Reply)
    requires LedgerInv(s) && HolderInv(s) && n in s.calls && s.calls[n].pc.Insert? && s.q.lock == Unlocked
    ensures LedgerInv(AdvanceCall(s, n, true, r).value)
  {
    FateCounts(s.m.place, s.calls[n].pc.item.id, Queued);
  }

  lemma InsertHolder(s: State, n: nat, r: Reply)
    requires HolderInv(s) && n in s.calls && s.calls[n].pc.Insert? && s.q.lock == Unlocked
    ensures HolderInv(AdvanceCall(s, n, true, r).value)
  {
    var t := AdvanceCall(s, n, true, r).value;
    assert t.q.list[|s.q.list|] == s.calls[n].pc.item;
    assert forall j :: 0 <= j < |s.q.list| ==> t.q.list[j] == s.q.list[j];
  }

  lemma KeepsBegin(s: State, n: nat, sync: bool, req: Request)
    requires Inv(s) && n !in s.calls
    ensures Inv(BeginCall(s, n, sync, req))
  {
    var t := BeginCall(s, n, sync, req);
    CallCounts(s.calls, n, t.calls[n]);
    CallQuietMemory(s, n, t.calls[n], t);
    if !s.q.event && s.q.list != [] {
      var m :| m in s.calls && s.calls[m].pc.Signal?;
      assert m in t.calls;
    }
  }

  /** The facts about one call that its next step needs. */
  ghost predicate Ready(s: State, n: nat) {
    && Inv(s) && MemoryInv(s) && n in s.calls
    && DropStory(s.calls[n]) && OwnIds(s.m.issued, n, s.calls[n]) && s.q.nextId + 1 !in s.m.issued
    && s.q.nextId + 1 !in s.m.place
  }

  lemma EnterStep(s: State, n: nat, poolOk: bool, reply: Reply)
    requires Ready(s, n) && s.calls[n].pc.EnterRundown?
    ensures Inv(AdvanceCall(s, n, poolOk, reply).value)
  {
    hide Inv, LedgerInv, HolderInv;
    var t := AdvanceCall(s, n, poolOk, reply).value;
    CallQuietMemory(s, n, t.calls[n], t);
    CallFitsKeeps(s, n, t.calls[n], t);
  }

  lemma SyncEnterStep(s: State, n: nat, poolOk: bool, reply: Reply)
    requires Ready(s, n) && s.calls[n].pc.SyncEnterRundown?
    ensures Inv(AdvanceCall(s, n, poolOk, reply).value)
  {
    hide Inv, LedgerInv, HolderInv;
    var t := AdvanceCall(s, n, poolOk, reply).value;
    CallQuietMemory(s, n, t.calls[n], t);
    CallFitsKeeps(s, n, t.calls[n], t);
  }

  lemma TestStep(s: State, n: nat, poolOk: bool, reply: Reply)
    requires Ready(s, n) && s.calls[n].pc.TestStop?
    ensures Inv(AdvanceCall(s, n, poolOk, reply).value)
  {
    hide Inv, LedgerInv, HolderInv;
    var t := AdvanceCall(s, n, poolOk, reply).value;
    CallQuietMemory(s, n, t.calls[n], t);
    CallFitsKeeps(s, n, t.calls[n], t);
  }

  lemma SyncTestStep(s: State, n: nat, poolOk: bool, reply: Reply)
    requires Ready(s, n) && s.calls[n].pc.SyncTestStop?
    ensures Inv(AdvanceCall(s, n, poolOk, reply).value)
  {
    hide Inv, LedgerInv, HolderInv;
    var t := AdvanceCall(s, n, poolOk, reply).value;
    CallQuietMemory(s, n, t.calls[n], t);
    CallFitsKeeps(s, n, t.calls[n], t);
  }

  lemma ReserveStep(s: State, n: nat, poolOk: bool, reply: Reply)
    requires Ready(s, n) && s.calls[n].pc.Reserve?
    ensures Inv(AdvanceCall(s, n, poolOk, reply).value)
  {
    hide Inv, LedgerInv, HolderInv;
    var t := AdvanceCall(s, n, poolOk, reply).value;
    CallQuietMemory(s, n, t.calls[n], t);
    CallFitsKeeps(s, n, t.calls[n], t);
  }

  lemma UndoStep(s: State, n: nat, poolOk: bool, reply: Reply)
    requires Ready(s, n) && s.calls[n].pc.Undo?
    ensures Inv(AdvanceCall(s, n, poolOk, reply).value)
  {
    hide Inv, LedgerInv, HolderInv;
    var t := AdvanceCall(s, n, poolOk, reply).value;
    CallQuietMemory(s, n, t.calls[n], t);
    CallFitsKeeps(s, n, t.calls[n], t);
  }

  lemma CountDropStep(s: State, n: nat, poolOk: bool, reply: Reply)
    requires Ready(s, n) && s.calls[n].pc.CountDrop?
    ensures Inv(AdvanceCall(s, n, poolOk, reply).value)
  {
    hide Inv, LedgerInv, HolderInv;
    var t := AdvanceCall(s, n, poolOk, reply).value;
    CallQuietMemory(s, n, t.calls[n], t);
    CallFitsKeeps(s, n, t.calls[n], t);
  }

  lemma AllocateStep(s: State, n: nat, poolOk: bool, reply: Reply)
    requires Ready(s, n) && s.calls[n].pc.Allocate?
    ensures Inv(AdvanceCall(s, n, poolOk, reply).value)
  {
    hide Inv, LedgerInv, HolderInv;
    var t := AdvanceCall(s, n, poolOk, reply).value;
    if poolOk {
      AllocateLedger(s, n, reply);
      AllocateHolder(s, n, reply);
    } else {
      CallQuietMemory(s, n, t.calls[n], t);
    }
    CallFitsKeeps(s, n, t.calls[n], t);
  }

  lemma InsertStep(s: State, n: nat, poolOk: bool, reply: Reply)
    requires Ready(s, n) && s.calls[n].pc.Insert? && s.q.lock == Unlocked
    ensures Inv(AdvanceCall(s, n, poolOk, reply).value)
  {
    hide Inv, LedgerInv, HolderInv;
    var t := AdvanceCall(s, n, poolOk, reply).value;
    InsertLedger(s, n, reply);
    InsertHolder(s, n, reply);
    CallFitsKeeps(s, n, t.calls[n], t);
  }

  lemma SignalStep(s: State, n: nat, poolOk: bool, reply: Reply)
    requires Ready(s, n) && s.calls[n].pc.Signal?
    ensures Inv(AdvanceCall(s, n, poolOk, reply).value)
  {
    hide Inv, LedgerInv, HolderInv;
    var t := AdvanceCall(s, n, poolOk, reply).value;
    CallQuietMemory(s, n, t.calls[n], t);
    CallFitsKeeps(s, n, t.calls[n], t);
  }

  lemma LeaveStep(s: State, n: nat, poolOk: bool, reply: Reply)
    requires Ready(s, n) && s.calls[n].pc.LeaveRundown?
    ensures Inv(AdvanceCall(s, n, poolOk, reply).value)
  {
    hide Inv, LedgerInv, HolderInv;
    var t := AdvanceCall(s, n, poolOk, reply).value;
    CallQuietMemory(s, n, t.calls[n], t);
    CallFitsKeeps(s, n, t.calls[n], t);
  }

  lemma SyncLeaveStep(s: State, n: nat, poolOk: bool, reply: Reply)
    requires Ready(s, n) && s.calls[n].pc.SyncLeaveRundown?
    ensures Inv(AdvanceCall(s, n, poolOk, reply).value)
  {
    hide Inv, LedgerInv, HolderInv;
    var t := AdvanceCall(s, n, poolOk, reply).value;
    CallQuietMemory(s, n, t.calls[n], t);
    CallFitsKeeps(s, n, t.calls[n], t);
  }

  lemma SyncAllocateStep(s: State, n: nat, poolOk: bool, reply: Reply)
    requires Ready(s, n) && s.calls[n].pc.SyncAllocate?
    ensures Inv(AdvanceCall(s, n, poolOk, reply).value)
  {
    hide Inv, LedgerInv, HolderInv;
    var t := AdvanceCall(s, n, poolOk, reply).value;
    CallQuietMemory(s, n, t.calls[n], t);
    CallFitsKeeps(s, n, t.calls[n], t);
  }

  lemma SyncSendFits(s: State, n: nat, poolOk: bool, reply: Reply)
    requires n in s.calls && s.calls[n].pc.SyncSend? && DropStory(s.calls[n])
    ensures var t := AdvanceCall(s, n, poolOk, reply).value;
      CallStepFits(s, n, t.calls[n], t) && OwnIds(s.m.issued, n, t.calls[n]) == OwnIds(s.m.issued, n, s.calls[n])
      && !t.calls[n].pc.Insert? && t.m == s.m
      && (t.q.sent, t.q.sendFailed, t.q.nextId, t.q.list) == (s.q.sent, s.q.sendFailed, s.q.nextId, s.q.list)
  {}

  lemma SyncSendStep(s: State, n: nat, poolOk: bool, reply: Reply)
    requires Ready(s, n) && s.calls[n].pc.SyncSend?
    ensures Inv(AdvanceCall(s, n, poolOk, reply).value)
  {
    SyncSendFits(s, n, poolOk, reply);
    var t := AdvanceCall(s, n, poolOk, reply).value;
    hide Inv, LedgerInv, HolderInv, AdvanceCall, OwnIds, DropStory;
    assert CallStepFits(s, n, t.calls[n], t);
    CallQuietMemory(s, n, t.calls[n], t);
    hide CallStepFits;
    CallFitsKeeps(s, n, t.calls[n], t);
  }

  lemma KeepsAdvance(s: State, n: nat, poolOk: bool, reply: Reply)
    requires Inv(s) && n in s.calls && AdvanceCall(s, n, poolOk, reply).Some?
    ensures Inv(AdvanceCall(s, n, poolOk, reply).value)
  {
    assert Ready(s, n);
    assert s.calls[n].pc.Insert? ==> s.q.lock == Unlocked;
    assert !s.calls[n].pc.Returned?;
    hide *;
    match s.calls[n].pc
    case EnterRundown => EnterStep(s, n, poolOk, reply);
    case SyncEnterRundown => SyncEnterStep(s, n, poolOk, reply);
    case TestStop => TestStep(s, n, poolOk, reply);
    case SyncTestStop => SyncTestStep(s, n, poolOk, reply);
    case Reserve => ReserveStep(s, n, poolOk, reply);
    case Undo => UndoStep(s, n, poolOk, reply);
    case CountDrop => CountDropStep(s, n, poolOk, reply);
    case Allocate => AllocateStep(s, n, poolOk, reply);
    case Insert(_) => InsertStep(s, n, poolOk, reply);
    case Signal => SignalStep(s, n, poolOk, reply);
    case LeaveRundown(_) => LeaveStep(s, n, poolOk, reply);
    case SyncLeaveRundown(_) => SyncLeaveStep(s, n, poolOk, reply);
    case SyncAllocate => SyncAllocateStep(s, n, poolOk, reply);
    case SyncSend => SyncSendStep(s, n, poolOk, reply);
    case Returned(_) =>
  }

  // ----- steps of workers -----

  /** What a step of worker i may do to everything outside the item memory. */
  ghost predicate WorkStepFits(s: State, i: nat, w: Worker, t: State)
    requires i < |s.workers|
  {
    && t.workers == s.workers[i := w] && !s.workers[i].Exited?
    && (t.calls, t.control, t.q.stop, t.q.rundownClosed, t.q.rundownRefs, t.threadCount, t.q.dropped)
       == (s.calls, s.control, s.q.stop, s.q.rundownClosed, s.q.rundownRefs, s.threadCount, s.q.dropped)
    && (t.q.lock == s.q.lock || (s.q.lock == Unlocked && t.q.lock == ByWorker(i))
         || (s.q.lock == ByWorker(i) && t.q.lock == Unlocked))
    && (t.q.lock == ByWorker(i) <==> HoldsLock(w))
    && (s.q.lock == ByWorker(i) <==> HoldsLock(s.workers[i]))
    && (w.Clearing? ==> t.q.list == [])
    && t.q.depth - |t.q.list| - Undecremented(t.q.lock, t.workers)
         == s.q.depth - |s.q.list| - Undecremented(s.q.lock, s.workers)
    && (t.q.list == s.q.list || (s.q.list != [] && t.q.list == s.q.list[1..] && s.q.lock == Unlocked))
    && (t.q.event == s.q.event || t.q.list == [])
  }

  lemma WorkFitsKeeps(s: State, i: nat, w: Worker, t: State)
    requires Inv(s) && i < |s.workers| && WorkStepFits(s, i, w, t) && MemoryInv(t)
    ensures Inv(t)
  {}

  lemma WorkQuietMemory(s: State, i: nat, w: Worker, t: State)
    requires MemoryInv(s) && i < |s.workers| && t.workers == s.workers[i := w]
    requires (t.m.place, t.q.list, t.calls, t.control, t.m.frees, t.q.sent, t.q.sendFailed, t.m.issued, t.q.nextId)
             == (s.m.place, s.q.list, s.calls, s.control, s.m.frees, s.q.sent, s.q.sendFailed, s.m.issued, s.q.nextId)
    requires !s.workers[i].Free? && !w.Free? && InHand(s.workers[i]) == InHand(w)
    requires InHand(w) ==> w.item == s.workers[i].item
    ensures MemoryInv(t)
  {}

  lemma TakeMemory(s: State, i: nat, t: State)
    requires MemoryInv(s) && i < |s.workers| && s.workers[i].TakeLock? && s.q.lock == Unlocked && s.q.list != []
    requires t == WorkStep(s, i, false, false, Undelivered).value
    ensures MemoryInv(t)
  {
    TakeHolder(s, i, t);
    TakeLedger(s, i, t);
    hide LedgerInv, HolderInv, WorkStep;
  }

  lemma TakeHolder(s: State, i: nat, t: State)
    requires HolderInv(s) && i < |s.workers| && s.workers[i].TakeLock? && s.q.lock == Unlocked && s.q.list != []
    requires t == WorkStep(s, i, false, false, Undelivered).value
    ensures HolderInv(t)
  {
    TailIds(s.q.list);
  }

  lemma TakeLedger(s: State, i: nat, t: State)
    requires LedgerInv(s) && HolderInv(s)
    requires i < |s.workers| && s.workers[i].TakeLock? && s.q.lock == Unlocked && s.q.list != []
    requires t == WorkStep(s, i, false, false, Undelivered).value
    ensures LedgerInv(t)
  {
    FateCounts(s.m.place, s.q.list[0].id, Held(i));
  }

  lemma TailIds(list: seq<Item>)
    requires list != []
    ensures forall k :: Listed(k, list) <==> k == list[0].id || Listed(k, list[1..])
  {
    forall k | Listed(k, list) && k != list[0].id ensures Listed(k, list[1..]) {
      var j :| 0 <= j < |list| && list[j].id == k;
      assert list[1..][j - 1].id == k;
    }
  }

  /** The item in hand is settled: sent, failed, excluded or discarded. */
  lemma SpendMemory(s: State, i: nat, f: Fate, t: State)
    requires MemoryInv(s) && i < |s.workers| && (s.workers[i].Have? || s.workers[i].Sending?)
    requires t.workers == s.workers[i := Free(s.workers[i].item, f)]
    requires t.m.place == s.m.place[s.workers[i].item.id := Spent(i, f)]
    requires (t.q.list, t.calls, t.control, t.m.frees, t.m.issued, t.q.nextId)
        == (s.q.list, s.calls, s.control, s.m.frees, s.m.issued, s.q.nextId)
    requires t.q.sent == s.q.sent + Bit(f.Sent?) && t.q.sendFailed == s.q.sendFailed + Bit(f.SendFailed?)
    ensures MemoryInv(t)
  {
    SpendHolder(s, i, f, t);
    SpendLedger(s, i, f, t);
    hide LedgerInv, HolderInv;
  }

  lemma SpendHolder(s: State, i: nat, f: Fate, t: State)
    requires HolderInv(s)
    requires i < |s.workers| && (s.workers[i].Have? || s.workers[i].Sending?)
    requires t.workers == s.workers[i := Free(s.workers[i].item, f)]
    requires t.m.place == s.m.place[s.workers[i].item.id := Spent(i, f)]
    requires (t.q.list, t.calls, t.control, t.m.frees, t.m.issued, t.q.nextId)
        == (s.q.list, s.calls, s.control, s.m.frees, s.m.issued, s.q.nextId)
    requires t.q.sent == s.q.sent + Bit(f.Sent?) && t.q.sendFailed == s.q.sendFailed + Bit(f.SendFailed?)
    ensures HolderInv(t)
  {}

  lemma SpendLedger(s: State, i: nat, f: Fate, t: State)
    requires LedgerInv(s) && HolderInv(s)
    requires i < |s.workers| && (s.workers[i].Have? || s.workers[i].Sending?)
    requires t.workers == s.workers[i := Free(s.workers[i].item, f)]
    requires t.m.place == s.m.place[s.workers[i].item.id := Spent(i, f)]
    requires (t.q.list, t.calls, t.control, t.m.frees, t.m.issued, t.q.nextId)
        == (s.q.list, s.calls, s.control, s.m.frees, s.m.issued, s.q.nextId)
    requires t.q.sent == s.q.sent + Bit(f.Sent?) && t.q.sendFailed == s.q.sendFailed + Bit(f.SendFailed?)
    ensures LedgerInv(t)
  {
    FateCounts(s.m.place, s.workers[i].item.id, Spent(i, f));
  }

  lemma FreeMemory(s: State, i: nat, t: State)
    requires MemoryInv(s) && i < |s.workers| && s.workers[i].Free?
    requires t == WorkStep(s, i, false, false, Undelivered).value
    ensures MemoryInv(t)
  {
    FreeHolder(s, i, t);
    FreeLedger(s, i, t);
    hide LedgerInv, HolderInv, WorkStep;
  }

  lemma FreeHolder(s: State, i: nat, t: State)
    requires HolderInv(s) && i < |s.workers| && s.workers[i].Free?
    requires t == WorkStep(s, i, false, false, Undelivered).value
    ensures HolderInv(t)
  {}

  lemma FreeLedger(s: State, i: nat, t: State)
    requires LedgerInv(s) && HolderInv(s) && i < |s.workers| && s.workers[i].Free?
    requires t == WorkStep(s, i, false, false, Undelivered).value
    ensures LedgerInv(t)
  {
    FateCounts(s.m.place, s.workers[i].item.id, Freed(s.workers[i].fate));
  }

  ghost predicate WorkReady(s: State, i: nat) {
    && Inv(s) && MemoryInv(s) && i < |s.workers|
    && (s.q.lock == ByWorker(i) <==> HoldsLock(s.workers[i]))
    && (s.workers[i].Clearing? ==> s.q.list == [])
  }

  lemma QuietWork(s: State, i: nat, excluded: bool, poolOk: bool, reply: Reply)
    requires WorkReady(s, i) && WorkStep(s, i, excluded, poolOk, reply).Some?
    requires s.workers[i].Top? || s.workers[i].Wait? || (s.workers[i].Have? && !s.q.stop)
    ensures Inv(WorkStep(s, i, excluded, poolOk, reply).value)
  {
    hide Inv, LedgerInv, HolderInv;
    var t := WorkStep(s, i, excluded, poolOk, reply).value;
    WorkQuietMemory(s, i, t.workers[i], t);
    WorkFitsKeeps(s, i, t.workers[i], t);
  }

  lemma LockedWork(s: State, i: nat, excluded: bool, poolOk: bool, reply: Reply)
    requires WorkReady(s, i) && WorkStep(s, i, excluded, poolOk, reply).Some?
    requires s.workers[i].Removed? || s.workers[i].Clearing? || (s.workers[i].TakeLock? && s.q.list == [])
    ensures Inv(WorkStep(s, i, excluded, poolOk, reply).value)
  {
    hide Inv, LedgerInv, HolderInv;
    var t := WorkStep(s, i, excluded, poolOk, reply).value;
    WorkQuietMemory(s, i, t.workers[i], t);
    WorkFitsKeeps(s, i, t.workers[i], t);
  }

  lemma TakeWork(s: State, i: nat, excluded: bool, poolOk: bool, reply: Reply)
    requires WorkReady(s, i) && s.workers[i].TakeLock? && s.q.lock == Unlocked && s.q.list != []
    ensures Inv(WorkStep(s, i, excluded, poolOk, reply).value)
  {
    hide Inv, LedgerInv, HolderInv;
    var t := WorkStep(s, i, excluded, poolOk, reply).value;
    TakeMemory(s, i, t);
    WorkFitsKeeps(s, i, t.workers[i], t);
  }

  lemma SettleWork(s: State, i: nat, excluded: bool, poolOk: bool, reply: Reply)
    requires WorkReady(s, i) && (s.workers[i].Sending? || (s.workers[i].Have? && s.q.stop))
    ensures Inv(WorkStep(s, i, excluded, poolOk, reply).value)
  {
    hide Inv, LedgerInv, HolderInv;
    var t := WorkStep(s, i, excluded, poolOk, reply).value;
    SpendMemory(s, i, t.workers[i].fate, t);
    WorkFitsKeeps(s, i, t.workers[i], t);
  }

  lemma FreeWork(s: State, i: nat, excluded: bool, poolOk: bool, reply: Reply)
    requires WorkReady(s, i) && s.workers[i].Free?
    ensures Inv(WorkStep(s, i, excluded, poolOk, reply).value)
  {
    hide Inv, LedgerInv, HolderInv;
    var t := WorkStep(s, i, excluded, poolOk, reply).value;
    FreeMemory(s, i, t);
    WorkFitsKeeps(s, i, t.workers[i], t);
  }

  lemma KeepsWork(s: State, i: nat, excluded: bool, poolOk: bool, reply: Reply)
    requires Inv(s) && i < |s.workers| && WorkStep(s, i, excluded, poolOk, reply).Some?
    ensures Inv(WorkStep(s, i, excluded, poolOk, reply).value)
  {
    assert WorkReady(s, i);
    assert s.workers[i].TakeLock? ==> s.q.lock == Unlocked;
    assert !s.workers[i].Exited?;
    hide Inv, LedgerInv, HolderInv, WorkReady, WorkStep;
    match s.workers[i]
    case Top | Wait => QuietWork(s, i, excluded, poolOk, reply);
    case Removed(_) | Clearing => LockedWork(s, i, excluded, poolOk, reply);
    case TakeLock =>
      if s.q.list == [] { LockedWork(s, i, excluded, poolOk, reply); } else { TakeWork(s, i, excluded, poolOk, reply); }
    case Have(_) =>
      if s.q.stop { SettleWork(s, i, excluded, poolOk, reply); } else { QuietWork(s, i, excluded, poolOk, reply); }
    case Sending(_) => SettleWork(s, i, excluded, poolOk, reply);
    case Free(_, _) => FreeWork(s, i, excluded, poolOk, reply);
    case Exited =>
  }

  // ----- steps of start and teardown -----

  lemma ManageQuietMemory(s: State, t: State)
    requires MemoryInv(s)
    requires (t.m.place, t.q.list, t.calls, t.m.frees, t.q.sent, t.q.sendFailed, t.m.issued, t.q.nextId)
             == (s.m.place, s.q.list, s.calls, s.m.frees, s.q.sent, s.q.sendFailed, s.m.issued, s.q.nextId)
    requires !s.control.DrainDecrement? && !s.control.DrainFree? && !t.control.DrainDecrement? && !t.control.DrainFree?
    requires t.workers == s.workers || t.workers == s.workers + [Top]
    ensures MemoryInv(t)
  {}

  /** What a start or teardown step outside the drain loop may do. */
  ghost predicate ControlStepFits(s: State, t: State) {
    && (t.calls, t.q.list, t.q.lock, t.q.depth, t.q.dropped, t.q.rundownRefs)
         == (s.calls, s.q.list, s.q.lock, s.q.depth, s.q.dropped, s.q.rundownRefs)
    && (t.workers == s.workers || t.workers == s.workers + [Top])
    && (t.q.event || !s.q.event)
    && !s.control.DrainDecrement? && !t.control.DrainDecrement? && !t.control.Finished?
    && FlagInv(t.q.stop, t.q.rundownClosed, t.control)
    && WorkersInv(t.workers, t.threadCount, t.control)
    && (PastRundown(t.control) ==> t.q.rundownRefs == 0)
  }

  lemma ControlFitsKeeps(s: State, t: State)
    requires Inv(s) && ControlStepFits(s, t) && MemoryInv(t)
    ensures Inv(t)
  {}

  ghost predicate ManageReady(s: State) {
    && Inv(s) && MemoryInv(s)
    && FlagInv(s.q.stop, s.q.rundownClosed, s.control)
    && WorkersInv(s.workers, s.threadCount, s.control)
    && (PastRundown(s.control) ==> s.q.rundownRefs == 0)
  }

  lemma StartStep(s: State, start: ThreadStart)
    requires ManageReady(s) && ManageStep(s, start).Some? && s.control.Starting?
    ensures Inv(ManageStep(s, start).value)
  {
    hide Inv, LedgerInv, HolderInv;
    var t := ManageStep(s, start).value;
    ManageQuietMemory(s, t);
    ControlFitsKeeps(s, t);
  }

  lemma StopSteps(s: State, start: ThreadStart)
    requires ManageReady(s) && ManageStep(s, start).Some?
    requires s.control.StartFailStop? || s.control.StartFailSignal? || s.control.StartFailJoin? || s.control.Running?
    ensures Inv(ManageStep(s, start).value)
  {
    hide Inv, LedgerInv, HolderInv;
    var t := ManageStep(s, start).value;
    ManageQuietMemory(s, t);
    ControlFitsKeeps(s, t);
  }

  lemma TeardownSteps(s: State, start: ThreadStart)
    requires ManageReady(s) && ManageStep(s, start).Some?
    requires s.control.SetStop? || s.control.CloseRundown? || s.control.AwaitRundown? || s.control.FinalSignal?
    ensures Inv(ManageStep(s, start).value)
  {
    hide Inv, LedgerInv, HolderInv;
    var t := ManageStep(s, start).value;
    ManageQuietMemory(s, t);
    ControlFitsKeeps(s, t);
  }

  lemma JoinStep(s: State, start: ThreadStart)
    requires ManageReady(s) && ManageStep(s, start).Some? && s.control.Join?
    ensures Inv(ManageStep(s, start).value)
  {
    hide Inv, LedgerInv, HolderInv;
    var t := ManageStep(s, start).value;
    ManageQuietMemory(s, t);
    ControlFitsKeeps(s, t);
  }

  lemma DrainLockMemory(s: State, t: State)
    requires MemoryInv(s) && s.control.DrainLock? && s.q.lock == Unlocked && s.q.list != []
    requires t == ManageStep(s, Started).value
    ensures MemoryInv(t)
  {
    FateCounts(s.m.place, s.q.list[0].id, Draining);
    TailIds(s.q.list);
  }

  lemma DrainLockStep(s: State, start: ThreadStart)
    requires Inv(s) && s.control.DrainLock? && ManageStep(s, start).Some?
    ensures Inv(ManageStep(s, start).value)
  {
    var t := ManageStep(s, start).value;
    if s.q.list == [] {
      ManageQuietMemory(s, t);
    } else {
      DrainLockMemory(s, t);
    }
  }

  lemma DrainDecrementStep(s: State, start: ThreadStart)
    requires Inv(s) && s.control.DrainDecrement?
    ensures Inv(ManageStep(s, start).value)
  {}

  lemma DrainFreeMemory(s: State, t: State)
    requires MemoryInv(s) && s.control.DrainFree? && t == ManageStep(s, Started).value
    ensures MemoryInv(t)
  {
    DrainFreeHolder(s, t);
    DrainFreeLedger(s, t);
    hide LedgerInv, HolderInv, ManageStep;
  }

  lemma DrainFreeHolder(s: State, t: State)
    requires HolderInv(s) && s.control.DrainFree? && t == ManageStep(s, Started).value
    ensures HolderInv(t)
  {}

  lemma DrainFreeLedger(s: State, t: State)
    requires LedgerInv(s) && HolderInv(s) && s.control.DrainFree? && t == ManageStep(s, Started).value
    ensures LedgerInv(t)
  {
    FateCounts(s.m.place, s.control.item.id, Freed(Discarded));
  }

  lemma DrainFreeStep(s: State, start: ThreadStart)
    requires Inv(s) && s.control.DrainFree?
    ensures Inv(ManageStep(s, start).value)
  {
    DrainFreeMemory(s, ManageStep(s, start).value);
  }

  lemma KeepsManage(s: State, start: ThreadStart)
    requires Inv(s) && ManageStep(s, start).Some?
    ensures Inv(ManageStep(s, start).value)
  {
    assert ManageReady(s) && !s.control.Finished?;
    hide *;
    match s.control
    case Starting => StartStep(s, start);
    case StartFailStop | StartFailSignal | StartFailJoin | Running => StopSteps(s, start);
    case SetStop | CloseRundown | AwaitRundown | FinalSignal => TeardownSteps(s, start);
    case Join(_) => JoinStep(s, start);
    case DrainLock => DrainLockStep(s, start);
    case DrainDecrement(_) => DrainDecrementStep(s, start);
    case DrainFree(_) => DrainFreeStep(s, start);
    case Finished =>
  }

  lemma KeepsInv(s: State, a: Action)
    requires Inv(s) && Next(s, a).Some?
    ensures Inv(Next(s, a).value)
  {
    match a
    case Begin(n, sync, req) => KeepsBegin(s, n, sync, req);
    case Advance(n, poolOk, reply) => KeepsAdvance(s, n, poolOk, reply);
    case Work(i, excluded, poolOk, reply) => KeepsWork(s, i, excluded, poolOk, reply);
    case Manage(start) => KeepsManage(s, start);
  }

  /** The invariant holds after every interleaving of any number of calls and workers. */
  lemma {:induction false} RunInv(s: State, acts: seq<Action>)
    requires Inv(s) && Run(s, acts).Some?
    ensures Inv(Run(s, acts).value)
  {
    if acts != [] {
      RunInv(s, acts[..|acts| - 1]);
      KeepsInv(Run(s, acts[..|acts| - 1]).value, acts[|acts| - 1]);
    }
  }
}
