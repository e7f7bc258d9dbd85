/**
 What the backup queue carries: requests arrive unchanged, in insertion order, and are settled by the
 reader's reply.
 */
module QueueContents {
  import opened Options
  import opened WideText
  import opened QueueModel
  import opened QueueInvariant
  import QueueTheorems

  // ----- requests arrive unchanged -----

  /** The item's id was issued to a call, and the item carries that call's request. */
  ghost predicate Cargo(issued: map<nat, Issuer>, calls: map<nat, Call>, item: Item) {
    && item.id in issued && issued[item.id].Async?
    && issued[item.id].call in calls && calls[issued[item.id].call].req == item.req
  }

  ghost predicate ListCargo(issued: map<nat, Issuer>, calls: map<nat, Call>, list: seq<Item>) {
    forall j :: 0 <= j < |list| ==> Cargo(issued, calls, list[j])
  }

  ghost predicate CallCargo(issued: map<nat, Issuer>, calls: map<nat, Call>) {
    forall n :: n in calls && calls[n].pc.Insert? ==> Cargo(issued, calls, calls[n].pc.item)
  }

  predicate HasItem(w: Worker) { InHand(w) || w.Free? }

  ghost predicate WorkerCargo(issued: map<nat, Issuer>, calls: map<nat, Call>, workers: seq<Worker>) {
    forall i :: 0 <= i < |workers| && HasItem(workers[i]) ==> Cargo(issued, calls, workers[i].item)
  }

  ghost predicate CargoInv(s: State) {
    && ListCargo(s.m.issued, s.calls, s.q.list) && CallCargo(s.m.issued, s.calls)
    && WorkerCargo(s.m.issued, s.calls, s.workers)
  }

  /** Ids and requests only accumulate. */
  ghost predicate Keeps(s: State, t: State) {
    && (forall k :: k in s.m.issued ==> k in t.m.issued && t.m.issued[k] == s.m.issued[k])
    && (forall n :: n in s.calls ==> n in t.calls && t.calls[n].req == s.calls[n].req)
  }

  lemma CargoStays(s: State, t: State, item: Item)
    requires Keeps(s, t) && Cargo(s.m.issued, s.calls, item)
    ensures Cargo(t.m.issued, t.calls, item)
  {}

  /** What a step does to ids: at most one new one, which an allocating call takes for its item. */
  ghost predicate Issues(q: Queue, m: Memory, n: nat, c: Call, e: CallEffect) {
    var id := q.nextId + 1;
    && e.call.req == c.req
    && (e.m.issued == m.issued || e.m.issued == m.issued[id := Sync(n)] || e.m.issued == m.issued[id := Async(n)])
    && (e.call.pc.Insert? ==> e.call.pc.item == Item(id, c.req) && e.call.asyncId == Some(id) && c.pc.Allocate?
                              && e.m.issued == m.issued[id := Async(n)])
    && (!e.call.pc.Insert? ==>
         e.call.asyncId == c.asyncId && (e.m.issued == m.issued || e.m.issued == m.issued[id := Sync(n)]))
  }

  lemma StepIssues(q: Queue, m: Memory, n: nat, c: Call, poolOk: bool, reply: Reply)
    requires CallStep(q, m, n, c, poolOk, reply).Some?
    ensures Issues(q, m, n, c, CallStep(q, m, n, c, poolOk, reply).value)
  {
    hide CallStep, Issues;
    if c.pc.Allocate? {
      AllocateIssues(q, m, n, c, poolOk, reply);
    } else if c.pc.SyncAllocate? || c.pc.SyncSend? {
      SyncIssues(q, m, n, c, poolOk, reply);
    } else {
      OtherIssues(q, m, n, c, poolOk, reply);
    }
  }

  lemma AllocateIssues(q: Queue, m: Memory, n: nat, c: Call, poolOk: bool, reply: Reply)
    requires c.pc.Allocate?
    ensures Issues(q, m, n, c, CallStep(q, m, n, c, poolOk, reply).value)
  {}

  lemma SyncIssues(q: Queue, m: Memory, n: nat, c: Call, poolOk: bool, reply: Reply)
    requires c.pc.SyncAllocate? || c.pc.SyncSend?
    ensures Issues(q, m, n, c, CallStep(q, m, n, c, poolOk, reply).value)
  {}

  lemma OtherIssues(q: Queue, m: Memory, n: nat, c: Call, poolOk: bool, reply: Reply)
    requires !c.pc.Allocate? && !c.pc.SyncAllocate? && !c.pc.SyncSend?
    requires CallStep(q, m, n, c, poolOk, reply).Some?
    ensures Issues(q, m, n, c, CallStep(q, m, n, c, poolOk, reply).value)
  {}

  lemma StepLists(q: Queue, m: Memory, n: nat, c: Call, poolOk: bool, reply: Reply)
    requires CallStep(q, m, n, c, poolOk, reply).Some?
    ensures CallStep(q, m, n, c, poolOk, reply).value.q.list == if c.pc.Insert? then q.list + [c.pc.item] else q.list
  {}

  lemma AdvanceKeepsIds(s: State, n: nat, poolOk: bool, reply: Reply)
    requires n in s.calls && AdvanceCall(s, n, poolOk, reply).Some? && s.q.nextId + 1 !in s.m.issued
    ensures Keeps(s, AdvanceCall(s, n, poolOk, reply).value)
  {
    StepIssues(s.q, s.m, n, s.calls[n], poolOk, reply);
    hide CallStep;
  }

  lemma AdvanceCargo(s: State, n: nat, poolOk: bool, reply: Reply)
    requires CargoInv(s) && n in s.calls && AdvanceCall(s, n, poolOk, reply).Some? && s.q.nextId + 1 !in s.m.issued
    ensures CargoInv(AdvanceCall(s, n, poolOk, reply).value)
  {
    var t := AdvanceCall(s, n, poolOk, reply).value;
    AdvanceKeepsIds(s, n, poolOk, reply);
    AdvanceList(s, n, poolOk, reply);
    CallersKeep(s, t, n);
    hide Cargo, AdvanceCall, Keeps;
    forall j | 0 <= j < |s.q.list| ensures Cargo(t.m.issued, t.calls, s.q.list[j]) { CargoStays(s, t, s.q.list[j]); }
    WorkersKeep(s, t);
  }

  /** The list grows by the item a call was about to insert, if at all, and a new item carries its caller's request. */
  lemma AdvanceList(s: State, n: nat, poolOk: bool, reply: Reply)
    requires n in s.calls && AdvanceCall(s, n, poolOk, reply).Some?
    ensures var t := AdvanceCall(s, n, poolOk, reply).value; var c := s.calls[n];
      && t.q.list == (if c.pc.Insert? then s.q.list + [c.pc.item] else s.q.list) && t.workers == s.workers
      && n in t.calls && t.calls == s.calls[n := t.calls[n]]
      && (t.calls[n].pc.Insert? ==> Cargo(t.m.issued, t.calls, t.calls[n].pc.item))
  {
    StepIssues(s.q, s.m, n, s.calls[n], poolOk, reply);
    StepLists(s.q, s.m, n, s.calls[n], poolOk, reply);
    hide CallStep;
  }

  lemma CallersKeep(s: State, t: State, n: nat)
    requires CallCargo(s.m.issued, s.calls) && Keeps(s, t) && n in t.calls && t.calls == s.calls[n := t.calls[n]]
    requires t.calls[n].pc.Insert? ==> Cargo(t.m.issued, t.calls, t.calls[n].pc.item)
    ensures CallCargo(t.m.issued, t.calls)
    ensures n in s.calls && s.calls[n].pc.Insert? ==> Cargo(t.m.issued, t.calls, s.calls[n].pc.item)
  {
    hide Cargo, Keeps;
    forall m | m in s.calls && s.calls[m].pc.Insert? ensures Cargo(t.m.issued, t.calls, s.calls[m].pc.item) {
      CargoStays(s, t, s.calls[m].pc.item);
    }
  }

  lemma WorkersKeep(s: State, t: State)
    requires WorkerCargo(s.m.issued, s.calls, s.workers) && Keeps(s, t)
    ensures WorkerCargo(t.m.issued, t.calls, s.workers)
  {
    hide Cargo, Keeps;
    forall i | 0 <= i < |s.workers| && HasItem(s.workers[i]) ensures Cargo(t.m.issued, t.calls, s.workers[i].item) {
      CargoStays(s, t, s.workers[i].item);
    }
  }

  lemma BeginCargo(s: State, n: nat, sync: bool, req: Request)
    requires CargoInv(s) && n !in s.calls
    ensures CargoInv(BeginCall(s, n, sync, req))
  {}

  lemma WorkCargo(s: State, i: nat, excluded: bool, poolOk: bool, reply: Reply)
    requires CargoInv(s) && i < |s.workers| && WorkStep(s, i, excluded, poolOk, reply).Some?
    ensures CargoInv(WorkStep(s, i, excluded, poolOk, reply).value)
  {
    hide Cargo;
  }

  lemma ManageCargo(s: State, start: ThreadStart)
    requires CargoInv(s) && ManageStep(s, start).Some?
    ensures CargoInv(ManageStep(s, start).value)
  {
    hide Cargo;
  }

  lemma {:induction false} RunCargo(size: nat, acts: seq<Action>)
    requires Run(Initial(size), acts).Some?
    ensures CargoInv(Run(Initial(size), acts).value)
  {
    if acts != [] {
      var s, a := Run(Initial(size), acts[..|acts| - 1]).value, acts[|acts| - 1];
      RunCargo(size, acts[..|acts| - 1]);
      InitialInv(size);
      RunInv(Initial(size), acts[..|acts| - 1]);
      assert s.q.nextId + 1 !in s.m.issued;
      hide Inv, CargoInv, Run;
      match a
      case Begin(n, sync, req) => BeginCargo(s, n, sync, req);
      case Advance(n, poolOk, reply) => AdvanceCargo(s, n, poolOk, reply);
      case Work(i, excluded, poolOk, reply) => WorkCargo(s, i, excluded, poolOk, reply);
      case Manage(start) => ManageCargo(s, start);
    }
  }

  /** Whatever a worker is about to send, it is the request of the very call that the id was issued to. */
  lemma RequestsArriveUnchanged(size: nat, s: State, i: nat)
    requires Reachable(size, s) && i < |s.workers| && s.workers[i].Sending?
    ensures var item := s.workers[i].item;
      exists n :: n in s.calls && s.calls[n].asyncId == Some(item.id) && s.calls[n].req == item.req
  {
    var acts: seq<Action> :| Run(Initial(size), acts) == Some(s);
    RunCargo(size, acts);
    RunIssued(size, acts);
    assert Cargo(s.m.issued, s.calls, s.workers[i].item);
  }

  /** The call that an id was issued to remembers it. */
  ghost predicate IssuedInv(issued: map<nat, Issuer>, calls: map<nat, Call>) {
    forall k :: k in issued && issued[k].Async? ==> issued[k].call in calls && calls[issued[k].call].asyncId == Some(k)
  }

  /** A call that may still be given an id has none yet. */
  predicate Unissued(c: Call) {
    (c.pc.EnterRundown? || c.pc.TestStop? || c.pc.Reserve? || c.pc.Allocate?
     || c.pc.SyncEnterRundown? || c.pc.SyncTestStop? || c.pc.SyncAllocate? || c.pc.SyncSend?)
    ==> c.asyncId.None?
  }

  ghost predicate IdStory(s: State) {
    IssuedInv(s.m.issued, s.calls) && forall n :: n in s.calls ==> Unissued(s.calls[n])
  }

  lemma AdvanceIssued(s: State, n: nat, poolOk: bool, reply: Reply)
    requires IdStory(s) && n in s.calls && AdvanceCall(s, n, poolOk, reply).Some? && s.q.nextId + 1 !in s.m.issued
    ensures IdStory(AdvanceCall(s, n, poolOk, reply).value)
  {
    StepIssues(s.q, s.m, n, s.calls[n], poolOk, reply);
    StepUnissued(s.q, s.m, n, s.calls[n], poolOk, reply);
    hide CallStep;
  }

  lemma StepUnissued(q: Queue, m: Memory, n: nat, c: Call, poolOk: bool, reply: Reply)
    requires CallStep(q, m, n, c, poolOk, reply).Some? && Unissued(c)
    ensures Unissued(CallStep(q, m, n, c, poolOk, reply).value.call)
  {}

  /** Steps of workers and of the control leave calls and ids alone. */
  lemma OthersIssueNothing(s: State, a: Action)
    requires IdStory(s) && Next(s, a).Some? && !a.Advance?
    ensures IdStory(Next(s, a).value)
  {}

  lemma {:induction false} RunIssued(size: nat, acts: seq<Action>)
    requires Run(Initial(size), acts).Some?
    ensures IdStory(Run(Initial(size), acts).value)
  {
    if acts != [] {
      var s, a := Run(Initial(size), acts[..|acts| - 1]).value, acts[|acts| - 1];
      RunIssued(size, acts[..|acts| - 1]);
      InitialInv(size);
      RunInv(Initial(size), acts[..|acts| - 1]);
      assert s.q.nextId + 1 !in s.m.issued;
      hide Inv, Run;
      hide IdStory;
      if a.Advance? {
        AdvanceIssued(s, a.n, a.poolOk, a.reply);
      } else {
        OthersIssueNothing(s, a);
      }
    }
  }

  // ----- first in, first out -----

  /** The item that the action puts on the list. */
  function Added(s: State, a: Action): seq<Item> {
    if a.Advance? && a.n in s.calls && s.calls[a.n].pc.Insert? then [s.calls[a.n].pc.item] else []
  }

  /** The item that the action leaves in the hand of a worker or of the drain. */
  function Taken(s: State, a: Action, t: State): seq<Item> {
    match a
    case Work(i, _, _, _) =>
      if i < |t.workers| && t.workers[i].Removed? then [t.workers[i].item] else []
    case Manage(_) => if t.control.DrainDecrement? then [t.control.item] else []
    case _ => []
  }

  function Insertions(size: nat, acts: seq<Action>): seq<Item>
    requires Run(Initial(size), acts).Some?
  {
    if acts == [] then []
    else
      var front := acts[..|acts| - 1];
      Insertions(size, front) + Added(Run(Initial(size), front).value, acts[|acts| - 1])
  }

  function Removals(size: nat, acts: seq<Action>): seq<Item>
    requires Run(Initial(size), acts).Some?
  {
    if acts == [] then []
    else
      var front := acts[..|acts| - 1];
      Removals(size, front) + Taken(Run(Initial(size), front).value, acts[|acts| - 1], Run(Initial(size), acts).value)
  }

  lemma WorkIsFifo(s: State, i: nat, excluded: bool, poolOk: bool, reply: Reply)
    requires i < |s.workers| && WorkStep(s, i, excluded, poolOk, reply).Some?
    ensures var t := WorkStep(s, i, excluded, poolOk, reply).value;
      s.q.list == Taken(s, Work(i, excluded, poolOk, reply), t) + t.q.list
  {
    hide SendFate;
  }

  lemma ManageIsFifo(s: State, start: ThreadStart)
    requires ManageStep(s, start).Some?
    ensures var t := ManageStep(s, start).value; s.q.list == Taken(s, Manage(start), t) + t.q.list
  {}

  lemma StepIsFifo(s: State, a: Action)
    requires Next(s, a).Some?
    ensures var t := Next(s, a).value; s.q.list + Added(s, a) == Taken(s, a, t) + t.q.list
  {
    match a
    case Begin(_, _, _) =>
    case Advance(n, poolOk, reply) => AdvanceList(s, n, poolOk, reply); hide AdvanceCall;
    case Work(i, excluded, poolOk, reply) => WorkIsFifo(s, i, excluded, poolOk, reply); hide WorkStep, Taken;
    case Manage(start) => ManageIsFifo(s, start); hide ManageStep, Taken;
  }

  lemma Regroup(removed: seq<Item>, list: seq<Item>, added: seq<Item>, taken: seq<Item>, rest: seq<Item>)
    requires list + added == taken + rest
    ensures (removed + list) + added == (removed + taken) + rest
  {
    assert (removed + list) + added == removed + (list + added);
    assert (removed + taken) + rest == removed + (taken + rest);
  }

  /** Everything inserted so far is what was removed so far followed by what is listed, in one order. */
  lemma {:induction false} FirstInFirstOut(size: nat, acts: seq<Action>)
    requires Run(Initial(size), acts).Some?
    ensures Insertions(size, acts) == Removals(size, acts) + Run(Initial(size), acts).value.q.list
  {
    if acts != [] {
      var front := acts[..|acts| - 1];
      var s, a, t := Run(Initial(size), front).value, acts[|acts| - 1], Run(Initial(size), acts).value;
      FirstInFirstOut(size, front);
      StepIsFifo(s, a);
      Regroup(Removals(size, front), s.q.list, Added(s, a), Taken(s, a, t), t.q.list);
      hide Next, Added, Taken;
    }
  }

  // ----- the reader's reply settles -----

  /** How an action settles a request, by what the reader and the pool answered. */
  datatype Settlement = ItemSent | ItemFailed | SyncAcknowledged | SyncUnanswered | SyncNoMemory

  function Settled(s: State, a: Action): Option<Settlement> {
    match a
    case Work(i, excluded, poolOk, reply) =>
      if i >= |s.workers| || !s.workers[i].Sending? || excluded then None
      else Some(if poolOk && reply == Delivered(0) then ItemSent else ItemFailed)
    case Advance(n, poolOk, reply) =>
      if n !in s.calls then None
      else if s.calls[n].pc.SyncAllocate? && !poolOk then Some(SyncNoMemory)
      else if s.calls[n].pc.SyncSend? then Some(if reply == Delivered(0) then SyncAcknowledged else SyncUnanswered)
      else None
    case _ => None
  }

  /** How often a run has settled a request that way. */
  function Times(size: nat, acts: seq<Action>, how: Settlement): nat
    requires Run(Initial(size), acts).Some?
  {
    if acts == [] then 0
    else
      var front := acts[..|acts| - 1];
      Times(size, front, how) + if Settled(Run(Initial(size), front).value, acts[|acts| - 1]) == Some(how) then 1 else 0
  }

  function Once(x: Option<Settlement>, how: Settlement): int { if x == Some(how) then 1 else 0 }

  /** What one action adds to the four counters. */
  ghost predicate Adds(q: Queue, r: Queue, x: Option<Settlement>) {
    && r.sent == q.sent + Once(x, ItemSent) && r.sendFailed == q.sendFailed + Once(x, ItemFailed)
    && r.syncSent == q.syncSent + Once(x, SyncAcknowledged)
    && r.syncFailed == q.syncFailed + Once(x, SyncUnanswered) + Once(x, SyncNoMemory)
  }

  lemma AdvanceAdds(s: State, n: nat, poolOk: bool, reply: Reply)
    requires n in s.calls && AdvanceCall(s, n, poolOk, reply).Some?
    ensures Adds(s.q, AdvanceCall(s, n, poolOk, reply).value.q, Settled(s, Advance(n, poolOk, reply)))
  {}

  lemma WorkAdds(s: State, i: nat, excluded: bool, poolOk: bool, reply: Reply)
    requires i < |s.workers| && WorkStep(s, i, excluded, poolOk, reply).Some?
    ensures Adds(s.q, WorkStep(s, i, excluded, poolOk, reply).value.q, Settled(s, Work(i, excluded, poolOk, reply)))
  {}

  lemma StepAdds(s: State, a: Action)
    requires Next(s, a).Some?
    ensures Adds(s.q, Next(s, a).value.q, Settled(s, a))
  {
    match a
    case Begin(_, _, _) =>
    case Advance(n, poolOk, reply) => AdvanceAdds(s, n, poolOk, reply); hide AdvanceCall, Adds, Settled;
    case Work(i, excluded, poolOk, reply) => WorkAdds(s, i, excluded, poolOk, reply); hide WorkStep, Adds, Settled;
    case Manage(_) =>
  }

  /**
   Over any run the counters are the reader's verdicts: Sent the items it acknowledged with status 0,
   SendFailed the other items that were not excluded, SyncSent the synchronous requests it
   acknowledged, SyncFailed those it did not and those that got no memory.
   */
  lemma {:induction false} RepliesAreCounted(size: nat, acts: seq<Action>)
    requires Run(Initial(size), acts).Some?
    ensures var q := Run(Initial(size), acts).value.q;
      && q.sent == Times(size, acts, ItemSent) && q.sendFailed == Times(size, acts, ItemFailed)
      && q.syncSent == Times(size, acts, SyncAcknowledged)
      && q.syncFailed == Times(size, acts, SyncUnanswered) + Times(size, acts, SyncNoMemory)
  {
    if acts != [] {
      var front := acts[..|acts| - 1];
      RepliesAreCounted(size, front);
      StepAdds(Run(Initial(size), front).value, acts[|acts| - 1]);
      TimesStep(size, acts, ItemSent);
      TimesStep(size, acts, ItemFailed);
      TimesStep(size, acts, SyncAcknowledged);
      TimesStep(size, acts, SyncUnanswered);
      TimesStep(size, acts, SyncNoMemory);
      hide Next, Settled, Times, Once;
    }
  }

  lemma TimesStep(size: nat, acts: seq<Action>, how: Settlement)
    requires acts != [] && Run(Initial(size), acts).Some?
    ensures var front := acts[..|acts| - 1];
      && Run(Initial(size), front).Some?
      && Times(size, acts, how)
         == Times(size, front, how) + Once(Settled(Run(Initial(size), front).value, acts[|acts| - 1]), how)
  {
    hide Next, Settled;
  }

  // ----- the fallback -----

  /** A synchronous send in its second life, as an enqueue. */
  predicate FellBack(c: Call) { c.frame.Fallback? }

  /** A call that was acknowledged has an id, no second life and no item. */
  ghost predicate FallbackStory(c: Call) {
    && (c.pc.Returned? && FellBack(c) ==> c.enqueueResult.Some?)
    && (c.pc.SyncLeaveRundown? && FellBack(c) ==> c.enqueueResult.Some?)
    && (c.enqueueResult == Some(Success) || c.pc == LeaveRundown(Success) || c.pc.Signal? || c.pc.Insert? ==>
         c.asyncId.Some?)
    && (c.sync && c.frame.Direct? && c.pc.Returned? && c.syncId.Some? ==> c.pc.st == Success)
    && (c.sync && c.frame.Direct? && c.pc.SyncLeaveRundown? && c.syncId.Some? ==> c.pc.st == Success)
    && (c.pc.SyncEnterRundown? || c.pc.SyncTestStop? || c.pc.SyncAllocate? ==> c.syncId.None?)
    && (c.pc.SyncEnterRundown? || c.pc.SyncTestStop? || c.pc.SyncAllocate? || c.pc.SyncSend? ==> c.frame.Direct?)
    && (c.sync && c.frame.Direct? ==> !InEnqueue(c) && !c.pc.EnterRundown?)
  }

  lemma StepStory(q: Queue, m: Memory, n: nat, c: Call, poolOk: bool, reply: Reply)
    requires FallbackStory(c) && CallStep(q, m, n, c, poolOk, reply).Some?
    ensures FallbackStory(CallStep(q, m, n, c, poolOk, reply).value.call)
  {
    hide FallbackStory, CallStep;
    if c.pc.LeaveRundown? || c.pc.EnterRundown? {
      EdgeStory(q, m, n, c, poolOk, reply);
    } else if InEnqueue(c) {
      EnqueueStory(q, m, n, c, poolOk, reply);
    } else if c.pc.SyncSend? {
      SendStory(q, m, n, c, poolOk, reply);
    } else {
      SyncStory(q, m, n, c, poolOk, reply);
    }
  }

  lemma EdgeStory(q: Queue, m: Memory, n: nat, c: Call, poolOk: bool, reply: Reply)
    requires FallbackStory(c) && (c.pc.LeaveRundown? || c.pc.EnterRundown?) && CallStep(q, m, n, c, poolOk, reply).Some?
    ensures FallbackStory(CallStep(q, m, n, c, poolOk, reply).value.call)
  {}

  lemma EnqueueStory(q: Queue, m: Memory, n: nat, c: Call, poolOk: bool, reply: Reply)
    requires FallbackStory(c) && InEnqueue(c) && !c.pc.LeaveRundown? && CallStep(q, m, n, c, poolOk, reply).Some?
    ensures FallbackStory(CallStep(q, m, n, c, poolOk, reply).value.call)
  {}

  lemma SendStory(q: Queue, m: Memory, n: nat, c: Call, poolOk: bool, reply: Reply)
    requires FallbackStory(c) && c.pc.SyncSend?
    ensures FallbackStory(CallStep(q, m, n, c, poolOk, reply).value.call)
  {}

  lemma SyncStory(q: Queue, m: Memory, n: nat, c: Call, poolOk: bool, reply: Reply)
    requires FallbackStory(c) && !InEnqueue(c) && !c.pc.EnterRundown? && !c.pc.SyncSend?
    requires CallStep(q, m, n, c, poolOk, reply).Some?
    ensures FallbackStory(CallStep(q, m, n, c, poolOk, reply).value.call)
  {}

  ghost predicate FallbackInv(calls: map<nat, Call>) {
    forall n :: n in calls ==> FallbackStory(calls[n])
  }

  lemma {:induction false} RunFallback(size: nat, acts: seq<Action>)
    requires Run(Initial(size), acts).Some?
    ensures FallbackInv(Run(Initial(size), acts).value.calls)
  {
    if acts != [] {
      var s, a := Run(Initial(size), acts[..|acts| - 1]).value, acts[|acts| - 1];
      RunFallback(size, acts[..|acts| - 1]);
      if a.Advance? { StepStory(s.q, s.m, a.n, s.calls[a.n], a.poolOk, a.reply); }
      hide Run, CallStep, WorkStep;
    }
  }

  /**
   No synchronous request is lost without a trace: one that was sent and returned was acknowledged, or
   went through the queue as well, where it became an item unless it was refused.
   */
  lemma SyncIsAnsweredOrQueued(size: nat, s: State, n: nat)
    requires Reachable(size, s) && n in s.calls
    requires s.calls[n].sync && s.calls[n].pc.Returned? && s.calls[n].syncId.Some?
    ensures var c := s.calls[n];
      && (c.frame.Direct? ==> c.pc.st == Success)
      && (c.frame.Fallback? ==> c.enqueueResult.Some?)
      && (c.enqueueResult == Some(Success) ==> c.asyncId.Some? && c.asyncId.value in s.m.place && c.asyncId != c.syncId)
  {
    var acts: seq<Action> :| Run(Initial(size), acts) == Some(s);
    RunFallback(size, acts);
    QueueTheorems.ReachableInv(size, s);
    assert FallbackStory(s.calls[n]) && OwnIds(s.m.issued, n, s.calls[n]);
  }
}
