/**
 How a call of the backup queue ends, from what it met on its way, over every run; what becomes of
 an item, from what the worker saw; and that calls and the teardown can end.
 */
module QueueVerdicts {
  import opened Options
  import opened WideText
  import opened Tally
  import opened QueueModel
  import opened QueueInvariant
  import QueueTheorems
  import opened QueueContents
  import QueueHang

  // ----- what a call meets -----

  /** What can stand in the way of an enqueue or of a synchronous send. */
  datatype Obstacle = DoorClosed | StopSeen | NoRoom | NoMemory | NotAcknowledged(reply: Reply)

  /** The obstacle that an enqueue meets in its next step. */
  function EnqueueHit(q: Queue, pc: Pc, poolOk: bool): Option<Obstacle> {
    match pc
    case EnterRundown => if q.rundownClosed then Some(DoorClosed) else None
    case TestStop => if q.stop then Some(StopSeen) else None
    case Reserve => if q.depth >= 16384 then Some(NoRoom) else None
    case Allocate => if !poolOk then Some(NoMemory) else None
    case _ => None
  }

  /** The obstacle that a synchronous send meets in its next step. */
  function SendHit(q: Queue, pc: Pc, poolOk: bool, reply: Reply): Option<Obstacle> {
    match pc
    case SyncEnterRundown => if q.rundownClosed then Some(DoorClosed) else None
    case SyncTestStop => if q.stop then Some(StopSeen) else None
    case SyncAllocate => if !poolOk then Some(NoMemory) else None
    case SyncSend => if reply != Delivered(0) then Some(NotAcknowledged(reply)) else None
    case _ => None
  }

  /** The last obstacles a call has met, as an enqueue and as a synchronous send. */
  datatype Met = Met(enqueue: Option<Obstacle>, send: Option<Obstacle>)

  function OrElse(x: Option<Obstacle>, y: Option<Obstacle>): Option<Obstacle> { if x.Some? then x else y }

  function MetInStep(m: Met, q: Queue, pc: Pc, poolOk: bool, reply: Reply): Met {
    Met(OrElse(EnqueueHit(q, pc, poolOk), m.enqueue), OrElse(SendHit(q, pc, poolOk, reply), m.send))
  }

  function MetBy(size: nat, acts: seq<Action>, n: nat): Met
    requires Run(Initial(size), acts).Some?
  {
    if acts == [] then Met(None, None)
    else
      var front, a := acts[..|acts| - 1], acts[|acts| - 1];
      var s := Run(Initial(size), front).value;
      if a.Advance? && a.n == n && n in s.calls
      then MetInStep(MetBy(size, front, n), s.q, s.calls[n].pc, a.poolOk, a.reply)
      else MetBy(size, front, n)
  }

  // ----- where a call stands, by what it has met -----

  predicate OutOfRoom(x: Option<Obstacle>) { x == Some(NoRoom) || x == Some(NoMemory) }

  predicate Barred(x: Option<Obstacle>) { x == Some(DoorClosed) || x == Some(StopSeen) }

  /** The status of an enqueue that met x. */
  predicate EndsFor(st: Status, x: Option<Obstacle>) {
    match st
    case Success => x == None
    case InsufficientResources => OutOfRoom(x)
    case DeviceNotReady => Barred(x)
    case _ => false
  }

  /** A sync call that runs the enqueue is one that was not acknowledged. */
  predicate FrameFits(c: Call, m: Met) {
    match c.frame
    case Direct => !c.sync && m.send == None
    case Fallback(st) =>
      && c.sync && m.send.Some? && m.send.value.NotAcknowledged?
      && st == (if m.send.value.reply.Delivered? then Success else SendError)
  }

  predicate SendFits(c: Call, m: Met, st: Status) {
    && c.sync
    && match c.frame
       case Direct => c.enqueueResult == None && m.enqueue == None && EndsFor(st, m.send) && m.send != Some(NoRoom)
       case Fallback(x) =>
         FrameFits(c, m) && st == x && c.enqueueResult.Some? && EndsFor(c.enqueueResult.value, m.enqueue)
  }

  predicate Fits(c: Call, m: Met) {
    match c.pc
    case SyncEnterRundown | SyncTestStop | SyncAllocate | SyncSend =>
      c.sync && c.frame.Direct? && c.enqueueResult == None && m == Met(None, None) && c.req.path != []
    case EnterRundown | TestStop | Reserve | Allocate | Insert(_) | Signal =>
      FrameFits(c, m) && m.enqueue == None && c.enqueueResult == None && c.req.path != []
    case Undo | CountDrop => FrameFits(c, m) && OutOfRoom(m.enqueue) && c.enqueueResult == None && c.req.path != []
    case LeaveRundown(st) => FrameFits(c, m) && EndsFor(st, m.enqueue) && c.enqueueResult == None && c.req.path != []
    case SyncLeaveRundown(st) => SendFits(c, m, st) && c.req.path != []
    case Returned(st) =>
      if c.req.path == [] then st == InvalidParameter && c.enqueueResult == None && m == Met(None, None)
      else if c.sync then SendFits(c, m, st)
      else c.frame.Direct? && m.send == None && c.enqueueResult == Some(st) && EndsFor(st, m.enqueue)
  }

  lemma EnqueueFits(q: Queue, mem: Memory, n: nat, c: Call, poolOk: bool, reply: Reply, m: Met)
    requires Fits(c, m) && (InEnqueue(c) || c.pc.EnterRundown?) && CallStep(q, mem, n, c, poolOk, reply).Some?
    ensures Fits(CallStep(q, mem, n, c, poolOk, reply).value.call, MetInStep(m, q, c.pc, poolOk, reply))
  {}

  lemma SyncFits(q: Queue, mem: Memory, n: nat, c: Call, poolOk: bool, reply: Reply, m: Met)
    requires Fits(c, m) && !InEnqueue(c) && !c.pc.EnterRundown? && CallStep(q, mem, n, c, poolOk, reply).Some?
    ensures Fits(CallStep(q, mem, n, c, poolOk, reply).value.call, MetInStep(m, q, c.pc, poolOk, reply))
  {}

  lemma StepFits(q: Queue, mem: Memory, n: nat, c: Call, poolOk: bool, reply: Reply, m: Met)
    requires Fits(c, m) && CallStep(q, mem, n, c, poolOk, reply).Some?
    ensures Fits(CallStep(q, mem, n, c, poolOk, reply).value.call, MetInStep(m, q, c.pc, poolOk, reply))
  {
    hide Fits, CallStep, MetInStep;
    if InEnqueue(c) || c.pc.EnterRundown? {
      EnqueueFits(q, mem, n, c, poolOk, reply, m);
    } else {
      SyncFits(q, mem, n, c, poolOk, reply, m);
    }
  }

  /** An action of somebody else leaves a call and what it has met alone. */
  lemma OthersStand(s: State, a: Action, n: nat)
    requires Next(s, a).Some? && !(a.Advance? && a.n == n)
    ensures n in s.calls ==> n in Next(s, a).value.calls && Next(s, a).value.calls[n] == s.calls[n]
    ensures n !in s.calls && n in Next(s, a).value.calls ==>
      a.Begin? && a.n == n && Next(s, a).value.calls[n] == BeginCall(s, n, a.sync, a.req).calls[n]
  {
    hide CallStep, WorkerStep;
  }

  lemma BeginFits(s: State, n: nat, sync: bool, req: Request)
    ensures Fits(BeginCall(s, n, sync, req).calls[n], Met(None, None))
  {}

  lemma {:induction false} RunFits(size: nat, acts: seq<Action>, n: nat)
    requires Run(Initial(size), acts).Some?
    ensures var s := Run(Initial(size), acts).value;
      if n in s.calls then Fits(s.calls[n], MetBy(size, acts, n)) else MetBy(size, acts, n) == Met(None, None)
  {
    if acts != [] {
      var front, a := acts[..|acts| - 1], acts[|acts| - 1];
      var s := Run(Initial(size), front).value;
      RunFits(size, front, n);
      if a.Advance? && a.n == n {
        StepFits(s.q, s.m, n, s.calls[n], a.poolOk, a.reply, MetBy(size, front, n));
        hide CallStep, Fits, MetInStep;
      } else {
        OthersStand(s, a, n);
        if a.Begin? && a.n == n { BeginFits(s, n, a.sync, a.req); }
        hide Next, Fits, BeginCall;
      }
    }
  }

  // ----- an accepted request is on the list -----

  /** Past its insertion. */
  predicate Landed(c: Call) {
    c.pc.Signal? || c.pc == LeaveRundown(Success) || c.enqueueResult == Some(Success)
  }

  ghost predicate InsertedFor(c: Call, inserted: seq<Item>) {
    && (c.pc.Insert? ==> c.asyncId == Some(c.pc.item.id) && c.pc.item.req == c.req)
    && (Landed(c) ==> c.asyncId.Some? && Item(c.asyncId.value, c.req) in inserted)
    && (c.enqueueResult.Some? ==> c.pc.Returned? || c.pc.SyncLeaveRundown?)
  }

  lemma LandedStays(c: Call, inserted: seq<Item>, more: seq<Item>)
    requires InsertedFor(c, inserted)
    ensures InsertedFor(c, inserted + more)
  {
    assert forall x :: x in inserted ==> x in inserted + more;
  }

  lemma InsertLands(q: Queue, m: Memory, n: nat, c: Call, poolOk: bool, reply: Reply, inserted: seq<Item>)
    requires InsertedFor(c, inserted) && c.pc.Insert? && CallStep(q, m, n, c, poolOk, reply).Some?
    ensures InsertedFor(CallStep(q, m, n, c, poolOk, reply).value.call, inserted + [c.pc.item])
  {
    assert c.pc.item in inserted + [c.pc.item];
  }

  lemma OtherLands(q: Queue, m: Memory, n: nat, c: Call, poolOk: bool, reply: Reply, inserted: seq<Item>)
    requires InsertedFor(c, inserted) && !c.pc.Insert? && CallStep(q, m, n, c, poolOk, reply).Some?
    ensures InsertedFor(CallStep(q, m, n, c, poolOk, reply).value.call, inserted)
  {
    NothingLands(q, m, n, c, poolOk, reply);
    hide CallStep;
  }

  lemma NothingLands(q: Queue, m: Memory, n: nat, c: Call, poolOk: bool, reply: Reply)
    requires !c.pc.Insert? && CallStep(q, m, n, c, poolOk, reply).Some?
    requires c.enqueueResult.Some? ==> c.pc.Returned? || c.pc.SyncLeaveRundown?
    ensures var d := CallStep(q, m, n, c, poolOk, reply).value.call;
      && (Landed(d) ==> Landed(c) && d.asyncId == c.asyncId && d.req == c.req)
      && (d.pc.Insert? ==> d.asyncId == Some(d.pc.item.id) && d.pc.item.req == d.req)
      && (d.enqueueResult.Some? ==> d.pc.Returned? || d.pc.SyncLeaveRundown?)
  {}

  lemma StepLands(q: Queue, m: Memory, n: nat, c: Call, poolOk: bool, reply: Reply, inserted: seq<Item>)
    requires InsertedFor(c, inserted) && CallStep(q, m, n, c, poolOk, reply).Some?
    ensures var more := if c.pc.Insert? then [c.pc.item] else [];
      InsertedFor(CallStep(q, m, n, c, poolOk, reply).value.call, inserted + more)
  {
    if c.pc.Insert? {
      InsertLands(q, m, n, c, poolOk, reply, inserted);
    } else {
      OtherLands(q, m, n, c, poolOk, reply, inserted);
      assert inserted + [] == inserted;
    }
    hide InsertedFor, CallStep;
  }

  lemma {:induction false} RunLands(size: nat, acts: seq<Action>, n: nat)
    requires Run(Initial(size), acts).Some?
    ensures var s := Run(Initial(size), acts).value;
      n in s.calls ==> InsertedFor(s.calls[n], Insertions(size, acts))
  {
    if acts != [] {
      var front, a := acts[..|acts| - 1], acts[|acts| - 1];
      var s := Run(Initial(size), front).value;
      RunLands(size, front, n);
      if a.Advance? && a.n == n {
        StepLands(s.q, s.m, n, s.calls[n], a.poolOk, a.reply, Insertions(size, front));
        hide CallStep, InsertedFor;
      } else {
        OthersStand(s, a, n);
        hide Next, CallStep;
        var before, more := Insertions(size, front), Added(s, a);
        assert forall x :: x in before ==> x in before + more;
      }
    }
  }

  // ----- every call is somebody's -----

  ghost predicate Begun(acts: seq<Action>, n: nat, sync: bool, req: Request) {
    exists i :: 0 <= i < |acts| && acts[i] == Begin(n, sync, req)
  }

  lemma StepKeepsRequest(q: Queue, m: Memory, n: nat, c: Call, poolOk: bool, reply: Reply)
    requires CallStep(q, m, n, c, poolOk, reply).Some?
    ensures var d := CallStep(q, m, n, c, poolOk, reply).value.call; d.sync == c.sync && d.req == c.req
  {}

  /** A call is of the kind, and carries the request, that it was begun with. */
  lemma {:induction false} CallsAreTheirs(size: nat, acts: seq<Action>, n: nat)
    requires Run(Initial(size), acts).Some? && n in Run(Initial(size), acts).value.calls
    ensures var c := Run(Initial(size), acts).value.calls[n]; Begun(acts, n, c.sync, c.req)
  {
    if acts != [] {
      var front, a := acts[..|acts| - 1], acts[|acts| - 1];
      var s := Run(Initial(size), front).value;
      assert forall i :: 0 <= i < |front| ==> front[i] == acts[i];
      if n in s.calls { CallsAreTheirs(size, front, n); }
      if a.Advance? && a.n == n {
        StepKeepsRequest(s.q, s.m, n, s.calls[n], a.poolOk, a.reply);
        hide CallStep;
      } else {
        OthersStand(s, a, n);
        hide Next;
      }
    }
  }

  // ----- the verdicts -----

  /**
   An enqueue that is over was refused for room or memory exactly when Depth was at its limit when it
   counted itself in, or its allocation failed; it was turned away exactly when it saw the closed
   rundown or Stop; and otherwise it succeeded and its request was put on the list.
   */
  lemma EnqueueEndsAsMet(size: nat, acts: seq<Action>, n: nat)
    requires Run(Initial(size), acts).Some? && n in Run(Initial(size), acts).value.calls
    requires Run(Initial(size), acts).value.calls[n].enqueueResult.Some?
    ensures var c, met := Run(Initial(size), acts).value.calls[n], MetBy(size, acts, n).enqueue;
      && (c.enqueueResult == Some(InsufficientResources) <==> met == Some(NoRoom) || met == Some(NoMemory))
      && (c.enqueueResult == Some(DeviceNotReady) <==> met == Some(DoorClosed) || met == Some(StopSeen))
      && (c.enqueueResult == Some(Success) <==> met == None)
      && (met == None ==> c.asyncId.Some? && Item(c.asyncId.value, c.req) in Insertions(size, acts))
  {
    RunFits(size, acts, n);
    RunLands(size, acts, n);
    hide Run, MetBy, Insertions;
  }

  /**
   A call with a path that is no sync send returns what its enqueue met; a call without one is
   invalid, and enters nothing.
   */
  lemma CallEndsAsMet(size: nat, acts: seq<Action>, n: nat)
    requires Run(Initial(size), acts).Some? && n in Run(Initial(size), acts).value.calls
    requires Run(Initial(size), acts).value.calls[n].pc.Returned?
    ensures var c, met := Run(Initial(size), acts).value.calls[n], MetBy(size, acts, n);
      && (c.pc.st == InvalidParameter <==> c.req.path == [])
      && (!c.sync && c.req.path != [] ==> c.enqueueResult == Some(c.pc.st))
      && (c.sync && c.req.path != [] ==>
            && (c.pc.st == DeviceNotReady <==> met.send == Some(DoorClosed) || met.send == Some(StopSeen))
            && (c.pc.st == InsufficientResources <==> met.send == Some(NoMemory))
            && (c.pc.st == SendError <==> met.send == Some(NotAcknowledged(Undelivered)))
            && (c.enqueueResult.Some? <==> met.send.Some? && met.send.value.NotAcknowledged?))
  {
    RunFits(size, acts, n);
    hide Run, MetBy;
  }

  // ----- calls end -----

  /** Steps that a call may still take. */
  function Rank(c: Call): nat {
    match c.pc
    case SyncEnterRundown => 16
    case SyncTestStop => 15
    case SyncAllocate => 14
    case SyncSend => 13
    case EnterRundown => 12
    case TestStop => 11
    case Reserve => 10
    case Allocate => 9
    case Insert(_) => 8
    case Signal => 7
    case Undo => 7
    case CountDrop => 6
    case LeaveRundown(_) => 5
    case SyncLeaveRundown(_) => 4
    case Returned(_) => 0
  }

  /**
   A call that has not returned can always go on, save for the spin lock, and each step brings it
   closer to its end.
   */
  lemma CallsEnd(s: State, n: nat, poolOk: bool, reply: Reply)
    requires n in s.calls && !s.calls[n].pc.Returned? && (s.calls[n].pc.Insert? ==> s.q.lock == Unlocked)
    ensures Next(s, Advance(n, poolOk, reply)).Some?
    ensures var t := Next(s, Advance(n, poolOk, reply)).value; n in t.calls && Rank(t.calls[n]) < Rank(s.calls[n])
  {}

  // ----- items -----

  /** How an action settles an item that is not sent: what the worker or the drain saw. */
  datatype Disposal = WasExcluded | StoppedInHand | LeftOnList

  function DisposedOf(s: State, a: Action): Option<Disposal> {
    match a
    case Work(i, excluded, _, _) =>
      if i < |s.workers| && s.workers[i].Sending? && excluded then Some(WasExcluded)
      else if i < |s.workers| && s.workers[i].Have? && s.q.stop then Some(StoppedInHand)
      else None
    case Manage(_) => if s.control.DrainFree? then Some(LeftOnList) else None
    case _ => None
  }

  function Disposals(size: nat, acts: seq<Action>, how: Disposal): nat
    requires Run(Initial(size), acts).Some?
  {
    if acts == [] then 0
    else
      var front := acts[..|acts| - 1];
      Disposals(size, front, how)
        + if DisposedOf(Run(Initial(size), front).value, acts[|acts| - 1]) == Some(how) then 1 else 0
  }

  function Total(place: map<nat, Place>, f: Fate): nat {
    Count(place, (p: Place) => OfFate(p, f))
  }

  lemma TotalUpdate(place: map<nat, Place>, k: nat, p: Place, f: Fate)
    ensures Total(place[k := p], f) == Total(place, f) - Bit(k in place && OfFate(place[k], f)) + Bit(OfFate(p, f))
  {
    CountUpdate(place, (x: Place) => OfFate(x, f), k, p);
  }

  function Of(x: Option<Disposal>, how: Disposal): int { if x == Some(how) then 1 else 0 }

  /** What an action adds to the excluded and the discarded items. */
  ghost predicate Disposes(s: State, t: State, x: Option<Disposal>) {
    && Total(t.m.place, Excluded) == Total(s.m.place, Excluded) + Of(x, WasExcluded)
    && Total(t.m.place, Discarded) == Total(s.m.place, Discarded) + Of(x, StoppedInHand) + Of(x, LeftOnList)
  }

  lemma StepPlaces(q: Queue, m: Memory, n: nat, c: Call, poolOk: bool, reply: Reply)
    requires CallStep(q, m, n, c, poolOk, reply).Some?
    ensures CallStep(q, m, n, c, poolOk, reply).value.m.place
      == if c.pc.Allocate? && poolOk then m.place[q.nextId + 1 := Carried(n)]
         else if c.pc.Insert? then m.place[c.pc.item.id := Queued]
         else m.place
  {}

  /** An item that goes from one place to another without a fate. */
  lemma UnsettledMove(s: State, t: State, k: nat, p: Place)
    requires t.m.place == s.m.place[k := p] && !OfFate(p, Excluded) && !OfFate(p, Discarded)
    requires k in s.m.place ==> !OfFate(s.m.place[k], Excluded) && !OfFate(s.m.place[k], Discarded)
    ensures Disposes(s, t, None)
  {
    TotalUpdate(s.m.place, k, p, Excluded);
    TotalUpdate(s.m.place, k, p, Discarded);
    hide Total;
  }

  lemma CallPlaces(s: State, n: nat)
    requires Inv(s) && n in s.calls
    ensures s.q.nextId + 1 !in s.m.place
    ensures s.calls[n].pc.Insert? ==> At(s.m.place, s.calls[n].pc.item, Carried(n))
  {}

  lemma AdvancePlaces(s: State, n: nat, poolOk: bool, reply: Reply)
    requires n in s.calls && AdvanceCall(s, n, poolOk, reply).Some?
    ensures AdvanceCall(s, n, poolOk, reply).value.m.place
      == if s.calls[n].pc.Allocate? && poolOk then s.m.place[s.q.nextId + 1 := Carried(n)]
         else if s.calls[n].pc.Insert? then s.m.place[s.calls[n].pc.item.id := Queued]
         else s.m.place
  {
    hide CallStep;
    StepPlaces(s.q, s.m, n, s.calls[n], poolOk, reply);
  }

  lemma AdvanceDisposes(s: State, n: nat, poolOk: bool, reply: Reply)
    requires Inv(s) && n in s.calls && AdvanceCall(s, n, poolOk, reply).Some?
    ensures Disposes(s, AdvanceCall(s, n, poolOk, reply).value, None)
  {
    var c, t := s.calls[n], AdvanceCall(s, n, poolOk, reply).value;
    CallPlaces(s, n);
    AdvancePlaces(s, n, poolOk, reply);
    hide Inv, Total, AdvanceCall;
    if c.pc.Allocate? && poolOk {
      UnsettledMove(s, t, s.q.nextId + 1, Carried(n));
    } else if c.pc.Insert? {
      UnsettledMove(s, t, c.pc.item.id, Queued);
    }
  }

  lemma WorkDisposes(s: State, i: nat, excluded: bool, poolOk: bool, reply: Reply)
    requires Inv(s) && i < |s.workers| && WorkStep(s, i, excluded, poolOk, reply).Some?
    ensures Disposes(s, WorkStep(s, i, excluded, poolOk, reply).value, DisposedOf(s, Work(i, excluded, poolOk, reply)))
  {
    var w := s.workers[i];
    assert InHand(w) ==> At(s.m.place, w.item, Held(i));
    assert w.Free? ==> At(s.m.place, w.item, Spent(i, w.fate));
    assert s.q.list != [] ==> At(s.m.place, s.q.list[0], Queued);
    hide Inv, Total;
    var k := if w.TakeLock? && s.q.list != [] then s.q.list[0].id else if InHand(w) || w.Free? then w.item.id else 0;
    var place := WorkStep(s, i, excluded, poolOk, reply).value.m.place;
    if k in place {
      TotalUpdate(s.m.place, k, place[k], Excluded);
      TotalUpdate(s.m.place, k, place[k], Discarded);
    }
  }

  lemma DrainPlaces(s: State)
    requires Inv(s)
    ensures s.q.list != [] ==> At(s.m.place, s.q.list[0], Queued)
    ensures s.control.DrainFree? ==> At(s.m.place, s.control.item, Draining)
  {}

  lemma ManagePlaces(s: State, start: ThreadStart)
    requires ManageStep(s, start).Some?
    ensures ManageStep(s, start).value.m.place
      == if s.control.DrainLock? && s.q.list != [] then s.m.place[s.q.list[0].id := Draining]
         else if s.control.DrainFree? then s.m.place[s.control.item.id := Freed(Discarded)]
         else s.m.place
  {}

  lemma ManageDisposes(s: State, start: ThreadStart)
    requires Inv(s) && ManageStep(s, start).Some?
    ensures Disposes(s, ManageStep(s, start).value, DisposedOf(s, Manage(start)))
  {
    DrainPlaces(s);
    ManagePlaces(s, start);
    hide Inv, Total, ManageStep;
    if s.control.DrainLock? && s.q.list != [] {
      UnsettledMove(s, ManageStep(s, start).value, s.q.list[0].id, Draining);
    } else if s.control.DrainFree? {
      TotalUpdate(s.m.place, s.control.item.id, Freed(Discarded), Excluded);
      TotalUpdate(s.m.place, s.control.item.id, Freed(Discarded), Discarded);
    }
  }

  lemma StepDisposes(s: State, a: Action)
    requires Inv(s) && Next(s, a).Some?
    ensures Disposes(s, Next(s, a).value, DisposedOf(s, a))
  {
    hide Inv, Disposes;
    match a
    case Begin(_, _, _) => assert Disposes(s, Next(s, a).value, None) by { SamePlaces(s, Next(s, a).value); }
    case Advance(n, poolOk, reply) => AdvanceDisposes(s, n, poolOk, reply);
    case Work(i, excluded, poolOk, reply) => WorkDisposes(s, i, excluded, poolOk, reply);
    case Manage(start) => ManageDisposes(s, start);
  }

  lemma SamePlaces(s: State, t: State)
    requires t.m == s.m
    ensures Disposes(s, t, None)
  {}

  /**
   Over any run the items that were not sent are those the worker found excluded, those it held when
   it saw Stop, and those the drain found on the list: no other item is ever dropped.
   */
  lemma {:induction false} DisposalsAreCounted(size: nat, acts: seq<Action>)
    requires Run(Initial(size), acts).Some?
    ensures var place := Run(Initial(size), acts).value.m.place;
      && Total(place, Excluded) == Disposals(size, acts, WasExcluded)
      && Total(place, Discarded) == Disposals(size, acts, StoppedInHand) + Disposals(size, acts, LeftOnList)
  {
    if acts == [] {
      CountZero(Initial(size).m.place, (p: Place) => OfFate(p, Excluded));
      CountZero(Initial(size).m.place, (p: Place) => OfFate(p, Discarded));
    } else {
      var front := acts[..|acts| - 1];
      DisposalsAreCounted(size, front);
      InitialInv(size);
      RunInv(Initial(size), front);
      StepDisposes(Run(Initial(size), front).value, acts[|acts| - 1]);
      DisposalsStep(size, acts, WasExcluded);
      DisposalsStep(size, acts, StoppedInHand);
      DisposalsStep(size, acts, LeftOnList);
      hide Inv, Next, DisposedOf, Disposals, Total, Of;
    }
  }

  lemma DisposalsStep(size: nat, acts: seq<Action>, how: Disposal)
    requires acts != [] && Run(Initial(size), acts).Some?
    ensures var front := acts[..|acts| - 1];
      && Run(Initial(size), front).Some?
      && Disposals(size, acts, how)
         == Disposals(size, front, how) + Of(DisposedOf(Run(Initial(size), front).value, acts[|acts| - 1]), how)
  {
    hide Next, DisposedOf;
  }

  // ----- workers and teardown -----

  ghost predicate ExitInv(s: State) {
    forall i :: 0 <= i < |s.workers| && s.workers[i].Exited? ==> s.q.stop
  }

  lemma StepKeepsExit(s: State, a: Action)
    requires ExitInv(s) && Next(s, a).Some?
    ensures ExitInv(Next(s, a).value)
  {
    match a
    case Begin(_, _, _) =>
    case Advance(n, poolOk, reply) => AdvanceLeavesStop(s, n, poolOk, reply);
    case Work(_, _, _, _) => hide SendFate;
    case Manage(_) =>
  }

  lemma AdvanceLeavesStop(s: State, n: nat, poolOk: bool, reply: Reply)
    requires n in s.calls && AdvanceCall(s, n, poolOk, reply).Some?
    ensures var t := AdvanceCall(s, n, poolOk, reply).value; t.q.stop == s.q.stop && t.workers == s.workers
  {}

  /** A worker leaves only after Stop was set. */
  lemma {:induction false} WorkersStayUntilStop(size: nat, acts: seq<Action>)
    requires Run(Initial(size), acts).Some?
    ensures ExitInv(Run(Initial(size), acts).value)
  {
    if acts != [] {
      WorkersStayUntilStop(size, acts[..|acts| - 1]);
      StepKeepsExit(Run(Initial(size), acts[..|acts| - 1]).value, acts[|acts| - 1]);
    }
  }

  // ----- the teardown can return -----

  /** The pool is being joined, nothing is queued, and the first k workers have left; the others are about to. */
  predicate Leaving(s: State, size: nat, k: nat) {
    && |s.workers| == s.threadCount == size && s.control == Join(0) && s.q.stop
    && s.q.list == [] && s.q.lock == Unlocked && k <= size
    && forall i :: 0 <= i < size ==> if i < k then s.workers[i].Exited? else s.workers[i].Top?
  }

  lemma Signalled(size: nat) returns (s: State)
    ensures Reachable(size, s) && Leaving(s, size, 0)
  {
    QueueHang.AllStarted(size, size);
    s := Initial(size).(threadCount := size, workers := QueueHang.Idle(size));
    s := QueueHang.Step(size, s, Manage(Started));
    s := QueueHang.Step(size, s, Manage(Started));
    s := QueueHang.Step(size, s, Manage(Started));
    s := ClosedAndSignalled(size, s);
  }

  lemma ClosedAndSignalled(size: nat, s: State) returns (t: State)
    requires Reachable(size, s) && s.control.CloseRundown? && |s.workers| == s.threadCount == size && s.q.stop
    requires s.q.list == [] && s.q.lock == Unlocked && s.q.rundownRefs == 0
    requires forall i :: 0 <= i < size ==> s.workers[i].Top?
    ensures Reachable(size, t) && Leaving(t, size, 0)
  {
    t := QueueHang.Step(size, s, Manage(Started));
    t := QueueHang.Step(size, t, Manage(Started));
    t := QueueHang.Step(size, t, Manage(Started));
  }

  lemma {:induction false} AllLeave(size: nat, k: nat) returns (s: State)
    requires k <= size
    ensures Reachable(size, s) && Leaving(s, size, k)
  {
    if k == 0 {
      s := Signalled(size);
    } else {
      s := AllLeave(size, k - 1);
      s := QueueHang.Step(size, s, QueueHang.Worked(k - 1));
    }
  }

  /** All workers have left and the first k are joined. */
  predicate Joined(s: State, size: nat, k: nat) {
    && |s.workers| == s.threadCount == size && s.control == Join(k) && s.q.list == [] && s.q.lock == Unlocked
    && forall i :: 0 <= i < size ==> s.workers[i].Exited?
  }

  lemma {:induction false} AllJoined(size: nat, k: nat) returns (s: State)
    requires k <= size
    ensures Reachable(size, s) && Joined(s, size, k)
  {
    if k == 0 {
      s := AllLeave(size, size);
    } else {
      s := AllJoined(size, k - 1);
      s := QueueHang.Step(size, s, Manage(Started));
    }
  }

  /** Whatever the size of the pool, some run brings the teardown to its end. */
  lemma TeardownCanReturn(size: nat) returns (s: State)
    ensures Reachable(size, s) && s.control.Finished?
  {
    s := AllJoined(size, size);
    s := QueueHang.Step(size, s, Manage(Started));
    s := QueueHang.Step(size, s, Manage(Started));
  }
}
