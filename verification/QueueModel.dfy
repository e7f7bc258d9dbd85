/**
 The backup request queue (knFcQueue.cpp) as a concurrent step machine.

 Every Interlocked operation, event operation, rundown operation, read of Stop and
 spin-lock region is one atomic step; a spin-lock region that itself contains an
 Interlocked or event operation is two steps with the lock held in between.  Any
 number of calls and workers interleave in any order.  What the kernel decides
 (allocation, thread creation, the reply of the port reader) is carried by the action.
 */
module QueueModel {
  import opened Options
  import opened WideText

  const MAX_DEPTH: int := 16384
  const WORKER_COUNT: nat := 4

  datatype Status = Success | InvalidParameter | DeviceNotReady | InsufficientResources | SendError

  datatype Request = Request(ownerPid: int, rootPid: int, flags: int, sizeHint: int, path: WString)

  datatype Item = Item(id: nat, req: Request)

  /** What knFcCommSendMessage brings back. */
  datatype Reply = Undelivered | Delivered(userStatus: nat)

  // ----- knFcQueueEnqueue and knFcQueueSendSyncFromCleanup -----

  datatype Pc =
    // knFcQueueEnqueue, by the operation about to run
    | EnterRundown | TestStop | Reserve | Allocate | Insert(item: Item) | Signal
    | Undo | CountDrop | LeaveRundown(st: Status)
    // knFcQueueSendSyncFromCleanup
    | SyncEnterRundown | SyncTestStop | SyncAllocate | SyncSend | SyncLeaveRundown(st: Status)
    | Returned(st: Status)

  /** The enqueue frame is either a call of its own or the fallback inside a sync send. */
  datatype Frame = Direct | Fallback(sendStatus: Status)

  /** One call, kept after it returns.  The last four fields are history. */
  datatype Call = Call(
    sync: bool, req: Request, frame: Frame, pc: Pc,
    asyncId: Option<nat>, syncId: Option<nat>, enqueueResult: Option<Status>, countedDrop: bool)

  // ----- knFcQueueWorker -----

  datatype Fate = Sent | SendFailed | Excluded | Discarded

  /**
   Wait is the call of KeWaitForSingleObject.  A worker that is already blocked in it is released by
   the very Set of the event: that is the run in which its step from Wait follows the Set at once.  A
   run in which the event is cleared again before that step is real only for a worker that has not
   reached the wait yet, having tested Stop before; both readings are runs of the model.
   */
  datatype Worker =
    | Top | Wait | TakeLock | Removed(item: Item) | Clearing | Have(item: Item)
    | Sending(item: Item) | Free(item: Item, fate: Fate) | Exited

  // ----- knFcQueueInitialize and knFcQueueUninitialize -----

  datatype Control =
    | Starting | StartFailStop | StartFailSignal | StartFailJoin | Running
    | SetStop | CloseRundown | AwaitRundown | FinalSignal | Join(next: nat)
    | DrainLock | DrainDecrement(item: Item) | DrainFree(item: Item) | Finished

  datatype Lock = Unlocked | ByWorker(i: nat) | ByDrain

  /** Where a queue item's memory is. */
  datatype Place =
    | Carried(call: nat) | Queued | Held(worker: nat) | Spent(worker: nat, fate: Fate)
    | Draining | Freed(fate: Fate)

  datatype Issuer = Async(call: nat) | Sync(call: nat)

  /** The fields of g_Queue that calls and workers share. */
  datatype Queue = Queue(
    stop: bool, event: bool, lock: Lock, list: seq<Item>, depth: int, dropped: int,
    sent: int, sendFailed: int, syncSent: int, syncFailed: int, nextId: nat,
    rundownRefs: int, rundownClosed: bool)

  /** History: where each item is, who was given each id, and what was freed. */
  datatype Memory = Memory(place: map<nat, Place>, issued: map<nat, Issuer>, frees: multiset<nat>)

  datatype State = State(
    q: Queue, m: Memory, size: nat, threadCount: nat,
    calls: map<nat, Call>, workers: seq<Worker>, control: Control)

  function Initial(size: nat): State {
    State(Queue(false, false, Unlocked, [], 0, 0, 0, 0, 0, 0, 0, 0, false),
          Memory(map[], map[], multiset{}), size, 0, map[], [], Starting)
  }

  datatype ThreadStart = Started | CreateFailed | ReferenceFailed

  datatype Action =
    | Begin(n: nat, sync: bool, req: Request)
    | Advance(n: nat, poolOk: bool, reply: Reply)
    | Work(i: nat, excluded: bool, poolOk: bool, reply: Reply)
    | Manage(start: ThreadStart)

  function Next(s: State, a: Action): Option<State> {
    match a
    case Begin(n, sync, req) =>
      if n in s.calls then None else Some(BeginCall(s, n, sync, req))
    case Advance(n, poolOk, reply) =>
      if n !in s.calls then None else AdvanceCall(s, n, poolOk, reply)
    case Work(i, excluded, poolOk, reply) =>
      if i >= |s.workers| then None else WorkStep(s, i, excluded, poolOk, reply)
    case Manage(start) => ManageStep(s, start)
  }

  /** The path test comes before anything shared is touched (lines 206-209 and 416-419). */
  function BeginCall(s: State, n: nat, sync: bool, req: Request): State {
    var pc := if req.path == [] then Returned(InvalidParameter)
              else if sync then SyncEnterRundown else EnterRundown;
    s.(calls := s.calls[n := Call(sync, req, Direct, pc, None, None, None, false)])
  }

  /** Where an enqueue frame goes once it is over. */
  function EndEnqueue(c: Call, st: Status): Call {
    c.(enqueueResult := Some(st),
       pc := if c.frame.Direct? then Returned(st) else SyncLeaveRundown(c.frame.sendStatus))
  }

  /** A sync send that is not acknowledged with user status 0 falls back to the queue (lines 466-486). */
  function AfterSend(c: Call, reply: Reply): Call {
    match reply
    case Delivered(0) => c.(pc := SyncLeaveRundown(Success))
    case Delivered(_) => c.(pc := EnterRundown, frame := Fallback(Success))
    case Undelivered => c.(pc := EnterRundown, frame := Fallback(SendError))
  }

  function Issue(m: Memory, id: nat, issuer: Issuer): Memory {
    m.(issued := m.issued[id := issuer])
  }

  function Move(m: Memory, id: nat, p: Place): Memory {
    m.(place := m.place[id := p])
  }

  function Release(m: Memory, id: nat, f: Fate): Memory {
    m.(place := m.place[id := Freed(f)], frees := m.frees + multiset{id})
  }

  /** One step of a call: it changes itself, g_Queue and the history, and nothing else. */
  datatype CallEffect = CallEffect(call: Call, q: Queue, m: Memory)

  function AdvanceCall(s: State, n: nat, poolOk: bool, reply: Reply): Option<State>
    requires n in s.calls
  {
    match CallStep(s.q, s.m, n, s.calls[n], poolOk, reply)
    case None => None
    case Some(e) => Some(s.(calls := s.calls[n := e.call], q := e.q, m := e.m))
  }

  function CallStep(q: Queue, m: Memory, n: nat, c: Call, poolOk: bool, reply: Reply): Option<CallEffect> {
    match c.pc
    case EnterRundown =>
      if q.rundownClosed then Some(CallEffect(EndEnqueue(c, DeviceNotReady), q, m))
      else Some(CallEffect(c.(pc := TestStop), q.(rundownRefs := q.rundownRefs + 1), m))
    case TestStop =>
      Some(CallEffect(c.(pc := if q.stop then LeaveRundown(DeviceNotReady) else Reserve), q, m))
    case Reserve =>
      Some(CallEffect(c.(pc := if q.depth + 1 > MAX_DEPTH then Undo else Allocate), q.(depth := q.depth + 1), m))
    case Undo =>
      Some(CallEffect(c.(pc := CountDrop), q.(depth := q.depth - 1), m))
    case CountDrop =>
      Some(CallEffect(c.(pc := LeaveRundown(InsufficientResources), countedDrop := true),
          q.(dropped := q.dropped + 1), m))
    case Allocate =>
      if !poolOk then Some(CallEffect(c.(pc := Undo), q, m))
      else
        var id := q.nextId + 1;
        Some(CallEffect(c.(pc := Insert(Item(id, c.req)), asyncId := Some(id)), q.(nextId := id),
                        Move(Issue(m, id, Async(n)), id, Carried(n))))
    case Insert(item) =>
      if q.lock != Unlocked then None
      else Some(CallEffect(c.(pc := Signal), q.(list := q.list + [item]), Move(m, item.id, Queued)))
    case Signal =>
      Some(CallEffect(c.(pc := LeaveRundown(Success)), q.(event := true), m))
    case LeaveRundown(st) =>
      Some(CallEffect(EndEnqueue(c, st), q.(rundownRefs := q.rundownRefs - 1), m))
    case SyncEnterRundown =>
      if q.rundownClosed then Some(CallEffect(c.(pc := Returned(DeviceNotReady)), q, m))
      else Some(CallEffect(c.(pc := SyncTestStop), q.(rundownRefs := q.rundownRefs + 1), m))
    case SyncTestStop =>
      Some(CallEffect(c.(pc := if q.stop then SyncLeaveRundown(DeviceNotReady) else SyncAllocate), q, m))
    case SyncAllocate =>
      if !poolOk then
        Some(CallEffect(c.(pc := SyncLeaveRundown(InsufficientResources)), q.(syncFailed := q.syncFailed + 1), m))
      else
        var id := q.nextId + 1;
        Some(CallEffect(c.(pc := SyncSend, syncId := Some(id)), q.(nextId := id), Issue(m, id, Sync(n))))
    case SyncSend =>
      Some(CallEffect(AfterSend(c, reply),
                      if reply == Delivered(0) then q.(syncSent := q.syncSent + 1)
                      else q.(syncFailed := q.syncFailed + 1), m))
    case SyncLeaveRundown(st) =>
      Some(CallEffect(c.(pc := Returned(st)), q.(rundownRefs := q.rundownRefs - 1), m))
    case Returned(_) => None
  }

  /** knFcQueueSendOne (lines 278-338) decides the fate of the item in hand. */
  function SendFate(excluded: bool, poolOk: bool, reply: Reply): Fate {
    if excluded then Excluded
    else if poolOk && reply == Delivered(0) then Sent
    else SendFailed
  }

  function CountFate(q: Queue, f: Fate): Queue {
    match f
    case Sent => q.(sent := q.sent + 1)
    case SendFailed => q.(sendFailed := q.sendFailed + 1)
    case _ => q
  }

  datatype WorkEffect = WorkEffect(worker: Worker, q: Queue, m: Memory)

  function WorkStep(s: State, i: nat, excluded: bool, poolOk: bool, reply: Reply): Option<State>
    requires i < |s.workers|
  {
    match WorkerStep(s.q, s.m, i, s.workers[i], SendFate(excluded, poolOk, reply))
    case None => None
    case Some(e) => Some(s.(workers := s.workers[i := e.worker], q := e.q, m := e.m))
  }

  function WorkerStep(q: Queue, m: Memory, i: nat, w: Worker, fate: Fate): Option<WorkEffect> {
    match w
    case Top => Some(WorkEffect(if q.stop then Exited else Wait, q, m))
    case Wait => if q.event then Some(WorkEffect(TakeLock, q, m)) else None
    case TakeLock =>
      if q.lock != Unlocked then None
      else if q.list == [] then Some(WorkEffect(Clearing, q.(lock := ByWorker(i)), m))
      else
        var item := q.list[0];
        Some(WorkEffect(Removed(item), q.(lock := ByWorker(i), list := q.list[1..]), Move(m, item.id, Held(i))))
    case Removed(item) => Some(WorkEffect(Have(item), q.(lock := Unlocked, depth := q.depth - 1), m))
    case Clearing => Some(WorkEffect(Top, q.(lock := Unlocked, event := false), m))
    case Have(item) =>
      if q.stop then Some(WorkEffect(Free(item, Discarded), q, Move(m, item.id, Spent(i, Discarded))))
      else Some(WorkEffect(Sending(item), q, m))
    case Sending(item) =>
      Some(WorkEffect(Free(item, fate), CountFate(q, fate), Move(m, item.id, Spent(i, fate))))
    case Free(item, f) => Some(WorkEffect(TakeLock, q, Release(m, item.id, f)))
    case Exited => None
  }

  function ManageStep(s: State, start: ThreadStart): Option<State> {
    match s.control
    case Starting =>
      if |s.workers| >= s.size then Some(s.(control := Running))
      else (
        match start
        case CreateFailed => Some(s.(control := SetStop))
        case ReferenceFailed => Some(s.(control := StartFailStop, workers := s.workers + [Top]))
        case Started => Some(s.(threadCount := s.threadCount + 1, workers := s.workers + [Top])))
    case StartFailStop => Some(s.(control := StartFailSignal, q := s.q.(stop := true)))
    case StartFailSignal => Some(s.(control := StartFailJoin, q := s.q.(event := true)))
    case StartFailJoin =>
      if |s.workers| > 0 && s.workers[|s.workers| - 1].Exited? then Some(s.(control := SetStop)) else None
    case Running => Some(s.(control := SetStop))
    case SetStop => Some(s.(control := CloseRundown, q := s.q.(stop := true)))
    case CloseRundown => Some(s.(control := AwaitRundown, q := s.q.(rundownClosed := true)))
    case AwaitRundown => if s.q.rundownRefs == 0 then Some(s.(control := FinalSignal)) else None
    case FinalSignal => Some(s.(control := Join(0), q := s.q.(event := true)))
    case Join(k) =>
      if k >= s.threadCount then Some(s.(control := DrainLock, threadCount := 0))
      else if k < |s.workers| && s.workers[k].Exited? then Some(s.(control := Join(k + 1)))
      else None
    case DrainLock =>
      if s.q.lock != Unlocked then None
      else if s.q.list == [] then Some(s.(control := Finished))
      else
        var item := s.q.list[0];
        Some(s.(control := DrainDecrement(item), q := s.q.(lock := ByDrain, list := s.q.list[1..]),
                m := Move(s.m, item.id, Draining)))
    case DrainDecrement(item) =>
      Some(s.(control := DrainFree(item), q := s.q.(lock := Unlocked, depth := s.q.depth - 1)))
    case DrainFree(item) =>
      Some(s.(control := DrainLock, m := Release(s.m, item.id, Discarded)))
    case Finished => None
  }

  /** The state after a whole interleaving, if every action in it was enabled in turn. */
  function Run(s: State, acts: seq<Action>): Option<State> {
    if acts == [] then Some(s)
    else
      match Run(s, acts[..|acts| - 1])
      case None => None
      case Some(t) => Next(t, acts[|acts| - 1])
  }

  ghost predicate Reachable(size: nat, s: State) {
    exists acts: seq<Action> :: Run(Initial(size), acts) == Some(s)
  }
}
