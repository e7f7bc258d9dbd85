/**
 Deferred EXITED notifications (knFcTrack.cpp lines 93-290): notify callbacks put entries on a
 list, one system thread pushes them, and knFcExitDeferStop closes the door, signals, joins and
 drains.  The same atomicity as in the backup queue; the only region with two shared effects is
 "list empty, clear the event", during which the worker holds the lock.
 The machine starts where knFcExitDeferStart has succeeded.
 */
module ExitDefer {
  import opened Options

  datatype Event = Event(pid: nat, ppid: nat, root: nat, flags: nat)

  /** One allocated KNFC_EXIT_DEFER; the ticket tells allocations apart. */
  datatype Entry = Entry(ticket: nat, event: Event)

  datatype Producer =
    | TestRunning(what: Event) | Allocate(what: Event) | Insert(e: Entry) | FreeRejected(e: Entry) | Signal | Done

  /** Wait is the call of KeWaitForSingleObject; a worker already blocked there steps on with the Set itself. */
  datatype Worker =
    | LoopTest | Wait | TakeLock | Clearing | TestStop(e: Entry) | Push(e: Entry) | Free(e: Entry) | Exited

  datatype Control = Active | SetFlags | FinalSignal | Join | Drain | FreeDrained(e: Entry) | Finished

  datatype Place = Carried(producer: nat) | Listed | InHand | Drained | Freed

  /** g_ExitDefer. */
  datatype Shared = Shared(running: bool, stop: bool, event: bool, list: seq<Entry>)

  /** What has happened: insertions, removals by the worker, push attempts, removals by the drain, frees. */
  datatype History = History(
    inserted: seq<Entry>, taken: seq<Entry>, attempted: seq<Entry>, drained: seq<Entry>,
    tickets: nat, place: map<nat, Place>, frees: multiset<nat>)

  datatype State = State(g: Shared, h: History, producers: map<nat, Producer>, worker: Worker, control: Control)

  function Initial(): State {
    State(Shared(true, false, false, []), History([], [], [], [], 0, map[], multiset{}), map[], LoopTest, Active)
  }

  datatype Action = Begin(n: nat, what: Event) | Produce(n: nat, poolOk: bool) | Work | Manage

  function Next(s: State, a: Action): Option<State> {
    match a
    case Begin(n, what) =>
      if n in s.producers then None else Some(s.(producers := s.producers[n := TestRunning(what)]))
    case Produce(n, poolOk) =>
      if n !in s.producers then None
      else (
        match ProducerStep(s.g, s.h, n, s.producers[n], poolOk, s.worker.Clearing?)
        case None => None
        case Some(x) => Some(s.(producers := s.producers[n := x.0], g := x.1, h := x.2)))
    case Work => (
      match WorkerStep(s.g, s.h, s.worker)
      case None => None
      case Some(x) => Some(s.(worker := x.0, g := x.1, h := x.2)))
    case Manage => (
      match ControlStep(s.g, s.h, s.control, s.worker)
      case None => None
      case Some(x) => Some(s.(control := x.0, g := x.1, h := x.2)))
  }

  /** knFcExitDeferEnqueue; Insert is the region of lines 143-151, which re-tests both flags. */
  function ProducerStep(g: Shared, h: History, n: nat, p: Producer, poolOk: bool, locked: bool)
    : Option<(Producer, Shared, History)>
  {
    match p
    case TestRunning(what) => Some((if g.running then Allocate(what) else Done, g, h))
    case Allocate(what) =>
      if !poolOk then Some((Done, g, h))
      else
        var id := h.tickets + 1;
        Some((Insert(Entry(id, what)), g, h.(tickets := id, place := h.place[id := Carried(n)])))
    case Insert(e) =>
      if locked then None
      else if !g.running || g.stop then Some((FreeRejected(e), g, h))
      else Some((Signal, g.(list := g.list + [e]),
                 h.(inserted := h.inserted + [e], place := h.place[e.ticket := Listed])))
    case FreeRejected(e) => Some((Done, g, FreeEntry(h, e)))
    case Signal => Some((Done, g.(event := true), h))
    case Done => None
  }

  function FreeEntry(h: History, e: Entry): History {
    h.(place := h.place[e.ticket := Freed], frees := h.frees + multiset{e.ticket})
  }

  /** knFcExitDeferWorker. */
  function WorkerStep(g: Shared, h: History, w: Worker): Option<(Worker, Shared, History)> {
    match w
    case LoopTest => Some((if g.stop then Exited else Wait, g, h))
    case Wait => if g.event then Some((TakeLock, g, h)) else None
    case TakeLock =>
      if g.list == [] then Some((Clearing, g, h))
      else
        var e := g.list[0];
        Some((TestStop(e), g.(list := g.list[1..]), h.(taken := h.taken + [e], place := h.place[e.ticket := InHand])))
    case Clearing => Some((LoopTest, g.(event := false), h))
    case TestStop(e) => Some((if g.stop then Free(e) else Push(e), g, h))
    case Push(e) => Some((Free(e), g, h.(attempted := h.attempted + [e])))
    case Free(e) => Some((TakeLock, g, FreeEntry(h, e)))
    case Exited => None
  }

  /** knFcExitDeferStop. */
  function ControlStep(g: Shared, h: History, c: Control, w: Worker): Option<(Control, Shared, History)> {
    match c
    case Active => Some((if g.running then SetFlags else Finished, g, h))
    case SetFlags => if w.Clearing? then None else Some((FinalSignal, g.(stop := true, running := false), h))
    case FinalSignal => Some((Join, g.(event := true), h))
    case Join => if w.Exited? then Some((Drain, g, h)) else None
    case Drain =>
      if g.list == [] then Some((Finished, g, h))
      else
        var e := g.list[0];
        Some((FreeDrained(e), g.(list := g.list[1..]),
            h.(drained := h.drained + [e], place := h.place[e.ticket := Drained])))
    case FreeDrained(e) => Some((Drain, g, FreeEntry(h, e)))
    case Finished => None
  }

  function Run(s: State, acts: seq<Action>): Option<State> {
    if acts == [] then Some(s)
    else
      match Run(s, acts[..|acts| - 1])
      case None => None
      case Some(t) => Next(t, acts[|acts| - 1])
  }

  // ----- the invariant -----

  predicate Closed(c: Control) { c.FinalSignal? || Signalled(c) }

  predicate Signalled(c: Control) { c.Join? || c.Drain? || c.FreeDrained? || c.Finished? }

  ghost predicate FlagInv(g: Shared, w: Worker, c: Control) {
    && (Closed(c) <==> g.stop) && (g.stop <==> !g.running)
    && (w.Clearing? ==> g.list == [])
    && (c.Drain? || c.FreeDrained? || c.Finished? ==> w.Exited?)
    && (c.Finished? ==> g.list == [])
    && (Signalled(c) && w.Wait? ==> g.event)
  }

  predicate Holding(w: Worker) { w.TestStop? || w.Push? || w.Free? }

  /** Insertion order is removal order, and the push attempts are an initial segment of it. */
  ghost predicate OrderInv(g: Shared, h: History, w: Worker, c: Control) {
    && h.inserted == h.taken + h.drained + g.list
    && (h.drained != [] ==> w.Exited?)
    && (w.TestStop? || w.Push? ==> h.taken != [] && h.taken[|h.taken| - 1] == w.e)
    && h.attempted <= h.taken
    && (w.Push? || (w.TestStop? && !g.stop) ==> |h.attempted| == |h.taken| - 1)
    && (!g.stop && !w.TestStop? && !w.Push? ==> |h.attempted| == |h.taken|)
  }

  ghost predicate At(h: History, e: Entry, p: Place) {
    e.ticket in h.place && h.place[e.ticket] == p
  }

  ghost predicate PlaceInv(g: Shared, h: History, producers: map<nat, Producer>, w: Worker, c: Control) {
    && (forall k :: k in h.place <==> 1 <= k <= h.tickets)
    && (forall n :: n in producers && (producers[n].Insert? || producers[n].FreeRejected?) ==>
         At(h, producers[n].e, Carried(n)))
    && (forall j :: 0 <= j < |g.list| ==> At(h, g.list[j], Listed))
    && (forall j, k :: 0 <= j < k < |g.list| ==> g.list[j].ticket != g.list[k].ticket)
    && (Holding(w) ==> At(h, w.e, InHand))
    && (c.FreeDrained? ==> At(h, c.e, Drained))
    && (forall k: nat :: h.frees[k] == if k in h.place && h.place[k] == Freed then 1 else 0)
  }

  ghost predicate Owned(k: nat, p: Place, g: Shared, producers: map<nat, Producer>, w: Worker, c: Control) {
    match p
    case Carried(n) => n in producers && (producers[n].Insert? || producers[n].FreeRejected?)
        && producers[n].e.ticket == k
    case Listed => Ticketed(k, g.list)
    case InHand => Holding(w) && w.e.ticket == k
    case Drained => c.FreeDrained? && c.e.ticket == k
    case Freed => true
  }

  ghost predicate Ticketed(k: nat, list: seq<Entry>) {
    exists j :: 0 <= j < |list| && list[j].ticket == k
  }

  ghost predicate OwnerInv(g: Shared, h: History, producers: map<nat, Producer>, w: Worker, c: Control) {
    forall k :: k in h.place ==> Owned(k, h.place[k], g, producers, w, c)
  }

  ghost predicate WakeInv(g: Shared, producers: map<nat, Producer>) {
    g.list != [] ==> g.event || exists n :: n in producers && producers[n].Signal?
  }

  ghost predicate Inv(s: State) {
    && FlagInv(s.g, s.worker, s.control) && OrderInv(s.g, s.h, s.worker, s.control) && WakeInv(s.g, s.producers)
    && PlaceInv(s.g, s.h, s.producers, s.worker, s.control) && OwnerInv(s.g, s.h, s.producers, s.worker, s.control)
  }

  lemma KeepsFlags(s: State, a: Action)
    requires Inv(s) && Next(s, a).Some?
    ensures var t := Next(s, a).value; FlagInv(t.g, t.worker, t.control)
  {
    hide OrderInv, PlaceInv, OwnerInv;
  }

  lemma ProduceOrder(g: Shared, h: History, n: nat, p: Producer, poolOk: bool, w: Worker, c: Control)
    requires FlagInv(g, w, c) && OrderInv(g, h, w, c) && ProducerStep(g, h, n, p, poolOk, w.Clearing?).Some?
    ensures var x := ProducerStep(g, h, n, p, poolOk, w.Clearing?).value; OrderInv(x.1, x.2, w, c)
  {}

  lemma WorkOrder(g: Shared, h: History, w: Worker, c: Control)
    requires FlagInv(g, w, c) && OrderInv(g, h, w, c) && WorkerStep(g, h, w).Some?
    ensures var x := WorkerStep(g, h, w).value; OrderInv(x.1, x.2, x.0, c)
  {}

  lemma ControlOrder(g: Shared, h: History, c: Control, w: Worker)
    requires FlagInv(g, w, c) && OrderInv(g, h, w, c) && ControlStep(g, h, c, w).Some?
    ensures var x := ControlStep(g, h, c, w).value; OrderInv(x.1, x.2, w, x.0)
  {}

  lemma KeepsOrder(s: State, a: Action)
    requires Inv(s) && Next(s, a).Some?
    ensures var t := Next(s, a).value; OrderInv(t.g, t.h, t.worker, t.control)
  {
    hide OrderInv, FlagInv, PlaceInv, OwnerInv, WakeInv, ProducerStep, WorkerStep, ControlStep;
    match a
    case Begin(_, _) =>
    case Produce(n, poolOk) => ProduceOrder(s.g, s.h, n, s.producers[n], poolOk, s.worker, s.control);
    case Work => WorkOrder(s.g, s.h, s.worker, s.control);
    case Manage => ControlOrder(s.g, s.h, s.control, s.worker);
  }

  lemma KeepsWake(s: State, a: Action)
    requires Inv(s) && Next(s, a).Some?
    ensures var t := Next(s, a).value; WakeInv(t.g, t.producers)
  {
    hide OrderInv, PlaceInv, OwnerInv;
    var t := Next(s, a).value;
    if s.g.list != [] && !s.g.event {
      var n :| n in s.producers && s.producers[n].Signal?;
      assert n in t.producers;
    }
    if a.Produce? { assert a.n in t.producers; }
  }

  /** The two halves of the item accounting, as one. */
  ghost predicate MemoryInv(s: State) {
    PlaceInv(s.g, s.h, s.producers, s.worker, s.control) && OwnerInv(s.g, s.h, s.producers, s.worker, s.control)
  }

  lemma TailTickets(list: seq<Entry>)
    requires list != []
    ensures forall k :: Ticketed(k, list) <==> k == list[0].ticket || Ticketed(k, list[1..])
  {
    forall k | Ticketed(k, list) && k != list[0].ticket ensures Ticketed(k, list[1..]) {
      var j :| 0 <= j < |list| && list[j].ticket == k;
      assert list[1..][j - 1].ticket == k;
    }
  }

  lemma TestMemory(s: State, n: nat, poolOk: bool)
    requires MemoryInv(s) && Next(s, Produce(n, poolOk)).Some?
    requires s.producers[n].TestRunning? || s.producers[n].Signal?
    ensures MemoryInv(Next(s, Produce(n, poolOk)).value)
  {}

  lemma AllocateMemory(s: State, n: nat, poolOk: bool)
    requires MemoryInv(s) && Next(s, Produce(n, poolOk)).Some? && s.producers[n].Allocate?
    ensures MemoryInv(Next(s, Produce(n, poolOk)).value)
  {}

  lemma RejectMemory(s: State, n: nat, poolOk: bool)
    requires MemoryInv(s) && Next(s, Produce(n, poolOk)).Some? && s.producers[n].FreeRejected?
    ensures MemoryInv(Next(s, Produce(n, poolOk)).value)
  {}

  lemma InsertMemory(s: State, n: nat, poolOk: bool)
    requires MemoryInv(s) && Next(s, Produce(n, poolOk)).Some? && s.producers[n].Insert?
    ensures MemoryInv(Next(s, Produce(n, poolOk)).value)
  {
    var t := Next(s, Produce(n, poolOk)).value;
    assert forall j :: 0 <= j < |s.g.list| ==> t.g.list[j] == s.g.list[j];
    if s.g.running && !s.g.stop {
      assert t.g.list[|s.g.list|] == s.producers[n].e;
    }
  }

  lemma ProduceMemory(s: State, n: nat, poolOk: bool)
    requires MemoryInv(s) && Next(s, Produce(n, poolOk)).Some?
    ensures MemoryInv(Next(s, Produce(n, poolOk)).value)
  {
    hide MemoryInv;
    match s.producers[n]
    case TestRunning(_) | Signal => TestMemory(s, n, poolOk);
    case Allocate(_) => AllocateMemory(s, n, poolOk);
    case Insert(_) => InsertMemory(s, n, poolOk);
    case FreeRejected(_) => RejectMemory(s, n, poolOk);
    case Done =>
  }

  lemma TakeMemory(s: State)
    requires MemoryInv(s) && s.worker.TakeLock? && s.g.list != []
    ensures MemoryInv(Next(s, Work).value)
  {
    TailTickets(s.g.list);
  }

  lemma FreeMemory(s: State)
    requires MemoryInv(s) && s.worker.Free?
    ensures MemoryInv(Next(s, Work).value)
  {}

  lemma QuietMemory(s: State)
    requires MemoryInv(s) && Next(s, Work).Some? && !s.worker.Free? && (s.worker.TakeLock? ==> s.g.list == [])
    ensures MemoryInv(Next(s, Work).value)
  {
    var t := Next(s, Work).value;
    assert t.g.list == s.g.list && t.h.place == s.h.place && t.h.tickets == s.h.tickets && t.h.frees == s.h.frees;
    assert Holding(t.worker) == Holding(s.worker) && (Holding(s.worker) ==> t.worker.e == s.worker.e);
    QuietFrame(s, t);
  }

  /** The accounting depends on the lists, the places and the hands only. */
  lemma QuietFrame(s: State, t: State)
    requires MemoryInv(s)
    requires t.g.list == s.g.list && t.h.place == s.h.place && t.h.tickets == s.h.tickets && t.h.frees == s.h.frees
    requires t.producers == s.producers
    requires Holding(t.worker) == Holding(s.worker) && (Holding(s.worker) ==> t.worker.e == s.worker.e)
    requires t.control.FreeDrained? == s.control.FreeDrained? && (s.control.FreeDrained? ==> t.control.e == s.control.e)
    ensures MemoryInv(t)
  {}

  lemma WorkMemory(s: State)
    requires MemoryInv(s) && Next(s, Work).Some?
    ensures MemoryInv(Next(s, Work).value)
  {
    hide MemoryInv;
    if s.worker.Free? {
      FreeMemory(s);
    } else if s.worker.TakeLock? && s.g.list != [] {
      TakeMemory(s);
    } else {
      QuietMemory(s);
    }
  }

  lemma DrainMemory(s: State)
    requires MemoryInv(s) && s.control.Drain? && s.g.list != []
    ensures MemoryInv(Next(s, Manage).value)
  {
    TailTickets(s.g.list);
  }

  lemma FreeDrainedMemory(s: State)
    requires MemoryInv(s) && s.control.FreeDrained?
    ensures MemoryInv(Next(s, Manage).value)
  {}

  lemma ManageMemory(s: State)
    requires MemoryInv(s) && Next(s, Manage).Some?
    ensures MemoryInv(Next(s, Manage).value)
  {
    hide MemoryInv;
    if s.control.FreeDrained? {
      FreeDrainedMemory(s);
    } else if s.control.Drain? && s.g.list != [] {
      DrainMemory(s);
    } else {
      QuietFrame(s, Next(s, Manage).value);
    }
  }

  lemma BeginMemory(s: State, n: nat, what: Event)
    requires MemoryInv(s) && n !in s.producers
    ensures MemoryInv(Next(s, Begin(n, what)).value)
  {}

  lemma KeepsMemory(s: State, a: Action)
    requires MemoryInv(s) && Next(s, a).Some?
    ensures MemoryInv(Next(s, a).value)
  {
    hide MemoryInv;
    match a
    case Begin(n, what) => BeginMemory(s, n, what);
    case Produce(n, poolOk) => ProduceMemory(s, n, poolOk);
    case Work => WorkMemory(s);
    case Manage => ManageMemory(s);
  }

  lemma KeepsInv(s: State, a: Action)
    requires Inv(s) && Next(s, a).Some?
    ensures Inv(Next(s, a).value)
  {
    KeepsFlags(s, a);
    KeepsOrder(s, a);
    KeepsWake(s, a);
    KeepsMemory(s, a);
    hide FlagInv, OrderInv, PlaceInv, OwnerInv, WakeInv, Next;
  }

  lemma {:induction false} RunInv(acts: seq<Action>)
    requires Run(Initial(), acts).Some?
    ensures Inv(Run(Initial(), acts).value)
  {
    if acts != [] {
      RunInv(acts[..|acts| - 1]);
      KeepsInv(Run(Initial(), acts[..|acts| - 1]).value, acts[|acts| - 1]);
    }
  }

  // ----- what every run guarantees -----

  /** Push attempts happen in insertion order, with none skipped until Stop is seen. */
  lemma PushesInInsertionOrder(acts: seq<Action>)
    requires Run(Initial(), acts).Some?
    ensures var s := Run(Initial(), acts).value;
      && s.h.attempted <= s.h.inserted
      && (!s.g.stop && s.g.list == [] && (s.worker.Wait? || s.worker.LoopTest? || s.worker.TakeLock?) ==>
           s.h.attempted == s.h.inserted)
  {
    RunInv(acts);
    var s := Run(Initial(), acts).value;
    if !s.g.stop && s.g.list == [] && !Holding(s.worker) && !s.worker.Clearing? && !s.worker.Exited? {
      assert s.h.attempted == s.h.taken;
    }
  }

  /** When knFcExitDeferStop returns and no callback is still inside, every entry has been freed exactly once. */
  lemma StopFreesEverything(acts: seq<Action>)
    requires Run(Initial(), acts).Some?
    ensures forall k: nat :: Run(Initial(), acts).value.h.frees[k] <= 1
    ensures var s := Run(Initial(), acts).value;
      s.control.Finished? ==>
        && s.g.list == [] && s.worker.Exited?
        && ((forall n :: n in s.producers ==> s.producers[n].Done?) ==>
              forall k: nat :: s.h.frees[k] == if 1 <= k <= s.h.tickets then 1 else 0)
  {
    RunInv(acts);
    var s := Run(Initial(), acts).value;
    if s.control.Finished? && forall n :: n in s.producers ==> s.producers[n].Done? {
      forall k | k in s.h.place ensures s.h.place[k] == Freed {
        assert Owned(k, s.h.place[k], s.g, s.producers, s.worker, s.control);
      }
    }
  }

  lemma ClosedDoorStep(s: State, a: Action)
    requires Inv(s) && Closed(s.control) && Next(s, a).Some?
    ensures Closed(Next(s, a).value.control) && Next(s, a).value.h.inserted == s.h.inserted
  {
    hide OrderInv, PlaceInv, OwnerInv, WakeInv;
  }

  /** Once the door is closed, nothing more is ever inserted. */
  lemma {:induction false} ClosedDoorStaysClosed(s: State, acts: seq<Action>)
    requires Inv(s) && Closed(s.control) && Run(s, acts).Some?
    ensures var t := Run(s, acts).value; Inv(t) && Closed(t.control) && t.h.inserted == s.h.inserted
  {
    if acts != [] {
      ClosedDoorStaysClosed(s, acts[..|acts| - 1]);
      hide Inv;
      ClosedDoorStep(Run(s, acts[..|acts| - 1]).value, acts[|acts| - 1]);
      KeepsInv(Run(s, acts[..|acts| - 1]).value, acts[|acts| - 1]);
    }
  }

  // ----- the worker exits -----

  /** Worker steps that may still be taken once the stop has been signalled. */
  function Measure(s: State): nat {
    5 * |s.g.list| + (
      match s.worker
      case Exited => 0
      case LoopTest => 1
      case Clearing => 2
      case TakeLock => 3
      case Wait => 4
      case Free(_) => 4
      case Push(_) => 5
      case TestStop(_) => 6)
  }

  /** After the signal the worker can always take its next step: it is never left at a clear event. */
  lemma WorkerNeverBlocks(acts: seq<Action>)
    requires Run(Initial(), acts).Some? && Signalled(Run(Initial(), acts).value.control)
    ensures Run(Initial(), acts).value.worker.Exited? || Next(Run(Initial(), acts).value, Work).Some?
  {
    RunInv(acts);
  }

  function WorkSteps(acts: seq<Action>): nat {
    if acts == [] then 0
    else WorkSteps(acts[..|acts| - 1]) + (if acts[|acts| - 1].Work? then 1 else 0)
  }

  lemma MeasureWork(s: State)
    requires FlagInv(s.g, s.worker, s.control) && Signalled(s.control) && Next(s, Work).Some?
    ensures Measure(Next(s, Work).value) < Measure(s)
  {}

  lemma MeasureStep(s: State, a: Action)
    requires Inv(s) && Signalled(s.control) && Next(s, a).Some?
    ensures var t := Next(s, a).value;
      Inv(t) && Signalled(t.control) && Measure(t) + (if a.Work? then 1 else 0) <= Measure(s)
  {
    KeepsInv(s, a);
    assert FlagInv(s.g, s.worker, s.control);
    hide Inv;
    if a.Work? { MeasureWork(s); }
  }

  /** However the others interleave, the worker takes at most Measure more steps, so the join returns. */
  lemma {:induction false} WorkerExits(s: State, acts: seq<Action>)
    requires Inv(s) && Signalled(s.control) && Run(s, acts).Some?
    ensures var t := Run(s, acts).value;
      Inv(t) && Signalled(t.control) && WorkSteps(acts) + Measure(t) <= Measure(s)
  {
    if acts != [] {
      WorkerExits(s, acts[..|acts| - 1]);
      MeasureStep(Run(s, acts[..|acts| - 1]).value, acts[|acts| - 1]);
    }
  }
}
