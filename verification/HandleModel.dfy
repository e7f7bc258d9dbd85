/**
 One file handle as the minifilter sees it (knFcCallbacks.cpp, knFcContexts.cpp), as a concurrent
 step machine: callbacks of any number of operations on any number of handles interleave.

 One step is one Interlocked operation, one read of Flags or of DeleteDispositionObserved, one
 region under NameLock, one reference taken or dropped, or one wait for the file system;
 adjacent steps that touch only the callback's own data are joined.  What the kernel decides
 comes with the action.  Cleanups of one handle follow each other, as the I/O manager sends them.
 */
module HandleModel {
  import opened Options
  import opened WideText

  // ----- Flags -----

  /** The bits KNFC_SHC_* of Flags. */
  datatype Bits = Bits(writeIntent: bool, modified: bool, deleteOnClose: bool, renamed: bool, created: bool,
      backedUp: bool)

  datatype FlagOp = OrModified | Observe | OrDelete | AndNotDelete | OrRenamed | OrBackedUp

  // ----- create requests -----

  datatype Disposition = Supersede | Open | Create | OpenIf | Overwrite | OverwriteIf

  datatype CreateRequest = CreateRequest(access: bv32, disposition: Disposition, deleteOnClose: bool)

  /** FILE_WRITE_DATA, APPEND_DATA, WRITE_EA, WRITE_ATTRIBUTES, DELETE, MAXIMUM_ALLOWED, GENERIC_ALL, GENERIC_WRITE. */
  const WRITE_ACCESS: bv32 := 0x2 | 0x4 | 0x10 | 0x100 | 0x1_0000 | 0x200_0000 | 0x1000_0000 | 0x4000_0000

  /** knFcDecideWriteIntent. */
  function DecideWriteIntent(r: CreateRequest): Bits {
    var makes := r.disposition.Create? || r.disposition.Supersede? || r.disposition.Overwrite?
        || r.disposition.OverwriteIf?;
    var changes := makes || r.deleteOnClose;
    Bits(r.access & WRITE_ACCESS != 0 || changes, changes, r.deleteOnClose, false, makes, false)
  }

  // ----- set-information requests -----

  /** A disposition buffer that is missing, too short or faults when read is None. */
  datatype SetInfo =
    | EndOfFile | Allocation | ValidDataLength | Rename | RenameEx | Other
    | Dispose(delete: Option<bool>) | DisposeEx(delete: Option<bool>)

  datatype Actions = Actions(markModified: bool, setDelete: bool, clearDelete: bool, captureRename: bool)

  const NO_ACTIONS := Actions(false, false, false, false)

  /** knFcGetSetInformationActions. */
  function GetSetInformationActions(i: SetInfo): Actions {
    match i
    case EndOfFile | Allocation | ValidDataLength => Actions(true, false, false, false)
    case Rename | RenameEx => Actions(true, false, false, true)
    case Dispose(Some(d)) => Actions(false, d, !d, false)
    case DisposeEx(Some(d)) => Actions(false, d, !d, false)
    case _ => NO_ACTIONS
  }

  /** The Interlocked operations of knFcPostSetInformation (lines 477-500), in order. */
  function OpsOf(a: Actions, atCreate: bool): seq<FlagOp> {
    (if a.markModified then [OrModified] else [])
    + (if a.setDelete then [Observe, OrDelete]
       else if a.clearDelete && !atCreate then [Observe, AndNotDelete]
       else if a.clearDelete then [Observe]
       else [])
    + (if a.captureRename then [OrRenamed] else [])
  }

  // ----- contexts -----

  /** A pool block that holds a name; names are never empty. */
  datatype Buffer = Buffer(block: nat, text: WString)

  /** KNFC_SHC with its reference count; cleaner is the cleanup in progress; the rest is history. */
  datatype Context = Context(
    flags: Bits, observed: bool, atCreate: bool, original: Option<Buffer>, current: Option<Buffer>,
    refs: int, cleaner: Option<nat>, born: Bits, ops: seq<FlagOp>, renames: seq<WString>)

  function Apply(c: Context, op: FlagOp): Context {
    var d := c.(ops := c.ops + [op]);
    match op
    case OrModified => d.(flags := c.flags.(modified := true))
    case Observe => d.(observed := true)
    case OrDelete => d.(flags := c.flags.(deleteOnClose := true))
    case AndNotDelete => d.(flags := c.flags.(deleteOnClose := false))
    case OrRenamed => d.(flags := c.flags.(renamed := true))
    case OrBackedUp => d.(flags := c.flags.(backedUp := true))
  }

  // ----- pool memory -----

  datatype Place = Carried(frame: nat) | OriginalOf(ctx: nat) | CurrentOf(ctx: nat) | Freed

  /** Blocks are numbered as they are allocated. */
  datatype Pool = Pool(next: nat, place: map<nat, Place>, frees: multiset<nat>)

  function Alloc(p: Pool, w: Place): Pool {
    p.(next := p.next + 1, place := p.place[p.next := w])
  }

  function FreeBlock(p: Pool, b: nat): Pool {
    p.(place := p.place[b := Freed], frees := p.frees + multiset{b})
  }

  function FreeBuffer(p: Pool, b: Option<Buffer>): Pool {
    if b.Some? then FreeBlock(p, b.value.block) else p
  }

  /** knFcShcCleanup. */
  function FreeNames(p: Pool, c: Context): Pool {
    FreeBuffer(FreeBuffer(p, c.original), c.current)
  }

  // ----- callbacks -----

  datatype How = Sync | Elevated | Posted

  datatype Capture = Capture(how: How, flags: Bits, hint: int, name: WString)

  /** What became of a cleanup. */
  datatype Outcome =
    | Unsettled | AlreadyBackedUp | Untouched | NoName | Filtered | NothingLeft | OutOfMemory | Drained
    | Captured(what: Capture)

  /** What a cleanup carries from the choice of a name on. */
  datatype Job = Job(snap: Bits, copy: Option<nat>, name: WString, hint: int)

  /** Where a callback stands: the step it is about to take. */
  datatype Pc =
    | Attach(file: nat)
    | WritePending
    | AllocSetInfo(actions: Actions) | SetInfoPending(actions: Actions, block: nat)
    | Ops(todo: seq<FlagOp>, rename: bool)
    | ChooseSafe | QueryRename | Swap(block: nat, name: WString) | FreeOld(block: nat)
    | ReadFlags | Gate(snap: Bits) | CopyName(snap: Bits) | LiveQuery(snap: Bits)
    | Reconcile(job: Job) | SyncSend(job: Job) | MarkBackedUp(job: Job) | ElevatedEnqueue(job: Job)
    | AllocCleanup(job: Job) | FreeCopy(job: Job, completion: Option<nat>)
    | Release | ReleaseThenPost(job: Job, block: nat)
    | CleanupPending(job: Job, block: nat) | FreeCompletion(block: nat)
    | Done

  /** What a cleanup saw, kept as history. */
  datatype Seen = Seen(modified: bool, renames: seq<WString>, copied: bool, live: WString, original: WString)

  datatype Frame = Frame(ctx: nat, pc: Pc, cleanup: bool, passive: bool, outcome: Outcome, seen: Seen)

  function Callback(ctx: nat, pc: Pc): Frame {
    Frame(ctx, pc, false, false, Unsettled, Seen(false, [], false, [], []))
  }

  function Cleanup(ctx: nat, passive: bool, modified: bool): Frame {
    Frame(ctx, ReadFlags, true, passive, Unsettled, Seen(modified, [], false, [], []))
  }

  datatype State = State(
    contexts: map<nat, Context>, attached: map<nat, nat>, frames: map<nat, Frame>, pool: Pool,
    nextCtx: nat, attempts: multiset<nat>, synced: map<nat, nat>)

  function Initial(): State {
    State(map[], map[], map[], Pool(0, map[], multiset{}), 0, multiset{}, map[])
  }

  /** FILE_STANDARD_INFORMATION. */
  datatype Standard = Standard(size: int, deletePending: bool)

  /** What the kernel answers: allocation, a name query, an operation's success, and the cleanup's environment. */
  datatype Answer = Answer(
    poolOk: bool, name: Option<WString>, success: bool, safe: bool,
    excluded: bool, topLevelFree: bool, standard: Option<Standard>)

  datatype Action =
    | Opened(n: nat, file: nat, req: CreateRequest, name: Option<WString>, poolOk: bool)
    | Writing(n: nat, file: nat)
    | SettingInfo(n: nat, file: nat, info: SetInfo)
    | Mapping(n: nat, file: nat, writable: bool)
    | Cleaning(n: nat, file: nat, passive: bool)
    | Step(n: nat, answer: Answer)
    | Close(file: nat)

  function Next(s: State, a: Action): Option<State> {
    match a
    case Opened(n, file, req, name, poolOk) =>
        if n in s.frames then None else Some(PostCreate(s, n, file, req, name, poolOk))
    case Writing(n, file) => Begin(s, n, file, WritePending)
    case SettingInfo(n, file, info) =>
      var actions := GetSetInformationActions(info);
      if actions == NO_ACTIONS then Some(s) else Begin(s, n, file, AllocSetInfo(actions))
    case Mapping(n, file, writable) => Begin(s, n, file, if writable then Ops([OrModified], false) else Release)
    case Cleaning(n, file, passive) => BeginCleanup(s, n, file, passive)
    case Step(n, answer) =>
      if n !in s.frames || s.frames[n].pc.Done? then None
      else Some(Advance(s, n, answer))
    case Close(file) => if file !in s.attached then Some(s) else Some(Detach(s, file))
  }

  /** knFcPostCreate up to the context's publication, for a create that passed its early exits. */
  function PostCreate(s: State, n: nat, file: nat, req: CreateRequest, name: Option<WString>, poolOk: bool): State {
    var flags := DecideWriteIntent(req);
    if !flags.writeIntent then s
    else
      var id := s.nextCtx;
      var named := name.Some? && name.value != [] && poolOk;
      var original := if named then Some(Buffer(s.pool.next, name.value)) else None;
      var c := Context(flags, false, req.deleteOnClose, original, None,
                       1, None, flags, [], []);
      s.(contexts := s.contexts[id := c], nextCtx := id + 1,
         pool := if named then Alloc(s.pool, OriginalOf(id)) else s.pool,
         frames := s.frames[n := Callback(id, Attach(file))])
  }

  /** The pre-operation side: FltGetStreamHandleContext takes a reference; without a context the filter stays out. */
  function Begin(s: State, n: nat, file: nat, pc: Pc): Option<State> {
    if n in s.frames then None
    else if file !in s.attached || s.attached[file] !in s.contexts then Some(s)
    else
      var id := s.attached[file];
      Some(s.(contexts := s.contexts[id := s.contexts[id].(refs := s.contexts[id].refs + 1)],
              frames := s.frames[n := Callback(id, pc)]))
  }

  function BeginCleanup(s: State, n: nat, file: nat, passive: bool): Option<State> {
    if n in s.frames then None
    else if file !in s.attached || s.attached[file] !in s.contexts then Some(s)
    else
      var id := s.attached[file];
      var c := s.contexts[id];
      if c.cleaner.Some? then None
      else Some(s.(contexts := s.contexts[id := c.(refs := c.refs + 1, cleaner := Some(n))],
                   frames := s.frames[n := Cleanup(id, passive, c.flags.modified)]))
  }

  /** Drops one reference; the last one frees the names and the context. */
  function Drop(s: State, id: nat): State
    requires id in s.contexts
  {
    var c := s.contexts[id];
    if c.refs == 1 then s.(contexts := s.contexts - {id}, pool := FreeNames(s.pool, c))
    else s.(contexts := s.contexts[id := c.(refs := c.refs - 1)])
  }

  /** IRP_MJ_CLOSE: the filter manager lets go of the handle's context. */
  function Detach(s: State, file: nat): State
    requires file in s.attached
  {
    var t := s.(attached := s.attached - {file});
    if s.attached[file] in s.contexts then Drop(t, s.attached[file]) else t
  }

  /** One step of callback n. */
  function Advance(s: State, n: nat, o: Answer): State
    requires n in s.frames && !s.frames[n].pc.Done?
  {
    var f := s.frames[n];
    if f.pc.CleanupPending? || f.pc.FreeCompletion? then AfterCleanup(s, n, o)
    else if f.ctx !in s.contexts then s
    else if f.pc.Attach? then Publish(s, n, o)
    else if f.pc.Release? || f.pc.ReleaseThenPost? then LetGo(s, n)
    else
      var e := StepOf(n, f, s.contexts[f.ctx], s.pool, o);
      s.(contexts := s.contexts[f.ctx := e.ctx], frames := s.frames[n := e.frame], pool := e.pool,
         attempts := if Captures(f, e.frame) then s.attempts + multiset{n} else s.attempts,
         synced := if f.pc.SyncSend? then s.synced[f.ctx := n] else s.synced)
  }

  predicate Captures(f: Frame, g: Frame) {
    g.outcome.Captured? && !f.outcome.Captured?
  }

  /** FltSetStreamHandleContext with KEEP_IF_EXISTS: an attached context takes a reference of its own. */
  function Publish(s: State, n: nat, o: Answer): State
    requires n in s.frames && s.frames[n].pc.Attach? && s.frames[n].ctx in s.contexts
  {
    var f := s.frames[n];
    var t := s.(frames := s.frames[n := f.(pc := Release)]);
    if !o.success || f.pc.file in s.attached then t
    else t.(attached := s.attached[f.pc.file := f.ctx],
            contexts := s.contexts[f.ctx := s.contexts[f.ctx].(refs := s.contexts[f.ctx].refs + 1)])
  }

  /** FltReleaseContext at the end of a callback. */
  function LetGo(s: State, n: nat): State
    requires n in s.frames && (s.frames[n].pc.Release? || s.frames[n].pc.ReleaseThenPost?)
    requires s.frames[n].ctx in s.contexts
  {
    Drop(Parted(s, n), s.frames[n].ctx)
  }

  /** The callback has let go of its context; the count does not show it yet. */
  function Parted(s: State, n: nat): State
    requires n in s.frames && (s.frames[n].pc.Release? || s.frames[n].pc.ReleaseThenPost?)
    requires s.frames[n].ctx in s.contexts
  {
    var f := s.frames[n];
    var c := s.contexts[f.ctx];
    s.(frames := s.frames[n := f.(pc := if f.pc.Release? then Done else CleanupPending(f.pc.job, f.pc.block))],
       contexts := s.contexts[f.ctx := c.(cleaner := if c.cleaner == Some(n) then None else c.cleaner)])
  }

  /** knFcPostCleanup: it works on the completion alone. */
  function AfterCleanup(s: State, n: nat, o: Answer): State
    requires n in s.frames && (s.frames[n].pc.CleanupPending? || s.frames[n].pc.FreeCompletion?)
  {
    var f := s.frames[n];
    if f.pc.FreeCompletion? then
      s.(frames := s.frames[n := f.(pc := Done)], pool := FreeBlock(s.pool, f.pc.block))
    else if o.success then
      s.(frames := s.frames[n := f.(pc := FreeCompletion(f.pc.block), outcome := CapturedBy(Posted, f.pc.job))],
         attempts := s.attempts + multiset{n})
    else
      s.(frames := s.frames[n := f.(pc := FreeCompletion(f.pc.block), outcome := Drained)])
  }

  function CapturedBy(how: How, j: Job): Outcome {
    Captured(Capture(how, j.snap, j.hint, j.name))
  }

  /** A step that touches the callback itself, its context and the pool. */
  datatype Effect = Effect(frame: Frame, ctx: Context, pool: Pool)

  predicate InStep(pc: Pc) { InUpdate(pc) || InCleanup(pc) }

  function StepOf(n: nat, f: Frame, c: Context, p: Pool, o: Answer): Effect
    requires InStep(f.pc)
  {
    if InCleanup(f.pc) then CleanupStep(n, f, c, p, o) else UpdateStep(n, f, c, p, o)
  }

  predicate InUpdate(pc: Pc) {
    pc.WritePending? || pc.AllocSetInfo? || pc.SetInfoPending? || pc.Ops? || pc.ChooseSafe? || pc.QueryRename?
    || pc.Swap? || pc.FreeOld?
  }

  function UpdateStep(n: nat, f: Frame, c: Context, p: Pool, o: Answer): Effect
    requires InUpdate(f.pc)
  {
    match f.pc
    // knFcPostWrite: success means not draining, succeeded and at least one byte
    case WritePending => Effect(f.(pc := if o.success then Ops([OrModified], false) else Release), c, p)
    // knFcPreSetInformation and knFcPostSetInformation
    case AllocSetInfo(a) =>
      if o.poolOk then Effect(f.(pc := SetInfoPending(a, p.next)), c, Alloc(p, Carried(n)))
      else Effect(f.(pc := Release), c, p)
    case SetInfoPending(a, b) =>
      Effect(f.(pc := if o.success then Ops(OpsOf(a, c.atCreate), a.captureRename) else Release), c, FreeBlock(p, b))
    case Ops(todo, rename) =>
      if todo == [] then Effect(f.(pc := if rename then ChooseSafe else Release), c, p)
      else Effect(f.(pc := Ops(todo[1..], rename)), Apply(c, todo[0]), p)
    case ChooseSafe => Effect(f.(pc := if o.safe then QueryRename else Release), c, p)
    case QueryRename =>
      if o.name.Some? && o.name.value != [] && o.poolOk
      then Effect(f.(pc := Swap(p.next, o.name.value)), c, Alloc(p, Carried(n)))
      else Effect(f.(pc := Release), c, p)
    case Swap(b, name) =>
      var d := c.(current := Some(Buffer(b, name)), renames := c.renames + [name]);
      var q := p.(place := p.place[b := CurrentOf(f.ctx)]);
      if c.current.None? then Effect(f.(pc := Release), d, q)
      else Effect(f.(pc := FreeOld(c.current.value.block)), d,
          q.(place := q.place[c.current.value.block := Carried(n)]))
    case FreeOld(b) => Effect(f.(pc := Release), c, FreeBlock(p, b))
  }

  predicate InCleanup(pc: Pc) {
    pc.ReadFlags? || pc.Gate? || pc.CopyName? || pc.LiveQuery? || pc.Reconcile? || pc.SyncSend?
    || pc.MarkBackedUp? || pc.ElevatedEnqueue? || pc.AllocCleanup? || pc.FreeCopy?
  }

  /** knFcPreCleanup. */
  function CleanupStep(n: nat, f: Frame, c: Context, p: Pool, o: Answer): Effect
    requires InCleanup(f.pc)
  {
    match f.pc
    case ReadFlags =>
      if c.flags.backedUp then Effect(f.(pc := Release, outcome := AlreadyBackedUp), c, p)
      else Effect(f.(pc := Gate(c.flags)), c, p)
    case Gate(snap) =>
      if !snap.modified && !snap.deleteOnClose && !c.observed then Effect(f.(pc := Release, outcome := Untouched), c, p)
      else Effect(f.(pc := CopyName(snap)), c, p)
    // knFcResolveFinalName
    case CopyName(snap) =>
      var copied := c.current.Some? && o.poolOk;
      var g := f.(seen := f.seen.(renames := c.renames, copied := copied));
      if copied
      then Effect(g.(pc := Reconcile(Job(snap, Some(p.next), c.current.value.text, 0))), c, Alloc(p, Carried(n)))
      else Effect(g.(pc := LiveQuery(snap)), c, p)
    case LiveQuery(snap) =>
      var live := if o.name.Some? then o.name.value else [];
      var original := if c.original.Some? then c.original.value.text else [];
      var g := f.(seen := f.seen.(live := live, original := original));
      if live != [] then Effect(g.(pc := Reconcile(Job(snap, None, live, 0))), c, p)
      else if original != [] then Effect(g.(pc := Reconcile(Job(snap, None, original, 0))), c, p)
      else Effect(g.(pc := Release, outcome := NoName), c, p)
    case Reconcile(j) =>
      if f.passive && o.excluded then Effect(f.(pc := FreeCopy(j, None), outcome := Filtered), c, p)
      else Effect(Decide(f, Reconciled(j, f.passive, c.observed, o)), c, p)
    case SyncSend(j) => Effect(f.(pc := MarkBackedUp(j), outcome := CapturedBy(Sync, j)), c, p)
    case MarkBackedUp(j) => Effect(f.(pc := FreeCopy(j, None)), Apply(c, OrBackedUp), p)
    case ElevatedEnqueue(j) => Effect(f.(pc := FreeCopy(j, None), outcome := CapturedBy(Elevated, j)), c, p)
    case AllocCleanup(j) =>
      if o.poolOk then Effect(f.(pc := FreeCopy(j, Some(p.next))), c, Alloc(p, Carried(n)))
      else Effect(f.(pc := FreeCopy(j, None), outcome := OutOfMemory), c, p)
    case FreeCopy(j, completion) =>
      var q := if j.copy.Some? then FreeBlock(p, j.copy.value) else p;
      Effect(f.(pc := if completion.Some? then ReleaseThenPost(j, completion.value) else Release), c, q)
  }

  /** The file's own word on deletion replaces the bit, once a disposition request has been seen (lines 756-782). */
  function Reconciled(j: Job, passive: bool, observed: bool, o: Answer): Job {
    if passive && o.topLevelFree && o.standard.Some? then
      var std := o.standard.value;
      j.(hint := std.size, snap := if observed then j.snap.(deleteOnClose := std.deletePending) else j.snap)
    else j
  }

  /** Lines 784-814. */
  function Decide(f: Frame, j: Job): Frame {
    if !j.snap.modified && !j.snap.deleteOnClose then f.(pc := FreeCopy(j, None), outcome := NothingLeft)
    else if j.snap.deleteOnClose then f.(pc := if f.passive then SyncSend(j) else ElevatedEnqueue(j))
    else f.(pc := AllocCleanup(j))
  }

  function Run(s: State, acts: seq<Action>): Option<State> {
    if acts == [] then Some(s)
    else
      var before :- Run(s, acts[..|acts| - 1]);
      Next(before, acts[|acts| - 1])
  }

  ghost predicate Reachable(s: State) {
    exists acts: seq<Action> :: Run(Initial(), acts) == Some(s)
  }
}
