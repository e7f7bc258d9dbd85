/** What every interleaving of callbacks keeps true of a handle's flags, names and cleanups. */
module HandleInvariant {
  import opened Options
  import opened WideText
  import opened HandleModel
  import opened HandleResources

  // ----- one context -----

  /** The delete bit that a history of operations leaves behind. */
  function LastDelete(ops: seq<FlagOp>, first: bool): bool {
    if ops == [] then first
    else if ops[|ops| - 1].OrDelete? then true
    else if ops[|ops| - 1].AndNotDelete? then false
    else LastDelete(ops[..|ops| - 1], first)
  }

  ghost predicate FlagsOk(flags: Bits, observed: bool, atCreate: bool, born: Bits, ops: seq<FlagOp>) {
    && born.writeIntent && (born.created || atCreate ==> born.modified) && !born.renamed && !born.backedUp
    && born.deleteOnClose == atCreate
    && (flags.writeIntent, flags.created) == (born.writeIntent, born.created)
    && (flags.modified <==> born.modified || OrModified in ops)
    && (flags.renamed <==> OrRenamed in ops)
    && (flags.backedUp <==> OrBackedUp in ops)
    && (observed <==> Observe in ops)
    && flags.deleteOnClose == LastDelete(ops, atCreate)
    && (atCreate ==> AndNotDelete !in ops)
    && (OrDelete in ops || AndNotDelete in ops ==> observed)
  }

  ghost predicate NamesOk(original: Option<Buffer>, current: Option<Buffer>, renames: seq<WString>) {
    && (original.Some? ==> original.value.text != [])
    && (current.None? <==> renames == [])
    && (renames != [] ==> current.value.text == renames[|renames| - 1] != [])
  }

  ghost predicate ContextOk(c: Context) {
    FlagsOk(c.flags, c.observed, c.atCreate, c.born, c.ops) && NamesOk(c.original, c.current, c.renames)
  }

  // ----- one callback and its context -----

  predicate ChangesDelete(op: FlagOp) { op.OrDelete? || op.AndNotDelete? }

  /** What is left to execute keeps the create-time bit and records the request before it changes the bit. */
  predicate TodoOk(todo: seq<FlagOp>, atCreate: bool, observed: bool) {
    && OrBackedUp !in todo
    && (atCreate ==> AndNotDelete !in todo)
    && (todo != [] && ChangesDelete(todo[0]) ==> observed)
    && (forall i :: 0 < i < |todo| && ChangesDelete(todo[i]) ==> todo[i - 1].Observe?)
  }

  predicate BeforeMark(pc: Pc) {
    pc.Gate? || pc.CopyName? || pc.LiveQuery? || pc.Reconcile? || pc.SyncSend? || pc.MarkBackedUp?
  }

  ghost predicate FrameOk(n: nat, f: Frame, c: Context) {
    && (f.pc.Ops? ==> TodoOk(f.pc.todo, c.atCreate, c.observed))
    && (f.pc.Swap? ==> f.pc.name != [])
    && (InCleanup(f.pc) || f.pc.ReleaseThenPost? ==> c.cleaner == Some(n))
    && (f.pc.ReadFlags? && f.seen.modified ==> c.flags.modified)
    && (BeforeMark(f.pc) ==> !c.flags.backedUp)
  }

  // ----- one cleanup by itself -----

  /** The name a cleanup should report, from what it saw; empty if there is none. */
  function FinalName(w: Seen): WString {
    if w.renames != [] && w.copied then w.renames[|w.renames| - 1]
    else if w.live != [] then w.live
    else w.original
  }

  ghost predicate JobOk(f: Frame, j: Job) {
    j.name == FinalName(f.seen) != [] && (f.seen.modified ==> j.snap.modified)
  }

  ghost predicate CaptureOk(f: Frame, x: Capture) {
    && x.name == FinalName(f.seen) != []
    && (f.seen.modified ==> x.flags.modified)
    && (x.flags.modified || x.flags.deleteOnClose)
    && x.how == if !x.flags.deleteOnClose then Posted else if f.passive then Sync else Elevated
  }

  ghost predicate OutcomeOk(f: Frame) {
    match f.outcome
    case Unsettled | AlreadyBackedUp => true
    case Untouched => !f.seen.modified
    case NothingLeft => !f.seen.modified && FinalName(f.seen) != []
    case NoName => FinalName(f.seen) == []
    case Filtered => f.passive && FinalName(f.seen) != []
    case OutOfMemory | Drained => FinalName(f.seen) != []
    case Captured(x) => CaptureOk(f, x)
  }

  predicate Settled(f: Frame) { !f.outcome.Unsettled? }

  /** To be posted: the handle is modified and not to be deleted. */
  ghost predicate PostOk(f: Frame, j: Job) {
    JobOk(f, j) && j.snap.modified && !j.snap.deleteOnClose && !Settled(f)
  }

  ghost predicate PcOk(f: Frame) {
    match f.pc
    case ReadFlags => !Settled(f)
    case Gate(snap) => !Settled(f) && (f.seen.modified ==> snap.modified)
    case CopyName(snap) => !Settled(f) && (f.seen.modified ==> snap.modified)
    case LiveQuery(snap) =>
        !Settled(f) && (f.seen.modified ==> snap.modified) && !f.seen.copied
    case Reconcile(j) => !Settled(f) && JobOk(f, j)
    case SyncSend(j) => !Settled(f) && JobOk(f, j) && f.passive && j.snap.deleteOnClose
    case ElevatedEnqueue(j) => !Settled(f) && JobOk(f, j) && !f.passive && j.snap.deleteOnClose
    case MarkBackedUp(j) => f.outcome == CapturedBy(Sync, j)
    case AllocCleanup(j) => PostOk(f, j)
    case FreeCopy(j, completion) => if completion.Some? then PostOk(f, j) else Settled(f)
    case ReleaseThenPost(j, _) => PostOk(f, j)
    case CleanupPending(j, _) => PostOk(f, j)
    case Release => Settled(f)
    case FreeCompletion(_) => Settled(f)
    case Done => Settled(f)
    case _ => false
  }

  ghost predicate Story(f: Frame) {
    if f.cleanup then PcOk(f) && OutcomeOk(f)
    else !Settled(f) && !InCleanup(f.pc) && !f.pc.ReleaseThenPost? && !f.pc.CleanupPending? && !f.pc.FreeCompletion?
  }

  // ----- all of them -----

  ghost predicate ContextsInv(contexts: map<nat, Context>) {
    forall c :: c in contexts ==> ContextOk(contexts[c])
  }

  ghost predicate FramesInv(frames: map<nat, Frame>, contexts: map<nat, Context>) {
    forall n :: n in frames ==>
        Story(frames[n]) && (HoldsRef(frames[n]) && frames[n].ctx in contexts ==>
            FrameOk(n, frames[n], contexts[frames[n].ctx]))
  }

  ghost predicate CleanerInv(frames: map<nat, Frame>, contexts: map<nat, Context>) {
    forall c :: c in contexts && contexts[c].cleaner.Some? ==> IsCleaner(frames, contexts[c].cleaner.value, c)
  }

  ghost predicate IsCleaner(frames: map<nat, Frame>, n: nat, c: nat) {
    n in frames && frames[n].ctx == c && frames[n].cleanup && HoldsRef(frames[n])
  }

  ghost predicate AttemptInv(attempts: multiset<nat>, frames: map<nat, Frame>) {
    forall n: nat :: attempts[n] == if n in frames && frames[n].outcome.Captured? then 1 else 0
  }

  predicate SentSync(f: Frame) { f.outcome.Captured? && f.outcome.what.how.Sync? }

  ghost predicate SyncedFrames(synced: map<nat, nat>, frames: map<nat, Frame>, nextCtx: nat) {
    && (forall n :: n in frames && SentSync(frames[n]) ==> frames[n].ctx in synced && synced[frames[n].ctx] == n)
    && (forall n :: n in frames && frames[n].outcome.AlreadyBackedUp? ==> frames[n].ctx in synced)
    && (forall c :: c in synced ==>
         c < nextCtx && synced[c] in frames && SentSync(frames[synced[c]]) && frames[synced[c]].ctx == c)
  }

  ghost predicate SyncedContexts(synced: map<nat, nat>, frames: map<nat, Frame>, contexts: map<nat, Context>) {
    forall c :: c in contexts ==>
      && (contexts[c].flags.backedUp ==> c in synced)
      && (c in synced ==> contexts[c].flags.backedUp || IsMarking(frames, synced[c], c))
  }

  predicate IsMarking(frames: map<nat, Frame>, n: nat, c: nat) {
    n in frames && frames[n].pc.MarkBackedUp? && frames[n].ctx == c
  }

  ghost predicate Inv(s: State) {
    && ContextsInv(s.contexts)
    && FramesInv(s.frames, s.contexts)
    && CleanerInv(s.frames, s.contexts)
    && AttemptInv(s.attempts, s.frames)
    && SyncedFrames(s.synced, s.frames, s.nextCtx)
    && SyncedContexts(s.synced, s.frames, s.contexts)
  }

  // ----- how a context may move -----

  /** The change of a context under one step of a callback. */
  ghost predicate Moves(c: Context, d: Context) {
    && (d.atCreate, d.born, d.original) == (c.atCreate, c.born, c.original)
    && (c.observed ==> d.observed) && (c.flags.modified ==> d.flags.modified)
    && (c.flags.backedUp ==> d.flags.backedUp)
    && c.ops <= d.ops && c.renames <= d.renames
  }

  lemma StillOk(n: nat, f: Frame, c: Context, d: Context)
    requires FrameOk(n, f, c) && Moves(c, d)
    requires c.cleaner != Some(n) || (d.cleaner == Some(n) && d.flags.backedUp == c.flags.backedUp)
    ensures FrameOk(n, f, d)
  {}

  lemma Unmoved(c: Context)
    ensures Moves(c, c)
  {}

  lemma LastDeleteStep(ops: seq<FlagOp>, op: FlagOp, first: bool)
    ensures LastDelete(ops + [op], first)
      == if op.OrDelete? then true else if op.AndNotDelete? then false else LastDelete(ops, first)
  {
    assert (ops + [op])[..|ops|] == ops;
  }

  /** The history after one more operation, as a set. */
  lemma OneMore(ops: seq<FlagOp>, op: FlagOp)
    ensures forall x :: x in ops + [op] <==> x in ops || x == op
  {}

  lemma ApplyDelete(c: Context, op: FlagOp)
    requires FlagsOk(c.flags, c.observed, c.atCreate, c.born, c.ops) && ChangesDelete(op)
    requires (op.AndNotDelete? ==> !c.atCreate) && c.observed
    ensures var d := Apply(c, op); FlagsOk(d.flags, d.observed, d.atCreate, d.born, d.ops)
  {
    LastDeleteStep(c.ops, op, c.atCreate);
    OneMore(c.ops, op);
    hide LastDelete;
  }

  lemma ApplyOther(c: Context, op: FlagOp)
    requires FlagsOk(c.flags, c.observed, c.atCreate, c.born, c.ops) && !ChangesDelete(op)
    ensures var d := Apply(c, op); FlagsOk(d.flags, d.observed, d.atCreate, d.born, d.ops)
  {
    LastDeleteStep(c.ops, op, c.atCreate);
    OneMore(c.ops, op);
    hide LastDelete;
  }

  lemma ApplyFlags(c: Context, op: FlagOp)
    requires FlagsOk(c.flags, c.observed, c.atCreate, c.born, c.ops)
    requires (op.AndNotDelete? ==> !c.atCreate) && (ChangesDelete(op) ==> c.observed)
    ensures var d := Apply(c, op); FlagsOk(d.flags, d.observed, d.atCreate, d.born, d.ops)
  {
    hide FlagsOk, Apply;
    if ChangesDelete(op) { ApplyDelete(c, op); } else { ApplyOther(c, op); }
  }

  lemma ApplyOk(c: Context, op: FlagOp)
    requires ContextOk(c) && (op.AndNotDelete? ==> !c.atCreate) && (ChangesDelete(op) ==> c.observed)
    ensures ContextOk(Apply(c, op)) && Moves(c, Apply(c, op))
    ensures Apply(c, op).cleaner == c.cleaner && (op.OrBackedUp? || Apply(c, op).flags.backedUp == c.flags.backedUp)
    ensures op.Observe? ==> Apply(c, op).observed
  {
    ApplyFlags(c, op);
    ApplyLeaves(c, op);
    hide FlagsOk, NamesOk, Apply, Moves;
  }

  lemma ApplyLeaves(c: Context, op: FlagOp)
    ensures var d := Apply(c, op);
      && (d.original, d.current, d.renames, d.cleaner, d.refs) == (c.original, c.current, c.renames, c.cleaner, c.refs)
      && Moves(c, d) && (op.OrBackedUp? || d.flags.backedUp == c.flags.backedUp) && (op.Observe? ==> d.observed)
  {}

  lemma OpsOfOk(a: Actions, atCreate: bool, observed: bool)
    ensures TodoOk(OpsOf(a, atCreate), atCreate, observed)
  {
    var m := if a.markModified then [OrModified] else [];
    var d := if a.setDelete then [Observe, OrDelete]
             else if a.clearDelete && !atCreate then [Observe, AndNotDelete]
             else if a.clearDelete then [Observe]
             else [];
    var r := if a.captureRename then [OrRenamed] else [];
    var ops := m + d + r;
    assert ops == OpsOf(a, atCreate);
    assert forall i :: 0 <= i < |ops| ==>
        ops[i] == if i < |m| then m[i] else if i < |m| + |d| then d[i - |m|] else r[i - |m| - |d|];
    forall i | 0 <= i < |ops| && ChangesDelete(ops[i])
      ensures i > 0 && ops[i - 1].Observe? && (atCreate ==> ops[i].OrDelete?)
    {
      assert i == |m| + 1;
    }
  }

  lemma TodoStep(todo: seq<FlagOp>, atCreate: bool, observed: bool, now: bool)
    requires TodoOk(todo, atCreate, observed) && todo != [] && (observed || todo[0].Observe? ==> now)
    ensures !todo[0].OrBackedUp? && (todo[0].AndNotDelete? ==> !atCreate) && (ChangesDelete(todo[0]) ==> observed)
    ensures TodoOk(todo[1..], atCreate, now)
  {
    assert todo[0] in todo;
    var rest := todo[1..];
    assert forall i :: 0 <= i < |rest| ==> rest[i] == todo[i + 1];
    assert forall x :: x in rest ==> x in todo;
  }

  /** What one step of callback n keeps, for itself and its context. */
  ghost predicate LocalOk(n: nat, f: Frame, c: Context) {
    ContextOk(c) && FrameOk(n, f, c) && Story(f)
  }

  ghost predicate StepOk(n: nat, f: Frame, c: Context, e: Effect) {
    && LocalOk(n, e.frame, e.ctx) && Moves(c, e.ctx) && e.ctx.cleaner == c.cleaner
    && (e.ctx.flags.backedUp == c.flags.backedUp || f.pc.MarkBackedUp?)
    && (e.frame.ctx, e.frame.cleanup, e.frame.passive, e.frame.seen.modified)
         == (f.ctx, f.cleanup, f.passive, f.seen.modified)
    && (Settled(f) ==> e.frame.outcome == f.outcome)
  }

  /** The callbacks that are no cleanup tell no story. */
  lemma UpdateStory(f: Frame)
    requires InUpdate(f.pc) || (f.pc.Release? && !f.cleanup)
    ensures Story(f) <==> !f.cleanup && !Settled(f)
  {}

  lemma UpdateStepOk(n: nat, f: Frame, c: Context, p: Pool, o: Answer)
    requires LocalOk(n, f, c) && InUpdate(f.pc) && !f.pc.Ops? && !f.pc.Swap?
    ensures StepOk(n, f, c, UpdateStep(n, f, c, p, o))
  {
    assert TodoOk([OrModified], c.atCreate, c.observed);
    Unmoved(c);
    UpdateStory(f);
    UpdateStory(UpdateStep(n, f, c, p, o).frame);
    hide OpsOf, TodoOk, ContextOk, Moves, Story;
    if f.pc.SetInfoPending? {
      OpsOfOk(f.pc.actions, c.atCreate, c.observed);
    }
  }

  lemma OpsStepOk(n: nat, f: Frame, c: Context, p: Pool, o: Answer)
    requires LocalOk(n, f, c) && f.pc.Ops?
    ensures StepOk(n, f, c, UpdateStep(n, f, c, p, o))
  {
    var todo := f.pc.todo;
    UpdateStory(f);
    UpdateStory(UpdateStep(n, f, c, p, o).frame);
    hide Story;
    if todo != [] {
      TodoStep(todo, c.atCreate, c.observed, Apply(c, todo[0]).observed);
      ApplyOk(c, todo[0]);
      hide ContextOk, Moves, Apply, TodoOk;
    } else {
      Unmoved(c);
    }
  }

  lemma SwapStepOk(n: nat, f: Frame, c: Context, p: Pool, o: Answer)
    requires LocalOk(n, f, c) && f.pc.Swap?
    ensures StepOk(n, f, c, UpdateStep(n, f, c, p, o))
  {
    UpdateStory(f);
    UpdateStory(UpdateStep(n, f, c, p, o).frame);
    hide FlagsOk, Story;
  }

  lemma FirstStepsOk(n: nat, f: Frame, c: Context, p: Pool, o: Answer)
    requires LocalOk(n, f, c) && (f.pc.ReadFlags? || f.pc.Gate?)
    ensures StepOk(n, f, c, CleanupStep(n, f, c, p, o))
  {
    Unmoved(c);
    hide ContextOk, Moves;
  }

  lemma NameStepsOk(n: nat, f: Frame, c: Context, p: Pool, o: Answer)
    requires LocalOk(n, f, c) && (f.pc.CopyName? || f.pc.LiveQuery?)
    ensures StepOk(n, f, c, CleanupStep(n, f, c, p, o))
  {
    hide FlagsOk;
  }

  lemma ReconcileStepOk(n: nat, f: Frame, c: Context, p: Pool, o: Answer)
    requires LocalOk(n, f, c) && f.pc.Reconcile?
    ensures StepOk(n, f, c, CleanupStep(n, f, c, p, o))
  {
    Unmoved(c);
    hide ContextOk, Moves;
  }

  lemma SendStepsOk(n: nat, f: Frame, c: Context, p: Pool, o: Answer)
    requires LocalOk(n, f, c) && (f.pc.SyncSend? || f.pc.ElevatedEnqueue? || f.pc.AllocCleanup? || f.pc.FreeCopy?)
    ensures StepOk(n, f, c, CleanupStep(n, f, c, p, o))
  {
    Unmoved(c);
    hide ContextOk, Moves;
  }

  lemma MarkStory(f: Frame)
    requires Story(f) && f.pc.MarkBackedUp?
    ensures Story(f.(pc := FreeCopy(f.pc.job, None)))
  {}

  lemma MarkStepOk(n: nat, f: Frame, c: Context, p: Pool, o: Answer)
    requires LocalOk(n, f, c) && f.pc.MarkBackedUp?
    ensures StepOk(n, f, c, CleanupStep(n, f, c, p, o))
  {
    ApplyOk(c, OrBackedUp);
    MarkStory(f);
    var e := CleanupStep(n, f, c, p, o);
    assert e == Effect(f.(pc := FreeCopy(f.pc.job, None)), Apply(c, OrBackedUp), p);
    hide ContextOk, Moves, Story, Apply, CleanupStep;
  }

  lemma AnyStepOk(n: nat, f: Frame, c: Context, p: Pool, o: Answer)
    requires LocalOk(n, f, c) && InStep(f.pc)
    ensures StepOk(n, f, c, StepOf(n, f, c, p, o))
  {
    hide LocalOk, StepOk, UpdateStep, CleanupStep;
    match f.pc
    case Ops(_, _) => OpsStepOk(n, f, c, p, o);
    case Swap(_, _) => SwapStepOk(n, f, c, p, o);
    case ReadFlags | Gate(_) => FirstStepsOk(n, f, c, p, o);
    case CopyName(_) | LiveQuery(_) => NameStepsOk(n, f, c, p, o);
    case Reconcile(_) => ReconcileStepOk(n, f, c, p, o);
    case MarkBackedUp(_) => MarkStepOk(n, f, c, p, o);
    case SyncSend(_) | ElevatedEnqueue(_) | AllocCleanup(_) | FreeCopy(_, _) => SendStepsOk(n, f, c, p, o);
    case _ => UpdateStepOk(n, f, c, p, o);
  }

  // ----- the whole state -----

  /** Context k may move from c to d under a step of callback n without disturbing the others. */
  ghost predicate Harmless(n: nat, c: Context, d: Context) {
    && Moves(c, d)
    && (d.cleaner == c.cleaner || c.cleaner == None || c.cleaner == Some(n))
    && (d.flags.backedUp == c.flags.backedUp || c.cleaner == Some(n))
  }

  lemma FramesUpdate(s: State, n: nat, g: Frame, k: nat, d: Context)
    requires FramesInv(s.frames, s.contexts) && k in s.contexts && Harmless(n, s.contexts[k], d)
    requires Story(g) && (HoldsRef(g) ==> g.ctx == k && FrameOk(n, g, d))
    ensures FramesInv(s.frames[n := g], s.contexts[k := d])
  {
    hide Story, FrameOk, Moves;
    forall m | m in s.frames && m != n && HoldsRef(s.frames[m]) && s.frames[m].ctx == k
      ensures FrameOk(m, s.frames[m], d)
    {
      StillOk(m, s.frames[m], s.contexts[k], d);
    }
  }

  /** What a step does to the record of synchronous captures. */
  ghost predicate Sends(f: Frame, c: Context, e: Effect) {
    && (SentSync(e.frame) <==> SentSync(f) || f.pc.SyncSend?)
    && (e.frame.outcome.AlreadyBackedUp? ==> f.outcome.AlreadyBackedUp? || c.flags.backedUp)
    && (e.frame.pc.MarkBackedUp? <==> f.pc.SyncSend?)
    && e.ctx.flags.backedUp == (c.flags.backedUp || f.pc.MarkBackedUp?)
    && (f.pc.SyncSend? || f.pc.MarkBackedUp? ==> !c.flags.backedUp && c.cleaner.Some?)
  }

  lemma StepSends(n: nat, f: Frame, c: Context, p: Pool, o: Answer)
    requires LocalOk(n, f, c) && InCleanup(f.pc)
    ensures Sends(f, c, CleanupStep(n, f, c, p, o))
  {
    hide ContextOk, FinalName;
  }

  lemma UpdateSends(n: nat, f: Frame, c: Context, p: Pool, o: Answer)
    requires LocalOk(n, f, c) && InUpdate(f.pc)
    ensures Sends(f, c, UpdateStep(n, f, c, p, o))
  {
    UpdateStory(f);
    if f.pc.Ops? && f.pc.todo != [] {
      TodoStep(f.pc.todo, c.atCreate, c.observed, Apply(c, f.pc.todo[0]).observed);
    }
    hide ContextOk, Story, TodoOk;
  }

  lemma NotYetSynced(s: State, n: nat)
    requires FramesInv(s.frames, s.contexts) && SyncedFrames(s.synced, s.frames, s.nextCtx)
    requires SyncedContexts(s.synced, s.frames, s.contexts)
    requires n in s.frames && s.frames[n].pc.SyncSend? && s.frames[n].ctx in s.contexts
    ensures s.frames[n].ctx !in s.synced
  {
    var k := s.frames[n].ctx;
    assert FrameOk(n, s.frames[n], s.contexts[k]);
    assert forall m :: m in s.frames && s.frames[m].pc.MarkBackedUp? && s.frames[m].ctx == k ==>
      FrameOk(m, s.frames[m], s.contexts[k]);
  }

  /** The facts about callback n that its next step needs. */
  ghost predicate Ready(s: State, n: nat) {
    && Inv(s) && n in s.frames && s.frames[n].ctx in s.contexts && HoldsRef(s.frames[n])
    && LocalOk(n, s.frames[n], s.contexts[s.frames[n].ctx])
  }

  lemma StepFacts(s: State, n: nat, o: Answer)
    requires Ready(s, n) && InStep(s.frames[n].pc)
    ensures var f := s.frames[n]; var c := s.contexts[f.ctx]; var e := EffectOf(s, n, o);
      StepOk(n, f, c, e) && Sends(f, c, e) && HoldsRef(e.frame)
  {
    hide LocalOk, StepOk, Sends, UpdateStep, CleanupStep, HoldsRef;
    var f := s.frames[n];
    var c := s.contexts[f.ctx];
    AnyStepOk(n, f, c, s.pool, o);
    StepShape(n, f, c, s.pool, o);
    if InCleanup(f.pc) { StepSends(n, f, c, s.pool, o); } else { UpdateSends(n, f, c, s.pool, o); }
  }

  lemma StepFrames(s: State, n: nat, e: Effect)
    requires Ready(s, n) && StepOk(n, s.frames[n], s.contexts[s.frames[n].ctx], e) && HoldsRef(e.frame)
    ensures FramesInv(s.frames[n := e.frame], s.contexts[s.frames[n].ctx := e.ctx])
    ensures ContextsInv(s.contexts[s.frames[n].ctx := e.ctx])
    ensures CleanerInv(s.frames[n := e.frame], s.contexts[s.frames[n].ctx := e.ctx])
  {
    hide Story, Moves, ContextOk;
    assert s.frames[n].pc.MarkBackedUp? ==> s.contexts[s.frames[n].ctx].cleaner == Some(n);
    FramesUpdate(s, n, e.frame, s.frames[n].ctx, e.ctx);
  }

  lemma StepSyncedFrames(s: State, n: nat, e: Effect, c: Context)
    requires SyncedFrames(s.synced, s.frames, s.nextCtx) && SyncedContexts(s.synced, s.frames, s.contexts)
    requires n in s.frames && s.frames[n].ctx in s.contexts && c == s.contexts[s.frames[n].ctx]
    requires s.frames[n].ctx < s.nextCtx
    requires e.frame.ctx == s.frames[n].ctx && Sends(s.frames[n], c, e)
    requires s.frames[n].pc.SyncSend? ==> s.frames[n].ctx !in s.synced
    ensures var synced := if s.frames[n].pc.SyncSend? then s.synced[s.frames[n].ctx := n] else s.synced;
      SyncedFrames(synced, s.frames[n := e.frame], s.nextCtx)
  {}

  lemma StepSyncedContexts(s: State, n: nat, e: Effect, c: Context)
    requires SyncedContexts(s.synced, s.frames, s.contexts)
    requires n in s.frames && s.frames[n].ctx in s.contexts && c == s.contexts[s.frames[n].ctx]
    requires e.frame.ctx == s.frames[n].ctx && Sends(s.frames[n], c, e)
    requires s.frames[n].pc.MarkBackedUp? ==> s.frames[n].ctx in s.synced
    ensures var synced := if s.frames[n].pc.SyncSend? then s.synced[s.frames[n].ctx := n] else s.synced;
      SyncedContexts(synced, s.frames[n := e.frame], s.contexts[s.frames[n].ctx := e.ctx])
  {}

  lemma StepSynced(s: State, n: nat, e: Effect)
    requires Ready(s, n) && s.frames[n].ctx < s.nextCtx
    requires e.frame.ctx == s.frames[n].ctx && Sends(s.frames[n], s.contexts[s.frames[n].ctx], e)
    ensures var synced := if s.frames[n].pc.SyncSend? then s.synced[s.frames[n].ctx := n] else s.synced;
      && SyncedFrames(synced, s.frames[n := e.frame], s.nextCtx)
      && SyncedContexts(synced, s.frames[n := e.frame], s.contexts[s.frames[n].ctx := e.ctx])
  {
    if s.frames[n].pc.SyncSend? { NotYetSynced(s, n); }
    if s.frames[n].pc.MarkBackedUp? { MarkedIsSynced(s, n); }
    hide LocalOk, Sends, SyncedFrames, SyncedContexts, FramesInv, CleanerInv, AttemptInv, ContextsInv;
    StepSyncedFrames(s, n, e, s.contexts[s.frames[n].ctx]);
    StepSyncedContexts(s, n, e, s.contexts[s.frames[n].ctx]);
  }

  lemma MarkedIsSynced(s: State, n: nat)
    requires Ready(s, n) && s.frames[n].pc.MarkBackedUp?
    ensures SentSync(s.frames[n]) && s.frames[n].ctx in s.synced
  {}

  lemma StepAttempts(s: State, n: nat, g: Frame)
    requires AttemptInv(s.attempts, s.frames) && n in s.frames
    requires Settled(s.frames[n]) ==> g.outcome == s.frames[n].outcome
    ensures AttemptInv(if Captures(s.frames[n], g) then s.attempts + multiset{n} else s.attempts, s.frames[n := g])
  {}

  lemma StepKeepsInv(s: State, n: nat, o: Answer)
    requires Balanced(s) && Inv(s) && n in s.frames && InStep(s.frames[n].pc)
    ensures Inv(Advance(s, n, o))
  {
    AliveContexts(s);
    ContextBelow(s, n);
    assert Ready(s, n);
    var f := s.frames[n];
    StepFacts(s, n, o);
    var e := EffectOf(s, n, o);
    StepFrames(s, n, e);
    StepSynced(s, n, e);
    StepAttempts(s, n, e.frame);
    hide *;
    InStepAdvance(s, n, o);
    InvOf(Advance(s, n, o));
  }

  lemma ContextBelow(s: State, n: nat)
    requires Balanced(s) && n in s.frames && HoldsRef(s.frames[n])
    ensures s.frames[n].ctx in s.contexts && s.frames[n].ctx < s.nextCtx
  {}

  lemma InvOf(s: State)
    requires ContextsInv(s.contexts) && FramesInv(s.frames, s.contexts) && CleanerInv(s.frames, s.contexts)
    requires AttemptInv(s.attempts, s.frames)
    requires SyncedFrames(s.synced, s.frames, s.nextCtx) && SyncedContexts(s.synced, s.frames, s.contexts)
    ensures Inv(s)
  {}

  lemma InStepAdvance(s: State, n: nat, o: Answer)
    requires n in s.frames && s.frames[n].ctx in s.contexts && InStep(s.frames[n].pc)
    ensures var e, f, t := EffectOf(s, n, o), s.frames[n], Advance(s, n, o);
      && t.contexts == s.contexts[f.ctx := e.ctx] && t.frames == s.frames[n := e.frame] && t.nextCtx == s.nextCtx
      && t.attempts == (if Captures(f, e.frame) then s.attempts + multiset{n} else s.attempts)
      && t.synced == if f.pc.SyncSend? then s.synced[f.ctx := n] else s.synced
  {
    hide UpdateStep, CleanupStep;
  }

  // ----- beginnings and ends -----

  /** A callback that is neither sending nor marking, before or after, leaves the record alone. */
  lemma QuietSynced(s: State, n: nat, g: Frame, contexts: map<nat, Context>)
    requires SyncedFrames(s.synced, s.frames, s.nextCtx) && SyncedContexts(s.synced, s.frames, s.contexts)
    requires contexts.Keys <= s.contexts.Keys && forall c :: c in contexts ==> contexts[c].flags == s.contexts[c].flags
    requires if n in s.frames
             then g.ctx == s.frames[n].ctx && !s.frames[n].pc.MarkBackedUp? && SentSync(g) == SentSync(s.frames[n])
                  && (g.outcome.AlreadyBackedUp? ==> s.frames[n].outcome.AlreadyBackedUp?)
             else !Settled(g)
    ensures SyncedFrames(s.synced, s.frames[n := g], s.nextCtx) && SyncedContexts(s.synced, s.frames[n := g], contexts)
  {}

  lemma QuietAttempts(s: State, n: nat, g: Frame)
    requires AttemptInv(s.attempts, s.frames)
    requires if n in s.frames then g.outcome.Captured? == s.frames[n].outcome.Captured? else !Settled(g)
    ensures AttemptInv(s.attempts, s.frames[n := g])
  {}

  /** Callback n comes, goes on or lets go, while its context changes at most its count and its cleaner. */
  lemma QuietStep(s: State, n: nat, g: Frame, k: nat, d: Context)
    requires Inv(s) && k in s.contexts && g.ctx == k && Story(g) && (HoldsRef(g) ==> FrameOk(n, g, d))
    requires var c := s.contexts[k];
      && d == c.(refs := d.refs, cleaner := d.cleaner)
      && (d.cleaner == c.cleaner || c.cleaner == None || c.cleaner == Some(n))
      && (d.cleaner.Some? ==> IsCleaner(s.frames[n := g], d.cleaner.value, k))
    requires if n in s.frames then s.frames[n].ctx == k && !s.frames[n].pc.MarkBackedUp?
        && g.outcome == s.frames[n].outcome && g.cleanup == s.frames[n].cleanup
             else !Settled(g)
    ensures Inv(s.(frames := s.frames[n := g], contexts := s.contexts[k := d]))
  {
    hide Story, FrameOk, FramesInv, SyncedFrames, SyncedContexts, AttemptInv, FlagsOk, NamesOk, IsCleaner;
    var contexts := s.contexts[k := d];
    Unmoved(s.contexts[k]);
    FramesUpdate(s, n, g, k, d);
    QuietSynced(s, n, g, contexts);
    QuietAttempts(s, n, g);
    CleanerUpdate(s, n, g, k, d);
  }

  lemma CleanerUpdate(s: State, n: nat, g: Frame, k: nat, d: Context)
    requires CleanerInv(s.frames, s.contexts) && k in s.contexts && g.ctx == k
    requires d.cleaner.Some? ==> IsCleaner(s.frames[n := g], d.cleaner.value, k)
    requires n in s.frames ==> s.frames[n].ctx == k
    ensures CleanerInv(s.frames[n := g], s.contexts[k := d])
  {}

  /** Dropping a reference to a context that nobody is cleaning changes no story. */
  lemma DropKeepsInv(s: State, k: nat)
    requires Inv(s) && k in s.contexts
    ensures Inv(Drop(s, k))
  {
    hide Story, ContextOk, FreeNames, SyncedFrames, AttemptInv;
    DropLeaves(s, k);
    if s.contexts[k].refs != 1 {
      var d := s.contexts[k].(refs := s.contexts[k].refs - 1);
      SameOk(s.contexts[k], d);
      forall n | n in s.frames && HoldsRef(s.frames[n]) && s.frames[n].ctx == k ensures FrameOk(n, s.frames[n], d) {
        assert FrameOk(n, s.frames[n], s.contexts[k]);
      }
    }
  }

  lemma SameOk(c: Context, d: Context)
    requires ContextOk(c) && d == c.(refs := d.refs, cleaner := d.cleaner)
    ensures ContextOk(d)
  {
    hide FlagsOk, NamesOk;
  }

  lemma FactsOf(s: State, n: nat, k: nat)
    requires Inv(s)
    ensures k in s.contexts && s.contexts[k].cleaner.Some? ==> IsCleaner(s.frames, s.contexts[k].cleaner.value, k)
    ensures n in s.frames ==> Story(s.frames[n])
  {
    hide Story, ContextOk, FrameOk;
  }

  /** The cleaner of a context is not a callback that comes, or one that goes on. */
  lemma CleanerStays(frames: map<nat, Frame>, m: nat, k: nat, n: nat, g: Frame)
    requires IsCleaner(frames, m, k)
    requires n in frames ==>
        (g.ctx, g.cleanup, HoldsRef(g)) == (frames[n].ctx, frames[n].cleanup, HoldsRef(frames[n])) || m != n
    requires n in frames || m != n
    ensures IsCleaner(frames[n := g], m, k)
  {}

  lemma BeginKeepsInv(s: State, n: nat, file: nat, pc: Pc)
    requires Balanced(s) && Inv(s) && n !in s.frames
    requires pc.WritePending? || pc.AllocSetInfo? || pc == Ops([OrModified], false) || pc.Release?
    ensures Inv(Begin(s, n, file, pc).value)
  {
    AliveContexts(s);
    hide Inv, RefInv, PoolInv, Story, IsCleaner;
    if file in s.attached {
      var k := s.attached[file];
      var t := Begin(s, n, file, pc).value;
      FreshOk(n, k, pc, t.contexts[k]);
      hide FrameOk;
      BeginQuiet(s, n, k, t.frames[n], t.contexts[k]);
    }
  }

  lemma FreshOk(n: nat, k: nat, pc: Pc, d: Context)
    requires pc.WritePending? || pc.AllocSetInfo? || pc == Ops([OrModified], false) || pc.Release?
    ensures FrameOk(n, Callback(k, pc), d) && Story(Callback(k, pc))
  {}

  lemma BeginQuiet(s: State, n: nat, k: nat, g: Frame, d: Context)
    requires Inv(s) && n !in s.frames && k in s.contexts && d == s.contexts[k].(refs := d.refs)
    requires g.ctx == k && !Settled(g) && Story(g) && FrameOk(n, g, d)
    ensures Inv(s.(frames := s.frames[n := g], contexts := s.contexts[k := d]))
  {
    FactsOf(s, n, k);
    hide Inv, Story, FrameOk, HoldsRef;
    if d.cleaner.Some? { CleanerStays(s.frames, d.cleaner.value, k, n, g); }
    hide IsCleaner;
    QuietStep(s, n, g, k, d);
  }

  lemma BeginCleanupKeepsInv(s: State, n: nat, file: nat, passive: bool)
    requires Balanced(s) && Inv(s) && BeginCleanup(s, n, file, passive).Some?
    ensures Inv(BeginCleanup(s, n, file, passive).value)
  {
    AliveContexts(s);
    assert file in s.attached ==> s.attached[file] in s.contexts;
    if file in s.attached {
      var t, k := BeginCleanup(s, n, file, passive).value, s.attached[file];
      CleaningLands(s, n, file, passive);
      hide *;
      CleanupQuiet(s, n, k, t.frames[n], t.contexts[k]);
    }
  }

  lemma CleaningLands(s: State, n: nat, file: nat, passive: bool)
    requires BeginCleanup(s, n, file, passive).Some? && file in s.attached && s.attached[file] in s.contexts
    ensures var t, k := BeginCleanup(s, n, file, passive).value, s.attached[file];
      && n !in s.frames && n in t.frames && k in t.contexts && s.contexts[k].cleaner.None?
      && t == s.(frames := s.frames[n := t.frames[n]], contexts := s.contexts[k := t.contexts[k]])
      && t.contexts[k] == s.contexts[k].(refs := s.contexts[k].refs + 1, cleaner := Some(n))
      && t.frames[n].ctx == k && t.frames[n].cleanup && t.frames[n].pc.ReadFlags? && !Settled(t.frames[n])
      && t.frames[n].seen.modified == s.contexts[k].flags.modified
  {}

  lemma CleanupQuiet(s: State, n: nat, k: nat, g: Frame, d: Context)
    requires Inv(s) && n !in s.frames && k in s.contexts && s.contexts[k].cleaner.None?
    requires d == s.contexts[k].(refs := s.contexts[k].refs + 1, cleaner := Some(n))
    requires g.ctx == k && g.cleanup && g.pc.ReadFlags? && !Settled(g) && g.seen.modified == d.flags.modified
    ensures Inv(s.(frames := s.frames[n := g], contexts := s.contexts[k := d]))
  {
    assert Story(g) && FrameOk(n, g, d) && IsCleaner(s.frames[n := g], n, k);
    hide Inv, Story, IsCleaner, FrameOk;
    QuietStep(s, n, g, k, d);
  }

  lemma PublishStory(f: Frame)
    requires Story(f) && f.pc.Attach?
    ensures Story(f.(pc := Release))
  {}

  lemma PublishQuiet(s: State, n: nat, d: Context)
    requires Inv(s) && n in s.frames && s.frames[n].pc.Attach? && s.frames[n].ctx in s.contexts
    requires d == s.contexts[s.frames[n].ctx].(refs := d.refs)
    ensures Inv(s.(frames := s.frames[n := s.frames[n].(pc := Release)], contexts := s.contexts[s.frames[n].ctx := d]))
  {
    var f, k := s.frames[n], s.frames[n].ctx;
    var g := f.(pc := Release);
    FactsOf(s, n, k);
    PublishStory(f);
    hide Inv, Story;
    if d.cleaner.Some? { CleanerStays(s.frames, d.cleaner.value, k, n, g); }
    hide IsCleaner;
    QuietStep(s, n, g, k, d);
  }

  lemma PublishKeepsInv(s: State, n: nat, o: Answer)
    requires Balanced(s) && Inv(s) && n in s.frames && s.frames[n].pc.Attach?
    ensures Inv(Advance(s, n, o))
  {
    AliveContexts(s);
    hide Inv, RefInv, PoolInv, Publish;
    var k, t := s.frames[n].ctx, Publish(s, n, o);
    Published(s, n, o);
    PublishQuiet(s, n, t.contexts[k]);
    SameInv(s.(frames := t.frames, contexts := t.contexts), t);
  }

  lemma Published(s: State, n: nat, o: Answer)
    requires n in s.frames && s.frames[n].pc.Attach? && s.frames[n].ctx in s.contexts
    ensures var k, t := s.frames[n].ctx, Publish(s, n, o);
      && t.frames == s.frames[n := s.frames[n].(pc := Release)] && k in t.contexts
      && t.contexts == s.contexts[k := t.contexts[k]] && t.contexts[k] == s.contexts[k].(refs := t.contexts[k].refs)
      && (t.attempts, t.synced, t.nextCtx) == (s.attempts, s.synced, s.nextCtx)
  {}

  lemma SameInv(s: State, t: State)
    requires Inv(s)
    requires (t.contexts, t.frames, t.attempts, t.synced, t.nextCtx)
        == (s.contexts, s.frames, s.attempts, s.synced, s.nextCtx)
    ensures Inv(t)
  {
    hide ContextsInv, FramesInv, CleanerInv, AttemptInv, SyncedFrames, SyncedContexts;
  }

  lemma PartedStory(f: Frame)
    requires Story(f) && (f.pc.Release? || f.pc.ReleaseThenPost?)
    ensures Story(f.(pc := if f.pc.Release? then Done else CleanupPending(f.pc.job, f.pc.block)))
  {}

  lemma PartedKeepsInv(s: State, n: nat)
    requires Inv(s) && n in s.frames && (s.frames[n].pc.Release? || s.frames[n].pc.ReleaseThenPost?)
    requires s.frames[n].ctx in s.contexts
    ensures Inv(Parted(s, n))
  {
    var k := s.frames[n].ctx;
    FactsOf(s, n, k);
    PartedStory(s.frames[n]);
    hide Inv, Story;
    var t := Parted(s, n);
    var c, d := s.contexts[k], t.contexts[k];
    if d.cleaner.Some? { CleanerStays(s.frames, c.cleaner.value, k, n, t.frames[n]); }
    hide IsCleaner;
    QuietStep(s, n, t.frames[n], k, d);
  }

  lemma LetGoLands(s: State, n: nat, o: Answer)
    requires n in s.frames && (s.frames[n].pc.Release? || s.frames[n].pc.ReleaseThenPost?)
    requires s.frames[n].ctx in s.contexts
    ensures s.frames[n].ctx in Parted(s, n).contexts && Advance(s, n, o) == Drop(Parted(s, n), s.frames[n].ctx)
  {
    PartedKeys(s, n);
    hide Parted, Drop;
  }

  lemma LetGoKeepsInv(s: State, n: nat, o: Answer)
    requires Balanced(s) && Inv(s) && n in s.frames && (s.frames[n].pc.Release? || s.frames[n].pc.ReleaseThenPost?)
    ensures Inv(Advance(s, n, o))
  {
    AliveContexts(s);
    assert s.frames[n].ctx in s.contexts;
    assert Advance(s, n, o) == Drop(Parted(s, n), s.frames[n].ctx) by { LetGoLands(s, n, o); }
    hide *;
    PartedKeepsInv(s, n);
    PartedKeys(s, n);
    DropKeepsInv(Parted(s, n), s.frames[n].ctx);
  }

  lemma PartedKeys(s: State, n: nat)
    requires n in s.frames && (s.frames[n].pc.Release? || s.frames[n].pc.ReleaseThenPost?)
    requires s.frames[n].ctx in s.contexts
    ensures Parted(s, n).contexts.Keys == s.contexts.Keys
  {}

  lemma AfterStory(f: Frame)
    requires Story(f) && (f.pc.CleanupPending? || f.pc.FreeCompletion?)
    ensures f.pc.CleanupPending? ==>
      && Story(f.(pc := FreeCompletion(f.pc.block), outcome := CapturedBy(Posted, f.pc.job)))
      && Story(f.(pc := FreeCompletion(f.pc.block), outcome := Drained))
      && !Settled(f)
    ensures f.pc.FreeCompletion? ==> Story(f.(pc := Done))
  {}

  lemma EndFrames(s: State, n: nat, g: Frame)
    requires FramesInv(s.frames, s.contexts) && CleanerInv(s.frames, s.contexts)
    requires n in s.frames && !HoldsRef(s.frames[n]) && !HoldsRef(g) && Story(g)
    ensures FramesInv(s.frames[n := g], s.contexts) && CleanerInv(s.frames[n := g], s.contexts)
  {
    hide Story, FrameOk;
  }

  lemma AfterKeepsInv(s: State, n: nat, o: Answer)
    requires Inv(s) && n in s.frames && (s.frames[n].pc.CleanupPending? || s.frames[n].pc.FreeCompletion?)
    ensures Inv(Advance(s, n, o))
  {
    FactsOf(s, n, 0);
    AfterStory(s.frames[n]);
    hide Story, ContextsInv, FramesInv, CleanerInv, AttemptInv, SyncedFrames, SyncedContexts;
    var g := Advance(s, n, o).frames[n];
    StepAttempts(s, n, g);
    QuietSynced(s, n, g, s.contexts);
    EndFrames(s, n, g);
  }

  // ----- creation -----

  lemma BornOk(r: CreateRequest, name: Option<Buffer>)
    requires DecideWriteIntent(r).writeIntent && (name.Some? ==> name.value.text != [])
    ensures ContextOk(Context(DecideWriteIntent(r), false, r.deleteOnClose, name, None, 1, None,
        DecideWriteIntent(r), [], []))
  {}

  lemma CreateFrames(s: State, n: nat, g: Frame, d: Context)
    requires Inv(s) && Alive(s.contexts, s.attached, s.frames) && s.nextCtx !in s.contexts && n !in s.frames
    requires g == Callback(s.nextCtx, g.pc) && g.pc.Attach? && ContextOk(d) && d.cleaner.None? && !d.flags.backedUp
    ensures Inv(s.(frames := s.frames[n := g], contexts := s.contexts[s.nextCtx := d], nextCtx := s.nextCtx + 1))
  {
    assert Story(g);
    hide Story, ContextOk, FrameOk;
    CreateQuiet(s, n, g, d);
    hide SyncedFrames, SyncedContexts, AttemptInv;
    assert FrameOk(n, g, d) by { AttachOk(n, g, d); }
  }

  lemma AttachOk(n: nat, g: Frame, d: Context)
    requires g.pc.Attach?
    ensures FrameOk(n, g, d)
  {}

  lemma CreateQuiet(s: State, n: nat, g: Frame, d: Context)
    requires SyncedFrames(s.synced, s.frames, s.nextCtx) && SyncedContexts(s.synced, s.frames, s.contexts)
    requires AttemptInv(s.attempts, s.frames)
    requires n !in s.frames && !Settled(g) && !d.flags.backedUp
    ensures SyncedFrames(s.synced, s.frames[n := g], s.nextCtx + 1)
    ensures SyncedContexts(s.synced, s.frames[n := g], s.contexts[s.nextCtx := d])
    ensures AttemptInv(s.attempts, s.frames[n := g])
  {}

  lemma PostCreateKeepsInv(s: State, n: nat, file: nat, req: CreateRequest, name: Option<WString>, poolOk: bool)
    requires Balanced(s) && Inv(s) && n !in s.frames
    ensures Inv(PostCreate(s, n, file, req, name, poolOk))
  {
    AliveContexts(s);
    if DecideWriteIntent(req).writeIntent {
      var t := PostCreate(s, n, file, req, name, poolOk);
      Created(s, n, file, req, name, poolOk);
      hide *;
      CreateFrames(s, n, t.frames[n], t.contexts[s.nextCtx]);
      SameInv(s.(frames := t.frames, contexts := t.contexts, nextCtx := t.nextCtx), t);
    }
  }

  lemma Created(s: State, n: nat, file: nat, req: CreateRequest, name: Option<WString>, poolOk: bool)
    requires n !in s.frames && DecideWriteIntent(req).writeIntent
    ensures var t := PostCreate(s, n, file, req, name, poolOk);
      && n in t.frames && s.nextCtx in t.contexts
      && t.frames == s.frames[n := t.frames[n]] && t.contexts == s.contexts[s.nextCtx := t.contexts[s.nextCtx]]
      && t.frames[n] == Callback(s.nextCtx, Attach(file))
      && ContextOk(t.contexts[s.nextCtx])
      && t.contexts[s.nextCtx].cleaner.None? && !t.contexts[s.nextCtx].flags.backedUp
      && (t.attempts, t.synced, t.nextCtx) == (s.attempts, s.synced, s.nextCtx + 1)
  {
    var d := PostCreate(s, n, file, req, name, poolOk).contexts[s.nextCtx];
    BornOk(req, d.original);
    BornClean(req);
    hide DecideWriteIntent, ContextOk;
  }

  lemma BornClean(r: CreateRequest)
    ensures !DecideWriteIntent(r).backedUp
  {}

  // ----- every step -----

  lemma DetachKeepsInv(s: State, file: nat)
    requires Balanced(s) && Inv(s) && file in s.attached
    ensures Inv(Detach(s, file))
  {
    AliveContexts(s);
    hide Inv, RefInv, PoolInv, Drop;
    var t := s.(attached := s.attached - {file});
    SameInv(s, t);
    DropKeepsInv(t, s.attached[file]);
  }

  lemma AdvanceKeepsInv(s: State, n: nat, o: Answer)
    requires Balanced(s) && Inv(s) && n in s.frames && !s.frames[n].pc.Done?
    ensures Inv(Advance(s, n, o))
  {
    hide *;
    var pc := s.frames[n].pc;
    if InStep(pc) {
      StepKeepsInv(s, n, o);
    } else if pc.Attach? {
      PublishKeepsInv(s, n, o);
    } else if pc.Release? || pc.ReleaseThenPost? {
      LetGoKeepsInv(s, n, o);
    } else {
      PcCases(pc);
      AfterKeepsInv(s, n, o);
    }
  }

  lemma NextKeepsInv(s: State, a: Action)
    requires Balanced(s) && Inv(s) && Next(s, a).Some?
    ensures Inv(Next(s, a).value)
  {
    hide Balanced, Inv;
    match a
    case Opened(n, file, req, name, poolOk) => PostCreateKeepsInv(s, n, file, req, name, poolOk);
    case Writing(n, file) => BeginKeepsInv(s, n, file, WritePending);
    case SettingInfo(n, file, info) =>
      var actions := GetSetInformationActions(info);
      if actions != NO_ACTIONS { BeginKeepsInv(s, n, file, AllocSetInfo(actions)); }
    case Mapping(n, file, writable) =>
        BeginKeepsInv(s, n, file, if writable then Ops([OrModified], false) else Release);
    case Cleaning(n, file, passive) => BeginCleanupKeepsInv(s, n, file, passive);
    case Step(n, answer) => AdvanceKeepsInv(s, n, answer);
    case Close(file) => if file in s.attached { DetachKeepsInv(s, file); }
  }

  /** The two invariants hold after every interleaving that starts where they hold. */
  lemma {:induction false} RunInv(s: State, acts: seq<Action>)
    requires Balanced(s) && Inv(s) && Run(s, acts).Some?
    ensures Balanced(Run(s, acts).value) && Inv(Run(s, acts).value)
  {
    hide Balanced, Inv;
    if acts != [] {
      RunInv(s, acts[..|acts| - 1]);
      NextKeeps(Run(s, acts[..|acts| - 1]).value, acts[|acts| - 1]);
      NextKeepsInv(Run(s, acts[..|acts| - 1]).value, acts[|acts| - 1]);
    }
  }

  lemma ReachableInv(s: State)
    requires Reachable(s)
    ensures Balanced(s) && Inv(s)
  {
    var acts: seq<Action> :| Run(Initial(), acts) == Some(s);
    InitialBalanced();
    RunInv(Initial(), acts);
  }
}
