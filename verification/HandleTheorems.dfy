/** What the flags, the delete state and the cleanup of a handle guarantee over every interleaving. */
module HandleTheorems {
  import opened Options
  import opened WideText
  import opened HandleModel
  import opened HandleResources
  import opened HandleInvariant

  // ----- flags -----

  /** Operation i is the last one that changes the delete bit. */
  ghost predicate LastChange(ops: seq<FlagOp>, i: nat) {
    i < |ops| && ChangesDelete(ops[i]) && forall j :: i < j < |ops| ==> !ChangesDelete(ops[j])
  }

  /** With no change of the bit the first value stands, otherwise the last change does. */
  lemma {:induction false} LastDeleteIsLast(ops: seq<FlagOp>, first: bool)
    ensures (forall i :: 0 <= i < |ops| ==> !ChangesDelete(ops[i])) ==> LastDelete(ops, first) == first
    ensures forall i: nat :: LastChange(ops, i) ==> LastDelete(ops, first) == ops[i].OrDelete?
  {
    if ops != [] && !ChangesDelete(ops[|ops| - 1]) {
      var front := ops[..|ops| - 1];
      LastDeleteIsLast(front, first);
      assert forall i :: 0 <= i < |front| ==> front[i] == ops[i];
      assert forall i: nat :: LastChange(ops, i) ==> LastChange(front, i);
    }
  }

  /** The delete bit is the create-time value until it is changed and the last executed change from then on. */
  lemma DeleteBitIsLastChange(s: State, c: nat)
    requires Reachable(s) && c in s.contexts
    ensures var x := s.contexts[c];
      && ((forall i :: 0 <= i < |x.ops| ==> !ChangesDelete(x.ops[i])) ==> x.flags.deleteOnClose == x.atCreate)
      && (forall i: nat :: LastChange(x.ops, i) ==> x.flags.deleteOnClose == x.ops[i].OrDelete?)
  {
    ReachableInv(s);
    assert ContextOk(s.contexts[c]);
    LastDeleteIsLast(s.contexts[c].ops, s.contexts[c].atCreate);
  }

  lemma {:induction false} OnlySets(ops: seq<FlagOp>)
    requires AndNotDelete !in ops
    ensures LastDelete(ops, true)
  {
    if ops != [] {
      assert ops[|ops| - 1] in ops;
      OnlySets(ops[..|ops| - 1]);
    }
  }

  lemma {:induction false} SetNeedsOr(ops: seq<FlagOp>)
    requires LastDelete(ops, false)
    ensures OrDelete in ops
  {
    if !ops[|ops| - 1].OrDelete? {
      SetNeedsOr(ops[..|ops| - 1]);
    }
  }

  /** A create-time delete-on-close is never taken back, and any other delete bit came with an observed request. */
  lemma DeleteBitHasACause(s: State, c: nat)
    requires Reachable(s) && c in s.contexts
    ensures s.contexts[c].atCreate ==> s.contexts[c].flags.deleteOnClose && s.contexts[c].flags.modified
    ensures s.contexts[c].flags.deleteOnClose && !s.contexts[c].atCreate ==> s.contexts[c].observed
  {
    ReachableInv(s);
    var x := s.contexts[c];
    assert ContextOk(x);
    if x.atCreate {
      OnlySets(x.ops);
    } else if x.flags.deleteOnClose {
      SetNeedsOr(x.ops);
    }
  }

  // ----- runs -----

  ghost predicate ContextsGrow(a: map<nat, Context>, b: map<nat, Context>, bound: nat) {
    forall c :: c in b && c < bound ==> c in a && Moves(a[c], b[c])
  }

  ghost predicate FramesGrow(a: map<nat, Frame>, b: map<nat, Frame>) {
    forall n :: n in a ==> n in b && Lasts(a[n], b[n])
  }

  ghost predicate Lasts(f: Frame, g: Frame) {
    && (g.ctx, g.cleanup, g.passive, g.seen.modified) == (f.ctx, f.cleanup, f.passive, f.seen.modified)
    && (Settled(f) ==> g.outcome == f.outcome)
  }

  /**
   Contexts and callbacks only ever gain: no bit but the delete bit is lost, and what a cleanup has
   decided stands.
   */
  ghost predicate Grown(s: State, t: State) {
    s.nextCtx <= t.nextCtx && ContextsGrow(s.contexts, t.contexts, s.nextCtx) && FramesGrow(s.frames, t.frames)
  }

  lemma GrownTrans(s: State, t: State, u: State)
    requires Grown(s, t) && Grown(t, u)
    ensures Grown(s, u)
  {
    forall c | c in u.contexts && c < s.nextCtx ensures c in s.contexts && Moves(s.contexts[c], u.contexts[c]) {
      MovesTrans(s.contexts[c], t.contexts[c], u.contexts[c]);
    }
  }

  lemma MovesTrans(c: Context, d: Context, e: Context)
    requires Moves(c, d) && Moves(d, e)
    ensures Moves(c, e)
  {}

  lemma CountMoves(c: Context, d: Context)
    requires d == c.(refs := d.refs, cleaner := d.cleaner)
    ensures Moves(c, d)
  {}

  lemma ContextMoves(a: map<nat, Context>, k: nat, d: Context, bound: nat)
    requires if k in a then Moves(a[k], d) else k >= bound
    ensures ContextsGrow(a, a[k := d], bound)
  {
    forall c | c in a ensures Moves(a[c], a[c]) { CountMoves(a[c], a[c]); }
    hide Moves;
  }

  lemma ContextGoes(a: map<nat, Context>, k: nat, bound: nat)
    ensures ContextsGrow(a, a - {k}, bound)
  {
    forall c | c in a ensures Moves(a[c], a[c]) { CountMoves(a[c], a[c]); }
    hide Moves;
  }

  lemma FrameMoves(a: map<nat, Frame>, n: nat, g: Frame)
    requires n in a ==> Lasts(a[n], g)
    ensures FramesGrow(a, a[n := g])
  {}

  lemma SameGrown(s: State)
    ensures Grown(s, s)
  {
    ContextGoes(s.contexts, s.nextCtx, s.nextCtx);
    forall c | c in s.contexts ensures Moves(s.contexts[c], s.contexts[c]) { CountMoves(s.contexts[c], s.contexts[c]); }
    hide Moves;
  }

  lemma DropGrows(s: State, k: nat)
    requires k in s.contexts
    ensures Grown(s, Drop(s, k))
  {
    SameGrown(s);
    DropLeaves(s, k);
    hide ContextsGrow, FramesGrow, Drop;
    if s.contexts[k].refs == 1 {
      ContextGoes(s.contexts, k, s.nextCtx);
    } else {
      var d := s.contexts[k].(refs := s.contexts[k].refs - 1);
      CountMoves(s.contexts[k], d);
      ContextMoves(s.contexts, k, d, s.nextCtx);
    }
    assert FramesGrow(s.frames, s.frames) by { SelfFrames(s.frames); }
  }

  lemma SelfFrames(a: map<nat, Frame>)
    ensures FramesGrow(a, a)
  {}

  lemma PartedGrows(s: State, n: nat)
    requires n in s.frames && (s.frames[n].pc.Release? || s.frames[n].pc.ReleaseThenPost?)
    requires s.frames[n].ctx in s.contexts
    ensures Grown(s, Parted(s, n))
  {
    var t, k := Parted(s, n), s.frames[n].ctx;
    CountMoves(s.contexts[k], t.contexts[k]);
    ContextMoves(s.contexts, k, t.contexts[k], s.nextCtx);
    FrameMoves(s.frames, n, t.frames[n]);
    hide ContextsGrow, FramesGrow;
  }

  lemma StepGrows(s: State, n: nat, o: Answer)
    requires Balanced(s) && Inv(s) && n in s.frames && InStep(s.frames[n].pc)
    ensures Grown(s, Advance(s, n, o))
  {
    AliveContexts(s);
    assert Ready(s, n);
    StepFacts(s, n, o);
    InStepAdvance(s, n, o);
    var e := EffectOf(s, n, o);
    FrameMoves(s.frames, n, e.frame);
    ContextMoves(s.contexts, s.frames[n].ctx, e.ctx, s.nextCtx);
    hide ContextsGrow, FramesGrow, Balanced, Inv, Advance, StepOf, StepOk, Sends;
  }

  lemma AdvanceGrows(s: State, n: nat, o: Answer)
    requires Balanced(s) && Inv(s) && n in s.frames && !s.frames[n].pc.Done?
    ensures Grown(s, Advance(s, n, o))
  {
    var pc := s.frames[n].pc;
    PcCases(pc);
    AliveContexts(s);
    FactsOf(s, n, s.nextCtx);
    if InStep(pc) {
      StepGrows(s, n, o);
    } else if pc.Attach? {
      PublishGrows(s, n, o);
    } else if pc.Release? || pc.ReleaseThenPost? {
      PartedGrows(s, n);
      hide Inv, Balanced, Grown, Drop, Parted;
      PartedKeys(s, n);
      DropGrows(Parted(s, n), s.frames[n].ctx);
      GrownTrans(s, Parted(s, n), Drop(Parted(s, n), s.frames[n].ctx));
    } else {
      AfterGrows(s, n, o);
    }
  }

  lemma PublishGrows(s: State, n: nat, o: Answer)
    requires n in s.frames && s.frames[n].pc.Attach? && s.frames[n].ctx in s.contexts
    ensures Grown(s, Publish(s, n, o))
  {
    Published(s, n, o);
    var k, t := s.frames[n].ctx, Publish(s, n, o);
    hide Publish;
    CountMoves(s.contexts[k], t.contexts[k]);
    ContextMoves(s.contexts, k, t.contexts[k], s.nextCtx);
    FrameMoves(s.frames, n, t.frames[n]);
    hide ContextsGrow, FramesGrow;
  }

  lemma AfterGrows(s: State, n: nat, o: Answer)
    requires n in s.frames && (s.frames[n].pc.CleanupPending? || s.frames[n].pc.FreeCompletion?) && Story(s.frames[n])
    ensures Grown(s, AfterCleanup(s, n, o))
  {
    AfterStory(s.frames[n]);
    hide Story;
    SameGrown(s);
    FrameMoves(s.frames, n, AfterCleanup(s, n, o).frames[n]);
    hide ContextsGrow, FramesGrow;
  }

  lemma BeginGrows(s: State, n: nat, g: Frame, k: nat, d: Context, t: State)
    requires n !in s.frames && (k in s.contexts ==> d == s.contexts[k].(refs := d.refs, cleaner := d.cleaner))
    requires k in s.contexts || k >= s.nextCtx
    requires t.frames == s.frames[n := g] && t.contexts == s.contexts[k := d] && t.nextCtx >= s.nextCtx
    ensures Grown(s, t)
  {
    if k in s.contexts { CountMoves(s.contexts[k], d); }
    ContextMoves(s.contexts, k, d, s.nextCtx);
    FrameMoves(s.frames, n, g);
    hide ContextsGrow, FramesGrow;
  }

  lemma EntryGrows(s: State, n: nat, file: nat, pc: Pc)
    requires Begin(s, n, file, pc).Some?
    ensures Grown(s, Begin(s, n, file, pc).value)
  {
    SameGrown(s);
    hide Grown;
    if file in s.attached && s.attached[file] in s.contexts {
      var t, k := Begin(s, n, file, pc).value, s.attached[file];
      BeginGrows(s, n, t.frames[n], k, t.contexts[k], t);
    }
  }

  lemma CleaningGrows(s: State, n: nat, file: nat, passive: bool)
    requires BeginCleanup(s, n, file, passive).Some?
    ensures Grown(s, BeginCleanup(s, n, file, passive).value)
  {
    SameGrown(s);
    hide Grown;
    if file in s.attached && s.attached[file] in s.contexts {
      var t, k := BeginCleanup(s, n, file, passive).value, s.attached[file];
      BeginGrows(s, n, t.frames[n], k, t.contexts[k], t);
    }
  }

  lemma CreationGrows(s: State, n: nat, file: nat, req: CreateRequest, name: Option<WString>, poolOk: bool)
    requires n !in s.frames && s.nextCtx !in s.contexts
    ensures Grown(s, PostCreate(s, n, file, req, name, poolOk))
  {
    SameGrown(s);
    hide Grown, DecideWriteIntent;
    var t := PostCreate(s, n, file, req, name, poolOk);
    if DecideWriteIntent(req).writeIntent {
      BeginGrows(s, n, t.frames[n], s.nextCtx, t.contexts[s.nextCtx], t);
    }
  }

  lemma DetachGrows(s: State, file: nat)
    requires file in s.attached && s.attached[file] in s.contexts
    ensures Grown(s, Detach(s, file))
  {
    var t := s.(attached := s.attached - {file});
    DropGrows(t, s.attached[file]);
    hide ContextsGrow, FramesGrow, Drop;
  }

  lemma NextGrows(s: State, a: Action)
    requires Balanced(s) && Inv(s) && Next(s, a).Some?
    ensures Grown(s, Next(s, a).value)
  {
    SameGrown(s);
    AliveContexts(s);
    hide Grown, Inv, Balanced, RefInv, PoolInv;
    match a
    case Opened(n, file, req, name, poolOk) => CreationGrows(s, n, file, req, name, poolOk);
    case Writing(n, file) => EntryGrows(s, n, file, WritePending);
    case SettingInfo(n, file, info) =>
      var actions := GetSetInformationActions(info);
      if actions != NO_ACTIONS { EntryGrows(s, n, file, AllocSetInfo(actions)); }
    case Mapping(n, file, writable) => EntryGrows(s, n, file, if writable then Ops([OrModified], false) else Release);
    case Cleaning(n, file, passive) => CleaningGrows(s, n, file, passive);
    case Step(n, answer) => AdvanceGrows(s, n, answer);
    case Close(file) => if file in s.attached { DetachGrows(s, file); }
  }

  lemma {:induction false} RunGrows(s: State, acts: seq<Action>)
    requires Balanced(s) && Inv(s) && Run(s, acts).Some?
    ensures Grown(s, Run(s, acts).value)
  {
    SameGrown(s);
    hide Grown, Inv, Balanced;
    if acts != [] {
      var front := acts[..|acts| - 1];
      RunGrows(s, front);
      RunInv(s, front);
      NextGrows(Run(s, front).value, acts[|acts| - 1]);
      GrownTrans(s, Run(s, front).value, Run(s, acts).value);
    }
  }

  /**
   In whatever follows, no bit but the delete bit is ever cleared while the context lives, and a
   create-time delete never.
   */
  lemma BitsAreSticky(s: State, acts: seq<Action>, c: nat)
    requires Reachable(s) && Run(s, acts).Some? && c in s.contexts && c in Run(s, acts).value.contexts
    ensures var x, y := s.contexts[c], Run(s, acts).value.contexts[c];
      && (x.flags.writeIntent ==> y.flags.writeIntent) && (x.flags.modified ==> y.flags.modified)
      && (x.flags.renamed ==> y.flags.renamed) && x.flags.created == y.flags.created
      && (x.flags.backedUp ==> y.flags.backedUp) && (x.observed ==> y.observed)
      && (x.atCreate ==> y.flags.deleteOnClose)
  {
    ReachableInv(s);
    RunInv(s, acts);
    RunGrows(s, acts);
    var x, y := s.contexts[c], Run(s, acts).value.contexts[c];
    assert ContextOk(x) && ContextOk(y) && Moves(x, y);
    if x.atCreate { OnlySets(y.ops); }
    assert forall op :: op in x.ops ==> op in y.ops;
  }

  // ----- cleanup -----

  lemma CleanupBegins(s: State, n: nat, file: nat, passive: bool)
    requires Reachable(s) && n !in s.frames && file in s.attached && s.attached[file] in s.contexts
    requires BeginCleanup(s, n, file, passive).Some?
    ensures var t := BeginCleanup(s, n, file, passive).value;
      && Balanced(t) && Inv(t) && n in t.frames && t.frames[n].cleanup && t.frames[n].ctx == s.attached[file]
      && t.frames[n].seen.modified == s.contexts[s.attached[file]].flags.modified
  {
    ReachableInv(s);
    CleaningLands(s, n, file, passive);
    hide Balanced, Inv, BeginCleanup;
    BeginCleanupKeeps(s, n, file, passive);
    BeginCleanupKeepsInv(s, n, file, passive);
  }

  lemma CleanupEnds(u: State, n: nat)
    requires Inv(u) && n in u.frames && u.frames[n].pc.Done? && u.frames[n].cleanup && u.frames[n].seen.modified
    ensures var f := u.frames[n];
      && (f.outcome.Captured? || f.outcome.AlreadyBackedUp? || f.outcome.NoName? || f.outcome.Filtered?
           || f.outcome.OutOfMemory? || f.outcome.Drained?)
      && u.attempts[n] == (if f.outcome.Captured? then 1 else 0)
      && (f.outcome.Captured? ==> f.outcome.what.flags.modified)
      && (f.outcome.NoName? ==> FinalName(f.seen) == [])
      && (f.outcome.AlreadyBackedUp? ==>
           exists m :: m != n && m in u.frames && u.frames[m].ctx == f.ctx && SentSync(u.frames[m]))
  {
    assert Story(u.frames[n]);
    var f := u.frames[n];
    if f.outcome.AlreadyBackedUp? {
      assert u.synced[f.ctx] in u.frames && SentSync(u.frames[u.synced[f.ctx]]);
    }
  }

  /**
   Nothing is captured without a cause, under the name that was found, and by the way the delete
   state and IRQL demand.
   */
  lemma CaptureIsJustified(s: State, n: nat)
    requires Reachable(s) && n in s.frames && s.frames[n].outcome.Captured?
    ensures var f := s.frames[n]; var x := f.outcome.what;
      && s.attempts[n] == 1
      && x.name == FinalName(f.seen) != []
      && (x.flags.modified || x.flags.deleteOnClose)
      && (x.how.Sync? <==> x.flags.deleteOnClose && f.passive)
      && (x.how.Elevated? <==> x.flags.deleteOnClose && !f.passive)
  {
    ReachableInv(s);
    assert Story(s.frames[n]);
  }

  /**
   The name a cleanup copies is that of the last rename captured on the handle; only without one, or
   without memory, it asks on.
   */
  lemma CopiedNameIsLastRename(s: State, n: nat, o: Answer)
    requires Reachable(s) && n in s.frames && s.frames[n].pc.CopyName?
    ensures s.frames[n].ctx in s.contexts
    ensures var renames := s.contexts[s.frames[n].ctx].renames; var g := Advance(s, n, o).frames[n];
      && g.seen.renames == renames
      && (renames != [] && o.poolOk ==> g.pc.Reconcile? && g.pc.job.name == renames[|renames| - 1])
      && (renames == [] || !o.poolOk ==> g.pc.LiveQuery?)
  {
    ReachableInv(s);
    ContextBelow(s, n);
    var f, c := s.frames[n], s.contexts[s.frames[n].ctx];
    assert ContextOk(c);
    CopyStep(n, f, c, s.pool, o);
    hide Balanced, Inv, StepOf, ContextOk;
    InStepAdvance(s, n, o);
    hide Advance;
  }

  lemma CopyStep(n: nat, f: Frame, c: Context, p: Pool, o: Answer)
    requires f.pc.CopyName? && NamesOk(c.original, c.current, c.renames)
    ensures var g := StepOf(n, f, c, p, o).frame;
      && g.seen.renames == c.renames
      && (c.renames != [] && o.poolOk ==> g.pc.Reconcile? && g.pc.job.name == c.renames[|c.renames| - 1])
      && (c.renames == [] || !o.poolOk ==> g.pc.LiveQuery?)
  {}

  /** At most one cleanup of a handle captures it synchronously. */
  lemma SyncCaptureOnce(s: State, m: nat, n: nat)
    requires Reachable(s) && m in s.frames && n in s.frames && SentSync(s.frames[m]) && SentSync(s.frames[n])
    requires s.frames[m].ctx == s.frames[n].ctx
    ensures m == n
  {
    ReachableInv(s);
  }

  /** A handle counts as backed up only when one of its cleanups captured it synchronously. */
  lemma BackedUpMeansSynced(s: State, c: nat)
    requires Reachable(s) && c in s.contexts && s.contexts[c].flags.backedUp
    ensures exists n :: n in s.frames && s.frames[n].ctx == c && SentSync(s.frames[n])
  {
    ReachableInv(s);
    assert s.synced[c] in s.frames && SentSync(s.frames[s.synced[c]]);
  }
}
