/** Where a handle's flags come from: every bit can be traced to a request on that very handle. */
module HandleCauses {
  import opened Options
  import opened WideText
  import opened HandleModel
  import opened HandleResources
  import opened HandleInvariant
  import opened HandleTheorems
  import opened HandleEffects

  // ----- requests and the operations they call for -----

  /** The action begins callback n with a request whose success executes op. */
  predicate Requests(a: Action, n: nat, op: FlagOp) {
    match a
    case Writing(m, _) => m == n && op.OrModified?
    case Mapping(m, _, writable) => m == n && writable && op.OrModified?
    case SettingInfo(m, _, info) => m == n && InfoRequests(info, op)
    case _ => false
  }

  predicate InfoRequests(info: SetInfo, op: FlagOp) {
    match op
    case OrModified => Resizes(info) || Renames(info)
    case OrRenamed => Renames(info)
    case Observe => Disposes(info).Some?
    case OrDelete => Disposes(info) == Some(true)
    case AndNotDelete => Disposes(info) == Some(false)
    case OrBackedUp => false
  }

  ghost predicate Requested(acts: seq<Action>, n: nat, op: FlagOp) {
    exists i :: 0 <= i < |acts| && Requests(acts[i], n, op)
  }

  /** Callback n was answered success, or needs no answer: a mapping is marked before it is made. */
  ghost predicate Succeeded(acts: seq<Action>, n: nat) {
    exists i :: 0 <= i < |acts| && Affirms(acts[i], n)
  }

  predicate Affirms(a: Action, n: nat) {
    (a.Mapping? && a.n == n) || (a.Step? && a.n == n && a.answer.success)
  }

  ghost predicate Due(acts: seq<Action>, n: nat, op: FlagOp) {
    Requested(acts, n, op) && Succeeded(acts, n)
  }

  /** The run holds the create that made context c. */
  ghost predicate MadeBy(acts: seq<Action>, frames: map<nat, Frame>, c: nat, r: CreateRequest) {
    exists i :: 0 <= i < |acts| && acts[i].Opened? && acts[i].req == r && acts[i].n in frames
        && frames[acts[i].n].ctx == c
  }

  lemma RequestedGrows(acts: seq<Action>, a: Action, n: nat, op: FlagOp)
    ensures Requested(acts, n, op) ==> Requested(acts + [a], n, op)
    ensures Requests(a, n, op) ==> Requested(acts + [a], n, op)
  {
    var longer := acts + [a];
    assert longer[|acts|] == a;
    assert forall i :: 0 <= i < |acts| ==> longer[i] == acts[i];
  }

  lemma SucceededGrows(acts: seq<Action>, a: Action, n: nat)
    ensures Succeeded(acts, n) ==> Succeeded(acts + [a], n)
    ensures Affirms(a, n) ==> Succeeded(acts + [a], n)
  {
    var longer := acts + [a];
    assert longer[|acts|] == a;
    assert forall i :: 0 <= i < |acts| ==> longer[i] == acts[i];
  }

  // ----- the invariant -----

  /** What a callback is about to execute was requested when it began, and the request succeeded. */
  ghost predicate Traced(acts: seq<Action>, n: nat, pc: Pc) {
    && (pc.WritePending? ==> Requested(acts, n, OrModified))
    && (pc.AllocSetInfo? || pc.SetInfoPending? ==>
          forall atCreate, op :: op in OpsOf(pc.actions, atCreate) ==> Requested(acts, n, op))
    && (pc.Ops? ==> forall op :: op in pc.todo ==> Due(acts, n, op))
  }

  ghost predicate FramesTraced(acts: seq<Action>, frames: map<nat, Frame>) {
    forall n :: n in frames ==> Traced(acts, n, frames[n].pc)
  }

  /** A callback on context c was begun by a request for op, which succeeded. */
  ghost predicate OnBehalf(acts: seq<Action>, frames: map<nat, Frame>, c: nat, op: FlagOp) {
    exists n :: n in frames && frames[n].ctx == c && Due(acts, n, op)
  }

  ghost predicate OpsTraced(acts: seq<Action>, frames: map<nat, Frame>, c: nat, x: Context) {
    forall op :: op in x.ops ==> op.OrBackedUp? || OnBehalf(acts, frames, c, op)
  }

  ghost predicate BirthTraced(acts: seq<Action>, frames: map<nat, Frame>, c: nat, x: Context) {
    exists r :: MadeBy(acts, frames, c, r) && x.born == DecideWriteIntent(r) && x.born.writeIntent
  }

  ghost predicate ContextsTraced(acts: seq<Action>, frames: map<nat, Frame>, contexts: map<nat, Context>) {
    forall c :: c in contexts ==> OpsTraced(acts, frames, c, contexts[c]) && BirthTraced(acts, frames, c, contexts[c])
  }

  ghost predicate TraceInv(acts: seq<Action>, s: State) {
    FramesTraced(acts, s.frames) && ContextsTraced(acts, s.frames, s.contexts)
  }

  // ----- what a longer run keeps -----

  lemma TracedGrows(acts: seq<Action>, a: Action, n: nat, pc: Pc)
    requires Traced(acts, n, pc)
    ensures Traced(acts + [a], n, pc)
  {
    forall op ensures Requested(acts, n, op) ==> Requested(acts + [a], n, op) { RequestedGrows(acts, a, n, op); }
    SucceededGrows(acts, a, n);
    hide Requested, Succeeded, OpsOf;
  }

  /** Callbacks are only added, and keep their context. */
  ghost predicate SameContexts(a: map<nat, Frame>, b: map<nat, Frame>) {
    forall n :: n in a ==> n in b && b[n].ctx == a[n].ctx
  }

  lemma OpsTracedGrows(acts: seq<Action>, a: Action, f: map<nat, Frame>, g: map<nat, Frame>, c: nat, x: Context,
      y: Context)
    requires OpsTraced(acts, f, c, x) && SameContexts(f, g)
    requires forall op :: op in y.ops ==> op in x.ops || op.OrBackedUp? || OnBehalf(acts + [a], f, c, op)
    ensures OpsTraced(acts + [a], g, c, y)
  {
    hide Due;
    forall op | op in y.ops && !op.OrBackedUp? ensures OnBehalf(acts + [a], g, c, op) {
      if op in x.ops { OnBehalfGrows(acts, a, f, c, op); }
      var n :| n in f && f[n].ctx == c && Due(acts + [a], n, op);
      assert n in g;
    }
  }

  lemma OnBehalfGrows(acts: seq<Action>, a: Action, f: map<nat, Frame>, c: nat, op: FlagOp)
    requires OnBehalf(acts, f, c, op)
    ensures OnBehalf(acts + [a], f, c, op)
  {
    var n :| n in f && f[n].ctx == c && Due(acts, n, op);
    RequestedGrows(acts, a, n, op);
    SucceededGrows(acts, a, n);
    hide Requested, Succeeded;
  }

  lemma BirthTracedGrows(acts: seq<Action>, a: Action, f: map<nat, Frame>, g: map<nat, Frame>, c: nat, x: Context,
      y: Context)
    requires BirthTraced(acts, f, c, x) && SameContexts(f, g) && y.born == x.born
    ensures BirthTraced(acts + [a], g, c, y)
  {
    var r :| MadeBy(acts, f, c, r) && x.born == DecideWriteIntent(r);
    var i :| 0 <= i < |acts| && acts[i].Opened? && acts[i].req == r && acts[i].n in f && f[acts[i].n].ctx == c;
    assert (acts + [a])[i] == acts[i];
    assert MadeBy(acts + [a], g, c, r);
  }

  /** The contexts of the new state: old ones, with no more operations than were asked for. */
  ghost predicate FewOps(acts: seq<Action>, s: State, t: State) {
    forall c :: c in t.contexts && c < s.nextCtx ==>
      && c in s.contexts && t.contexts[c].born == s.contexts[c].born
      && (forall op :: op in t.contexts[c].ops ==>
            op in s.contexts[c].ops || op.OrBackedUp? || OnBehalf(acts, s.frames, c, op))
  }

  lemma OldContexts(acts: seq<Action>, a: Action, s: State, t: State)
    requires ContextsTraced(acts, s.frames, s.contexts) && SameContexts(s.frames, t.frames)
    requires FewOps(acts + [a], s, t)
    ensures forall c :: c in t.contexts && c < s.nextCtx ==>
      OpsTraced(acts + [a], t.frames, c, t.contexts[c]) && BirthTraced(acts + [a], t.frames, c, t.contexts[c])
  {
    forall c | c in t.contexts && c < s.nextCtx
      ensures OpsTraced(acts + [a], t.frames, c, t.contexts[c]) && BirthTraced(acts + [a], t.frames, c, t.contexts[c])
    {
      OpsTracedGrows(acts, a, s.frames, t.frames, c, s.contexts[c], t.contexts[c]);
      BirthTracedGrows(acts, a, s.frames, t.frames, c, s.contexts[c], t.contexts[c]);
    }
  }

  // ----- steps -----

  /** A step of a callback executes nothing but what it was about to, and hands itself on. */
  ghost predicate Faithful(acts: seq<Action>, n: nat, f: Frame, c: Context, e: Effect) {
    && Traced(acts, n, e.frame.pc)
    && (forall op :: op in e.ctx.ops ==> op in c.ops || op.OrBackedUp? || Due(acts, n, op))
    && e.ctx.born == c.born && e.frame.ctx == f.ctx
  }

  lemma CleanupFaithful(acts: seq<Action>, n: nat, f: Frame, c: Context, p: Pool, o: Answer)
    requires InCleanup(f.pc)
    ensures Faithful(acts, n, f, c, CleanupStep(n, f, c, p, o))
  {
    hide Due;
  }

  lemma UpdateFaithful(acts: seq<Action>, n: nat, f: Frame, c: Context, p: Pool, o: Answer)
    requires InUpdate(f.pc) && Traced(acts, n, f.pc) && (o.success ==> Succeeded(acts, n))
    ensures Faithful(acts, n, f, c, UpdateStep(n, f, c, p, o))
  {
    hide Requested, Succeeded, OpsOf;
    if f.pc.Ops? && f.pc.todo != [] {
      assert f.pc.todo[0] in f.pc.todo;
      assert Apply(c, f.pc.todo[0]).ops == c.ops + [f.pc.todo[0]];
    }
  }

  lemma StepFaithful(acts: seq<Action>, n: nat, f: Frame, c: Context, p: Pool, o: Answer)
    requires InStep(f.pc) && Traced(acts, n, f.pc) && (o.success ==> Succeeded(acts, n))
    ensures Faithful(acts, n, f, c, StepOf(n, f, c, p, o))
  {
    hide Faithful, CleanupStep, UpdateStep, Traced, Succeeded;
    if InCleanup(f.pc) { CleanupFaithful(acts, n, f, c, p, o); } else { UpdateFaithful(acts, n, f, c, p, o); }
  }

  /** Whatever happens, the frames of the new state are traced. */
  lemma OthersTraced(acts: seq<Action>, a: Action, s: State, t: State, n: nat)
    requires FramesTraced(acts, s.frames) && n in t.frames && t.frames == s.frames[n := t.frames[n]]
    requires Traced(acts + [a], n, t.frames[n].pc)
    ensures FramesTraced(acts + [a], t.frames)
  {
    forall m | m in s.frames && m != n ensures Traced(acts + [a], m, t.frames[m].pc) {
      TracedGrows(acts, a, m, s.frames[m].pc);
    }
    hide Traced;
  }

  /** Contexts of the old state, with the same history. */
  ghost predicate SameOps(a: map<nat, Context>, b: map<nat, Context>) {
    forall c :: c in b ==> c in a && b[c].born == a[c].born && b[c].ops == a[c].ops
  }

  lemma SameOpsIsFew(acts: seq<Action>, s: State, t: State)
    requires SameOps(s.contexts, t.contexts)
    ensures FewOps(acts, s, t)
  {}

  /** One callback comes or goes on; no context is new. */
  lemma Carries(acts: seq<Action>, a: Action, s: State, t: State, n: nat)
    requires TraceInv(acts, s) && FewOps(acts + [a], s, t) && n in t.frames && t.frames == s.frames[n := t.frames[n]]
    requires n in s.frames ==> t.frames[n].ctx == s.frames[n].ctx
    requires Traced(acts + [a], n, t.frames[n].pc)
    requires forall c :: c in t.contexts ==> c < s.nextCtx
    ensures TraceInv(acts + [a], t)
  {
    hide Traced, FewOps, ContextsTraced, FramesTraced, OpsTraced, BirthTraced;
    OthersTraced(acts, a, s, t, n);
    OldContexts(acts, a, s, t);
    hide SameContexts;
    assert ContextsTraced(acts + [a], t.frames, t.contexts) by { AllTraced(acts + [a], t); }
  }

  lemma AllTraced(acts: seq<Action>, t: State)
    requires forall c :: c in t.contexts ==>
        OpsTraced(acts, t.frames, c, t.contexts[c]) && BirthTraced(acts, t.frames, c, t.contexts[c])
    ensures ContextsTraced(acts, t.frames, t.contexts)
  {
    hide OpsTraced, BirthTraced;
  }

  /** Only the operations of the stepping callback are new, and only on its context. */
  lemma FaithfulIsFew(acts: seq<Action>, s: State, t: State, n: nat, e: Effect)
    requires n in s.frames && s.frames[n].ctx in s.contexts
    requires Faithful(acts, n, s.frames[n], s.contexts[s.frames[n].ctx], e)
    requires t.contexts == s.contexts[s.frames[n].ctx := e.ctx]
    ensures FewOps(acts, s, t)
  {
    hide Traced, Due;
  }

  lemma StepCarries(acts: seq<Action>, s: State, n: nat, o: Answer)
    requires Balanced(s) && TraceInv(acts, s) && n in s.frames && InStep(s.frames[n].pc)
    ensures TraceInv(acts + [Step(n, o)], Advance(s, n, o))
  {
    Bounded(s);
    ContextBelow(s, n);
    assert Traced(acts, n, s.frames[n].pc);
    hide *;
    TracedStepCarries(acts, s, n, o);
  }

  lemma TracedStepCarries(acts: seq<Action>, s: State, n: nat, o: Answer)
    requires TraceInv(acts, s) && n in s.frames && InStep(s.frames[n].pc) && Traced(acts, n, s.frames[n].pc)
    requires s.frames[n].ctx in s.contexts && forall c :: c in s.contexts ==> c < s.nextCtx
    ensures TraceInv(acts + [Step(n, o)], Advance(s, n, o))
  {
    assert !s.frames[n].pc.Done?;
    hide *;
    var now := acts + [Step(n, o)];
    TracedGrows(acts, Step(n, o), n, s.frames[n].pc);
    NowSucceeded(acts, n, o);
    FaithfulStep(now, s, n, o);
    InStepAdvance(s, n, o);
    var t, e := Advance(s, n, o), EffectOf(s, n, o);
    FaithfulIsFew(now, s, t, n, e);
    FaithfulHands(now, n, s.frames[n], s.contexts[s.frames[n].ctx], e);
    Carries(acts, Step(n, o), s, t, n);
  }

  lemma NowSucceeded(acts: seq<Action>, n: nat, o: Answer)
    ensures o.success ==> Succeeded(acts + [Step(n, o)], n)
  {
    SucceededGrows(acts, Step(n, o), n);
    hide Succeeded;
  }

  lemma FaithfulStep(acts: seq<Action>, s: State, n: nat, o: Answer)
    requires n in s.frames && s.frames[n].ctx in s.contexts && InStep(s.frames[n].pc) && Traced(acts, n, s.frames[n].pc)
    requires o.success ==> Succeeded(acts, n)
    ensures Faithful(acts, n, s.frames[n], s.contexts[s.frames[n].ctx], EffectOf(s, n, o))
  {
    hide Faithful, StepOf, Traced, Succeeded;
    StepFaithful(acts, n, s.frames[n], s.contexts[s.frames[n].ctx], s.pool, o);
  }

  lemma FaithfulHands(acts: seq<Action>, n: nat, f: Frame, c: Context, e: Effect)
    requires Faithful(acts, n, f, c, e)
    ensures Traced(acts, n, e.frame.pc) && e.frame.ctx == f.ctx
  {}

  predicate Idle(pc: Pc) {
    !pc.WritePending? && !pc.AllocSetInfo? && !pc.SetInfoPending? && !pc.Ops?
  }

  lemma IdleTraced(acts: seq<Action>, n: nat, pc: Pc)
    requires Idle(pc)
    ensures Traced(acts, n, pc)
  {}

  /** A callback that comes or goes on while no context gains operations. */
  lemma Joins(acts: seq<Action>, a: Action, s: State, t: State, n: nat)
    requires Balanced(s) && TraceInv(acts, s) && SameOps(s.contexts, t.contexts)
    requires n in t.frames && t.frames == s.frames[n := t.frames[n]] && Traced(acts + [a], n, t.frames[n].pc)
    requires n in s.frames ==> t.frames[n].ctx == s.frames[n].ctx
    ensures TraceInv(acts + [a], t)
  {
    Bounded(s);
    SameOpsIsFew(acts + [a], s, t);
    hide Balanced, TraceInv, FewOps, Traced;
    Carries(acts, a, s, t, n);
  }

  lemma PublishSame(s: State, n: nat, o: Answer)
    requires n in s.frames && s.frames[n].pc.Attach? && s.frames[n].ctx in s.contexts
    ensures var t := Publish(s, n, o);
      SameOps(s.contexts, t.contexts) && n in t.frames && t.frames == s.frames[n := t.frames[n]]
      && t.frames[n].pc.Release? && t.frames[n].ctx == s.frames[n].ctx
  {}

  lemma LetGoSame(s: State, n: nat)
    requires n in s.frames && (s.frames[n].pc.Release? || s.frames[n].pc.ReleaseThenPost?)
    requires s.frames[n].ctx in s.contexts
    ensures var t := LetGo(s, n);
      SameOps(s.contexts, t.contexts) && n in t.frames && t.frames == s.frames[n := t.frames[n]]
      && (t.frames[n].pc.Done? || t.frames[n].pc.CleanupPending?) && t.frames[n].ctx == s.frames[n].ctx
  {
    PartedKeys(s, n);
    DropLeaves(Parted(s, n), s.frames[n].ctx);
    hide Drop;
  }

  lemma AfterSame(s: State, n: nat, o: Answer)
    requires n in s.frames && (s.frames[n].pc.CleanupPending? || s.frames[n].pc.FreeCompletion?)
    ensures var t := AfterCleanup(s, n, o);
      t.contexts == s.contexts && n in t.frames && t.frames == s.frames[n := t.frames[n]]
      && (t.frames[n].pc.Done? || t.frames[n].pc.FreeCompletion?) && t.frames[n].ctx == s.frames[n].ctx
  {}

  /** A step outside the bodies executes nothing. */
  lemma IdleSame(s: State, n: nat, o: Answer)
    requires Alive(s.contexts, s.attached, s.frames) && n in s.frames && !s.frames[n].pc.Done?
    requires !InStep(s.frames[n].pc)
    ensures var t := Advance(s, n, o);
      SameOps(s.contexts, t.contexts) && n in t.frames && t.frames == s.frames[n := t.frames[n]]
      && Idle(t.frames[n].pc) && t.frames[n].ctx == s.frames[n].ctx
  {
    var pc := s.frames[n].pc;
    PcCases(pc);
    if pc.Attach? {
      PublishSame(s, n, o);
      hide Publish;
    } else if pc.Release? || pc.ReleaseThenPost? {
      LetGoSame(s, n);
      hide LetGo;
    } else {
      AfterSame(s, n, o);
      hide AfterCleanup;
    }
  }

  lemma AdvanceCarries(acts: seq<Action>, s: State, n: nat, o: Answer)
    requires Balanced(s) && TraceInv(acts, s) && n in s.frames && !s.frames[n].pc.Done?
    ensures TraceInv(acts + [Step(n, o)], Advance(s, n, o))
  {
    AliveContexts(s);
    hide *;
    if InStep(s.frames[n].pc) {
      StepCarries(acts, s, n, o);
    } else {
      IdleSame(s, n, o);
      var t := Advance(s, n, o);
      IdleTraced(acts + [Step(n, o)], n, t.frames[n].pc);
      Joins(acts, Step(n, o), s, t, n);
    }
  }

  // ----- beginnings -----

  /** A callback that has just begun is traced to the action that began it. */
  lemma FreshTraced(acts: seq<Action>, a: Action, n: nat, pc: Pc)
    requires pc.WritePending? ==> a.Writing? && a.n == n
    requires pc.AllocSetInfo? ==> a.SettingInfo? && a.n == n && pc.actions == GetSetInformationActions(a.info)
    requires !pc.SetInfoPending?
    requires pc.Ops? ==> a.Mapping? && a.n == n && a.writable && pc.todo == [OrModified]
    ensures Traced(acts + [a], n, pc)
  {
    if pc.WritePending? || pc.Ops? { RequestedGrows(acts, a, n, OrModified); }
    if pc.Ops? { SucceededGrows(acts, a, n); }
    if pc.AllocSetInfo? {
      forall atCreate, op | op in OpsOf(pc.actions, atCreate) ensures Requested(acts + [a], n, op) {
        SetInfoIsExact(a.info, atCreate);
        assert InfoRequests(a.info, op);
        RequestedGrows(acts, a, n, op);
      }
    }
  }

  lemma EntryLands(s: State, n: nat, file: nat, pc: Pc)
    requires n !in s.frames && file in s.attached && s.attached[file] in s.contexts
    ensures Begin(s, n, file, pc).Some?
    ensures var t := Begin(s, n, file, pc).value;
      SameOps(s.contexts, t.contexts) && n in t.frames && t.frames == s.frames[n := t.frames[n]] && t.frames[n].pc == pc
  {}

  lemma EntryCarries(acts: seq<Action>, a: Action, s: State, n: nat, file: nat, pc: Pc)
    requires Balanced(s) && TraceInv(acts, s) && TraceInv(acts + [a], s) && n !in s.frames && Traced(acts + [a], n, pc)
    ensures Begin(s, n, file, pc).Some? && TraceInv(acts + [a], Begin(s, n, file, pc).value)
  {
    hide Balanced, TraceInv, Traced, SameOps;
    if file in s.attached && s.attached[file] in s.contexts {
      EntryLands(s, n, file, pc);
      hide Begin;
      Joins(acts, a, s, Begin(s, n, file, pc).value, n);
    }
  }

  /** Nothing happens. */
  lemma StandCarries(acts: seq<Action>, a: Action, s: State)
    requires Balanced(s) && TraceInv(acts, s)
    ensures TraceInv(acts + [a], s)
  {
    Bounded(s);
    hide Balanced;
    forall n | n in s.frames ensures Traced(acts + [a], n, s.frames[n].pc) { TracedGrows(acts, a, n, s.frames[n].pc); }
    SameOpsIsFew(acts + [a], s, s);
    OldContexts(acts, a, s, s);
    hide Traced, OpsTraced, BirthTraced;
  }

  lemma CleaningSame(s: State, n: nat, file: nat, passive: bool)
    requires BeginCleanup(s, n, file, passive).Some? && file in s.attached && s.attached[file] in s.contexts
    ensures var t := BeginCleanup(s, n, file, passive).value;
      SameOps(s.contexts, t.contexts) && n !in s.frames && n in t.frames && t.frames == s.frames[n := t.frames[n]]
      && Idle(t.frames[n].pc)
  {}

  lemma CleaningCarries(acts: seq<Action>, a: Action, s: State, n: nat, file: nat, passive: bool)
    requires Balanced(s) && TraceInv(acts, s) && BeginCleanup(s, n, file, passive).Some? && TraceInv(acts + [a], s)
    ensures TraceInv(acts + [a], BeginCleanup(s, n, file, passive).value)
  {
    hide Balanced, TraceInv, SameOps, Idle;
    if file in s.attached && s.attached[file] in s.contexts {
      CleaningSame(s, n, file, passive);
      hide BeginCleanup;
      var t := BeginCleanup(s, n, file, passive).value;
      IdleTraced(acts + [a], n, t.frames[n].pc);
      hide Traced;
      Joins(acts, a, s, t, n);
    }
  }

  /** Contexts may go; those that stay keep their history. */
  lemma Thins(acts: seq<Action>, s: State, t: State)
    requires TraceInv(acts, s) && SameOps(s.contexts, t.contexts) && t.frames == s.frames
    ensures TraceInv(acts, t)
  {
    hide FramesTraced, OpsTraced, BirthTraced;
    forall c | c in t.contexts
      ensures OpsTraced(acts, t.frames, c, t.contexts[c]) && BirthTraced(acts, t.frames, c, t.contexts[c])
    {
      SameTraced(acts, s.frames, c, s.contexts[c], t.contexts[c]);
    }
  }

  lemma DetachSame(s: State, file: nat)
    requires file in s.attached && s.attached[file] in s.contexts
    ensures SameOps(s.contexts, Detach(s, file).contexts) && Detach(s, file).frames == s.frames
  {
    DropLeaves(s.(attached := s.attached - {file}), s.attached[file]);
    hide Drop;
  }

  lemma SameTraced(acts: seq<Action>, frames: map<nat, Frame>, c: nat, x: Context, y: Context)
    requires OpsTraced(acts, frames, c, x) && BirthTraced(acts, frames, c, x) && y.ops == x.ops && y.born == x.born
    ensures OpsTraced(acts, frames, c, y) && BirthTraced(acts, frames, c, y)
  {}

  lemma CreatedFresh(s: State, a: Action)
    requires a.Opened? && a.n !in s.frames && DecideWriteIntent(a.req).writeIntent
    ensures var t := PostCreate(s, a.n, a.file, a.req, a.name, a.poolOk);
      && a.n in t.frames && s.nextCtx in t.contexts
      && t.frames == s.frames[a.n := t.frames[a.n]] && t.frames[a.n].ctx == s.nextCtx && t.frames[a.n].pc.Attach?
      && t.contexts == s.contexts[s.nextCtx := t.contexts[s.nextCtx]]
      && t.contexts[s.nextCtx].ops == [] && t.contexts[s.nextCtx].born == DecideWriteIntent(a.req)
  {
    hide DecideWriteIntent;
  }

  lemma BornTraced(acts: seq<Action>, a: Action, frames: map<nat, Frame>, c: nat, x: Context)
    requires a.Opened? && a.n in frames && frames[a.n].ctx == c && x.ops == []
    requires x.born == DecideWriteIntent(a.req) && x.born.writeIntent
    ensures OpsTraced(acts + [a], frames, c, x) && BirthTraced(acts + [a], frames, c, x)
  {
    hide DecideWriteIntent;
    assert (acts + [a])[|acts|] == a;
    assert MadeBy(acts + [a], frames, c, a.req);
  }

  lemma Adopts(acts: seq<Action>, a: Action, s: State, t: State, n: nat, k: nat)
    requires TraceInv(acts, s) && (forall c :: c in s.contexts ==> c < s.nextCtx) && k == s.nextCtx
    requires n !in s.frames && n in t.frames && t.frames == s.frames[n := t.frames[n]]
    requires Traced(acts + [a], n, t.frames[n].pc)
    requires k in t.contexts && t.contexts == s.contexts[k := t.contexts[k]]
    requires OpsTraced(acts + [a], t.frames, k, t.contexts[k]) && BirthTraced(acts + [a], t.frames, k, t.contexts[k])
    ensures TraceInv(acts + [a], t)
  {
    hide Traced, OpsTraced, BirthTraced, FramesTraced;
    OthersTraced(acts, a, s, t, n);
    assert FewOps(acts + [a], s, t);
    OldContexts(acts, a, s, t);
    hide FewOps, SameContexts;
    AllTraced(acts + [a], t);
  }

  lemma CreateCarries(acts: seq<Action>, a: Action, s: State)
    requires Balanced(s) && TraceInv(acts, s) && a.Opened? && a.n !in s.frames && DecideWriteIntent(a.req).writeIntent
    ensures TraceInv(acts + [a], PostCreate(s, a.n, a.file, a.req, a.name, a.poolOk))
  {
    Bounded(s);
    CreatedFresh(s, a);
    var t := PostCreate(s, a.n, a.file, a.req, a.name, a.poolOk);
    IdleTraced(acts + [a], a.n, t.frames[a.n].pc);
    hide *;
    BornTraced(acts, a, t.frames, s.nextCtx, t.contexts[s.nextCtx]);
    Adopts(acts, a, s, t, a.n, s.nextCtx);
  }

  lemma NextCarries(acts: seq<Action>, s: State, a: Action)
    requires Balanced(s) && TraceInv(acts, s) && Next(s, a).Some?
    ensures TraceInv(acts + [a], Next(s, a).value)
  {
    AliveContexts(s);
    StandCarries(acts, a, s);
    hide Balanced, RefInv, PoolInv, TraceInv, Traced;
    match a
    case Opened(n, file, req, name, poolOk) =>
      if DecideWriteIntent(req).writeIntent { CreateCarries(acts, a, s); hide PostCreate; }
    case Writing(n, file) =>
      FreshTraced(acts, a, n, WritePending);
      EntryCarries(acts, a, s, n, file, WritePending);
    case SettingInfo(n, file, info) =>
      var actions := GetSetInformationActions(info);
      FreshTraced(acts, a, n, AllocSetInfo(actions));
      if actions != NO_ACTIONS { EntryCarries(acts, a, s, n, file, AllocSetInfo(actions)); }
    case Mapping(n, file, writable) =>
      var pc := if writable then Ops([OrModified], false) else Release;
      FreshTraced(acts, a, n, pc);
      EntryCarries(acts, a, s, n, file, pc);
    case Cleaning(n, file, passive) => CleaningCarries(acts, a, s, n, file, passive);
    case Step(n, answer) => AdvanceCarries(acts, s, n, answer);
    case Close(file) =>
      if file in s.attached {
        DetachSame(s, file);
        hide Detach;
        Thins(acts + [a], s, Detach(s, file));
      }
  }

  lemma {:induction false} RunTraced(acts: seq<Action>)
    requires Run(Initial(), acts).Some?
    ensures TraceInv(acts, Run(Initial(), acts).value)
  {
    if acts != [] {
      var front, a := acts[..|acts| - 1], acts[|acts| - 1];
      assert acts == front + [a];
      RunTraced(front);
      RunBalanced(front);
      hide Balanced, TraceInv, Next;
      NextCarries(front, Run(Initial(), front).value, a);
    }
  }

  // ----- the result -----

  /**
   A context belongs to a create that may change, replace or delete the file, and each of its flags
   has its cause: the create itself, or a request of the right kind on that very handle, which succeeded.
   */
  lemma EveryFlagHasACause(acts: seq<Action>, c: nat)
    requires Run(Initial(), acts).Some? && c in Run(Initial(), acts).value.contexts
    ensures var (s, x) := (Run(Initial(), acts).value, Run(Initial(), acts).value.contexts[c]);
      exists r :: MadeBy(acts, s.frames, c, r)
        && (GrantsChange(r.access) || Replaces(r.disposition) || r.deleteOnClose)
        && (x.flags.created <==> Replaces(r.disposition))
        && (x.atCreate <==> r.deleteOnClose)
        && (Replaces(r.disposition) || r.deleteOnClose ==> x.flags.modified)
        && (x.flags.modified ==> Replaces(r.disposition) || r.deleteOnClose || OnBehalf(acts, s.frames, c, OrModified))
        && (x.flags.renamed ==> OnBehalf(acts, s.frames, c, OrRenamed))
        && (x.flags.deleteOnClose ==> r.deleteOnClose || OnBehalf(acts, s.frames, c, OrDelete))
        && (x.observed ==> OnBehalf(acts, s.frames, c, Observe))
  {
    var s := Run(Initial(), acts).value;
    var x := s.contexts[c];
    RunTraced(acts);
    assert Reachable(s);
    ReachableInv(s);
    assert ContextOk(x);
    hide Balanced, Inv, Run, FramesTraced;
    var r :| MadeBy(acts, s.frames, c, r) && x.born == DecideWriteIntent(r) && x.born.writeIntent;
    CreateIntentIsExact(r);
    if x.flags.deleteOnClose && !x.atCreate { SetNeedsOr(x.ops); }
    hide DecideWriteIntent, GrantsChange, MadeBy, OnBehalf;
  }
}
