/**
 How a cleanup ends, from the state it began in and what the kernel answered along the way, over
 every interleaving of the callbacks around it.
 */
module HandleOutcomes {
  import opened Options
  import opened WideText
  import opened HandleModel
  import opened HandleResources
  import opened HandleInvariant
  import opened HandleTheorems
  import opened HandleEffects

  // ----- the cleanup's own steps -----

  predicate InTail(pc: Pc) {
    pc.Release? || pc.ReleaseThenPost? || pc.CleanupPending? || pc.FreeCompletion?
  }

  /** Where a cleanup goes once its work on the context is over. */
  function TailStep(f: Frame, o: Answer): Frame
    requires InTail(f.pc)
  {
    match f.pc
    case Release => f.(pc := Done)
    case ReleaseThenPost(j, b) => f.(pc := CleanupPending(j, b))
    case CleanupPending(j, b) =>
        f.(pc := FreeCompletion(b), outcome := if o.success then CapturedBy(Posted, j) else Drained)
    case FreeCompletion(_) => f.(pc := Done)
  }

  /** A cleanup's next step, read off its own frame and context. */
  function CleanupNext(s: State, n: nat, o: Answer): Frame
    requires n in s.frames && (InTail(s.frames[n].pc) || (InCleanup(s.frames[n].pc) && s.frames[n].ctx in s.contexts))
  {
    var f := s.frames[n];
    if InTail(f.pc) then TailStep(f, o) else CleanupStep(n, f, s.contexts[f.ctx], s.pool, o).frame
  }

  lemma CleanupMoves(s: State, n: nat, o: Answer)
    requires Balanced(s) && Inv(s) && n in s.frames && s.frames[n].cleanup && !s.frames[n].pc.Done?
    ensures InTail(s.frames[n].pc) || (InCleanup(s.frames[n].pc) && s.frames[n].ctx in s.contexts)
    ensures n in Advance(s, n, o).frames && Advance(s, n, o).frames[n] == CleanupNext(s, n, o)
  {
    FactsOf(s, n, 0);
    StoryPc(s.frames[n]);
    AliveContexts(s);
    hide Balanced, Inv, RefInv, PoolInv, Story, CleanupStep, UpdateStep;
    if InCleanup(s.frames[n].pc) {
      InStepAdvance(s, n, o);
    } else {
      TailMoves(s, n, o);
    }
  }

  lemma StoryPc(f: Frame)
    requires Story(f) && f.cleanup
    ensures InTail(f.pc) || InCleanup(f.pc) || f.pc.Done?
  {}

  lemma TailMoves(s: State, n: nat, o: Answer)
    requires n in s.frames && InTail(s.frames[n].pc) && (HoldsRef(s.frames[n]) ==> s.frames[n].ctx in s.contexts)
    ensures n in Advance(s, n, o).frames && Advance(s, n, o).frames[n] == TailStep(s.frames[n], o)
  {
    hide FreeNames, FreeBlock;
  }

  // ----- excuses -----

  predicate IsExcluded(o: Answer) { o.excluded }

  predicate NoMemory(o: Answer) { !o.poolOk }

  predicate IsDrained(o: Answer) { !o.success }

  predicate Nameless(o: Answer) { o.name.None? || o.name.value == [] }

  /** Some answer given to callback n shows p. */
  ghost predicate Answered(acts: seq<Action>, n: nat, p: Answer -> bool) {
    exists i :: 0 <= i < |acts| && acts[i].Step? && acts[i].n == n && p(acts[i].answer)
  }

  /** A cleanup that captures nothing can point to an answer that made it so. */
  ghost predicate Excused(f: Frame, acts: seq<Action>, n: nat) {
    && (f.outcome.Filtered? ==> f.passive && Answered(acts, n, IsExcluded))
    && (f.outcome.OutOfMemory? ==> Answered(acts, n, NoMemory))
    && (f.outcome.Drained? ==> Answered(acts, n, IsDrained))
    && (f.outcome.NoName? ==> Answered(acts, n, Nameless))
  }

  lemma AnsweredGrows(acts: seq<Action>, a: Action, n: nat, p: Answer -> bool)
    ensures Answered(acts, n, p) ==> Answered(acts + [a], n, p)
    ensures a.Step? && a.n == n && p(a.answer) ==> Answered(acts + [a], n, p)
  {
    var longer := acts + [a];
    assert forall i :: 0 <= i < |acts| ==> longer[i] == acts[i];
    assert longer[|acts|] == a;
  }

  lemma ExcusesGrow(f: Frame, acts: seq<Action>, a: Action, n: nat)
    requires Excused(f, acts, n)
    ensures Excused(f, acts + [a], n)
  {
    AnsweredGrows(acts, a, n, IsExcluded);
    AnsweredGrows(acts, a, n, NoMemory);
    AnsweredGrows(acts, a, n, IsDrained);
    AnsweredGrows(acts, a, n, Nameless);
    hide Answered;
  }

  /** What a step does to the outcome, by the answer it got. */
  predicate Explained(f: Frame, g: Frame, o: Answer) {
    && g.passive == f.passive
    && (g.outcome == f.outcome || !g.outcome.Filtered? || (f.passive && IsExcluded(o)))
    && (g.outcome == f.outcome || !g.outcome.OutOfMemory? || NoMemory(o))
    && (g.outcome == f.outcome || !g.outcome.Drained? || IsDrained(o))
    && (g.outcome == f.outcome || !g.outcome.NoName? || Nameless(o))
  }

  lemma CleanupExplained(n: nat, f: Frame, c: Context, p: Pool, o: Answer)
    requires InCleanup(f.pc)
    ensures Explained(f, CleanupStep(n, f, c, p, o).frame, o)
  {}

  lemma NextExplained(s: State, n: nat, o: Answer)
    requires Balanced(s) && Inv(s) && n in s.frames && s.frames[n].cleanup && !s.frames[n].pc.Done?
    ensures n in Advance(s, n, o).frames && Explained(s.frames[n], Advance(s, n, o).frames[n], o)
  {
    CleanupMoves(s, n, o);
    var f := s.frames[n];
    hide Balanced, Inv, Advance, CleanupStep, Explained;
    if InCleanup(f.pc) { CleanupExplained(n, f, s.contexts[f.ctx], s.pool, o); } else { TailExplained(f, o); }
  }

  lemma TailExplained(f: Frame, o: Answer)
    requires InTail(f.pc)
    ensures Explained(f, TailStep(f, o), o)
  {}

  lemma ExcuseStep(f: Frame, g: Frame, acts: seq<Action>, n: nat, o: Answer)
    requires Excused(f, acts, n) && Explained(f, g, o)
    ensures Excused(g, acts + [Step(n, o)], n)
  {
    ExcusesGrow(f, acts, Step(n, o), n);
    AnsweredGrows(acts, Step(n, o), n, IsExcluded);
    AnsweredGrows(acts, Step(n, o), n, NoMemory);
    AnsweredGrows(acts, Step(n, o), n, IsDrained);
    AnsweredGrows(acts, Step(n, o), n, Nameless);
    hide Answered;
  }

  /** A callback stays what it is in every continuation. */
  lemma StaysCleanup(t: State, acts: seq<Action>, n: nat)
    requires Balanced(t) && Inv(t) && n in t.frames && Run(t, acts).Some?
    ensures n in Run(t, acts).value.frames && Lasts(t.frames[n], Run(t, acts).value.frames[n])
  {
    RunGrows(t, acts);
    hide Balanced, Inv, Run, Lasts;
  }

  lemma StayingCleanup(t: State, acts: seq<Action>, n: nat)
    requires Balanced(t) && Inv(t) && n in t.frames && t.frames[n].cleanup && Run(t, acts).Some?
    ensures n in Run(t, acts).value.frames && Run(t, acts).value.frames[n].cleanup
  {
    StaysCleanup(t, acts, n);
    hide Balanced, Inv, Run;
  }

  /** A run by its last action. */
  lemma RunEnds(t: State, acts: seq<Action>)
    requires Run(t, acts).Some?
    ensures if acts == [] then Run(t, acts) == Some(t)
            else var front, a := acts[..|acts| - 1], acts[|acts| - 1];
              acts == front + [a] && Run(t, front).Some? && Next(Run(t, front).value, a) == Run(t, acts)
  {}

  lemma {:induction false} RunExcuses(t: State, acts: seq<Action>, n: nat)
    requires Balanced(t) && Inv(t) && n in t.frames && t.frames[n].cleanup && !Settled(t.frames[n])
    requires Run(t, acts).Some?
    ensures n in Run(t, acts).value.frames && Excused(Run(t, acts).value.frames[n], acts, n)
  {
    hide Balanced, Inv, Excused, Explained;
    if acts == [] {
      assert Excused(t.frames[n], acts, n) by { Unexcused(t.frames[n], n); }
    } else {
      var front, a := acts[..|acts| - 1], acts[|acts| - 1];
      assert acts == front + [a];
      RunExcuses(t, front, n);
      StaysCleanup(t, front, n);
      RunInv(t, front);
      var s := Run(t, front).value;
      if a.Step? && a.n == n {
        NextExplained(s, n, a.answer);
        ExcuseStep(s.frames[n], Advance(s, n, a.answer).frames[n], front, n, a.answer);
      } else {
        OthersStand(s, a, n);
        ExcusesGrow(s.frames[n], front, a, n);
      }
    }
  }

  lemma Unexcused(f: Frame, n: nat)
    requires !Settled(f)
    ensures Excused(f, [], n)
  {}

  // ----- backed up before -----

  lemma NotYetBackedUp(s: State, n: nat)
    requires Balanced(s) && Inv(s) && n in s.frames && s.frames[n].pc.ReadFlags?
    ensures s.frames[n].ctx in s.contexts && s.contexts[s.frames[n].ctx].cleaner == Some(n)
    ensures s.contexts[s.frames[n].ctx].flags.backedUp <==> s.frames[n].ctx in s.synced
    ensures forall m :: m in s.frames && s.frames[m].pc.SyncSend? && s.frames[m].ctx == s.frames[n].ctx ==> m == n
  {
    var k := s.frames[n].ctx;
    OnlyCleaner(s, n);
    assert SyncedContexts(s.synced, s.frames, s.contexts);
    hide Balanced, Inv;
    forall m | m in s.frames && InCleanup(s.frames[m].pc) && s.frames[m].ctx == k ensures m == n {
      OnlyCleaner(s, m);
    }
  }

  lemma OnlyCleaner(s: State, n: nat)
    requires Balanced(s) && Inv(s) && n in s.frames && InCleanup(s.frames[n].pc)
    ensures s.frames[n].ctx in s.contexts && s.contexts[s.frames[n].ctx].cleaner == Some(n)
  {
    ContextBelow(s, n);
    assert FrameOk(n, s.frames[n], s.contexts[s.frames[n].ctx]);
  }

  /** Only the step that sends synchronously enters the record. */
  lemma SyncedBySender(s: State, a: Action, k: nat)
    requires Next(s, a).Some? && k !in s.synced && k in Next(s, a).value.synced
    ensures a.Step? && a.n in s.frames && s.frames[a.n].pc.SyncSend? && s.frames[a.n].ctx == k
  {
    hide StepOf, DecideWriteIntent, GetSetInformationActions, FreeNames, FreeBlock;
  }

  /** While a cleanup is about to read the flags nobody else sets BACKED_UP. */
  lemma BackedUpStands(s: State, a: Action, n: nat)
    requires Balanced(s) && Inv(s) && n in s.frames && s.frames[n].pc.ReadFlags? && Next(s, a).Some?
    requires a.Step? ==> a.n != n
    ensures var t, k := Next(s, a).value, s.frames[n].ctx;
      k in s.contexts && k in t.contexts && t.contexts[k].flags.backedUp == s.contexts[k].flags.backedUp
  {
    var t, k := Next(s, a).value, s.frames[n].ctx;
    OthersStand(s, a, n);
    NextKeeps(s, a);
    NextKeepsInv(s, a);
    NotYetBackedUp(s, n);
    NotYetBackedUp(t, n);
    NextGrows(s, a);
    ContextBelow(s, n);
    hide Balanced, Inv, Next;
    if k !in s.synced && k in t.synced { SyncedBySender(s, a, k); }
    assert Moves(s.contexts[k], t.contexts[k]);
  }

  /** The cleanup has yet to read BACKED_UP as b, or has done so. */
  ghost predicate Reads(s: State, n: nat, b: bool) {
    && n in s.frames
    && if s.frames[n].pc.ReadFlags?
       then s.frames[n].ctx in s.contexts && s.contexts[s.frames[n].ctx].flags.backedUp == b
       else s.frames[n].outcome.AlreadyBackedUp? <==> b
  }

  lemma CleanupReads(n: nat, f: Frame, c: Context, p: Pool, o: Answer)
    requires InCleanup(f.pc) && Story(f) && f.cleanup
    ensures var g := CleanupStep(n, f, c, p, o).frame;
      && !g.pc.ReadFlags?
      && (g.outcome.AlreadyBackedUp? <==> if f.pc.ReadFlags? then c.flags.backedUp else f.outcome.AlreadyBackedUp?)
  {
    hide OutcomeOk, JobOk;
  }

  lemma TailReads(f: Frame, o: Answer)
    requires InTail(f.pc) && Story(f) && f.cleanup
    ensures !TailStep(f, o).pc.ReadFlags? && (TailStep(f, o).outcome.AlreadyBackedUp? <==> f.outcome.AlreadyBackedUp?)
  {}

  lemma OwnReads(s: State, n: nat, o: Answer, b: bool)
    requires Balanced(s) && Inv(s) && Reads(s, n, b) && s.frames[n].cleanup && !s.frames[n].pc.Done?
    ensures Reads(Advance(s, n, o), n, b)
  {
    CleanupMoves(s, n, o);
    FactsOf(s, n, 0);
    var f := s.frames[n];
    hide Balanced, Inv, Advance, CleanupStep, Story;
    if InCleanup(f.pc) { CleanupReads(n, f, s.contexts[f.ctx], s.pool, o); } else { TailReads(f, o); }
  }

  lemma {:induction false} RunReads(t: State, acts: seq<Action>, n: nat, b: bool)
    requires Balanced(t) && Inv(t) && Reads(t, n, b) && t.frames[n].cleanup && Run(t, acts).Some?
    ensures Reads(Run(t, acts).value, n, b)
  {
    hide Balanced, Inv;
    if acts != [] {
      var front, a := acts[..|acts| - 1], acts[|acts| - 1];
      RunReads(t, front, n, b);
      StaysCleanup(t, front, n);
      RunInv(t, front);
      var s := Run(t, front).value;
      if a.Step? && a.n == n {
        OwnReads(s, n, a.answer, b);
      } else {
        OthersStand(s, a, n);
        if s.frames[n].pc.ReadFlags? { BackedUpStands(s, a, n); }
      }
    }
  }

  // ----- the course of a cleanup -----

  /** The file says that it is not about to be deleted. */
  predicate Withdraws(o: Answer) {
    o.topLevelFree && o.standard.Some? && !o.standard.value.deletePending
  }

  /** What a cleanup decides on: the bits it read, and the observation and the answer at its reconciliation. */
  datatype Decision = Decision(snap: Bits, observed: bool, answer: Answer)

  /** The file could be asked: PASSIVE_LEVEL, no top-level IRP, and the query succeeded. */
  predicate FileSpeaks(passive: bool, o: Answer) { passive && o.topLevelFree && o.standard.Some? }

  /** The delete state: the file's word, once a disposition request was observed; otherwise the bit. */
  function Deletes(d: Decision, passive: bool): bool {
    if FileSpeaks(passive, d.answer) && d.observed then d.answer.standard.value.deletePending else d.snap.deleteOnClose
  }

  function SizeHint(d: Decision, passive: bool): int {
    if FileSpeaks(passive, d.answer) then d.answer.standard.value.size else 0
  }

  predicate AsDecided(j: Job, d: Decision, passive: bool) {
    j.snap == d.snap.(deleteOnClose := Deletes(d, passive)) && j.hint == SizeHint(d, passive)
  }

  /** An attempt of that kind, under the decided flags and size. */
  predicate CapturedAs(f: Frame, how: How, d: Decision) {
    && f.outcome.Captured? && f.outcome.what.how == how && f.outcome.what.hint == SizeHint(d, f.passive)
    && f.outcome.what.flags == d.snap.(deleteOnClose := Deletes(d, f.passive))
  }

  predicate SentPosted(f: Frame) { f.outcome.Captured? && f.outcome.what.how.Posted? }

  predicate SentElevated(f: Frame) { f.outcome.Captured? && f.outcome.what.how.Elevated? }

  datatype Way = Exclude | Drop | SendNow | SendElevated | PostLater

  function WayOf(d: Decision, passive: bool): Way {
    if passive && d.answer.excluded then Exclude
    else if Deletes(d, passive) then (if passive then SendNow else SendElevated)
    else if d.snap.modified then PostLater
    else Drop
  }

  /** About to read the flags, or having found the handle backed up. */
  predicate Unread(f: Frame) {
    (f.pc.ReadFlags? && !Settled(f)) || ((f.pc.Release? || f.pc.Done?) && f.outcome.AlreadyBackedUp?)
  }

  /**
   With the bits in hand, before the reconciliation; or over without one: untouched, which takes a
   handle without either bit, and not observed before; or without a name.
   */
  predicate Undecided(f: Frame, snap: Bits, observed: bool) {
    match f.pc
    case Gate(x) => !Settled(f) && x == snap
    case CopyName(x) => !Settled(f) && x == snap
    case LiveQuery(x) => !Settled(f) && x == snap
    case Reconcile(j) => !Settled(f) && j.snap == snap && j.hint == 0
    case Release => EndsEarly(f, snap, observed)
    case Done => EndsEarly(f, snap, observed)
    case _ => false
  }

  predicate EndsEarly(f: Frame, snap: Bits, observed: bool) {
    f.outcome.NoName? || (f.outcome.Untouched? && !snap.modified && !snap.deleteOnClose && !observed)
  }

  predicate ToBePosted(f: Frame, d: Decision) {
    match f.pc
    case AllocCleanup(j) => !Settled(f) && AsDecided(j, d, f.passive)
    case FreeCopy(j, completion) =>
      if completion.Some? then !Settled(f) && AsDecided(j, d, f.passive) else f.outcome.OutOfMemory?
    case ReleaseThenPost(j, _) => !Settled(f) && AsDecided(j, d, f.passive)
    case CleanupPending(j, _) => !Settled(f) && AsDecided(j, d, f.passive)
    case _ => false
  }

  /** A decided cleanup stays on its course to the end. */
  predicate OnCourse(f: Frame, d: Decision) {
    match WayOf(d, f.passive)
    case Exclude => f.outcome.Filtered?
    case Drop => f.outcome.NothingLeft?
    case SendNow => (f.pc.SyncSend? && !Settled(f) && AsDecided(f.pc.job, d, f.passive)) || CapturedAs(f, Sync, d)
    case SendElevated =>
      (f.pc.ElevatedEnqueue? && !Settled(f) && AsDecided(f.pc.job, d, f.passive)) || CapturedAs(f, Elevated, d)
    case PostLater =>
      || ToBePosted(f, d)
      || ((InTail(f.pc) || f.pc.Done?) && (CapturedAs(f, Posted, d) || f.outcome.OutOfMemory? || f.outcome.Drained?))
  }

  lemma ReadStep(n: nat, f: Frame, c: Context, p: Pool, o: Answer, observed: bool)
    requires f.pc.ReadFlags? && Unread(f)
    ensures var g := CleanupStep(n, f, c, p, o).frame; Unread(g) || Undecided(g, c.flags, observed)
  {}

  lemma UndecidedStep(n: nat, f: Frame, c: Context, p: Pool, o: Answer, snap: Bits, observed: bool)
    requires InCleanup(f.pc) && Undecided(f, snap, observed) && !f.pc.Reconcile? && (observed ==> c.observed)
    ensures Undecided(CleanupStep(n, f, c, p, o).frame, snap, observed)
  {}

  lemma DecideStep(n: nat, f: Frame, c: Context, p: Pool, o: Answer, snap: Bits, observed: bool)
    requires f.pc.Reconcile? && Undecided(f, snap, observed)
    ensures OnCourse(CleanupStep(n, f, c, p, o).frame, Decision(snap, c.observed, o))
  {}

  lemma CourseStep(n: nat, f: Frame, c: Context, p: Pool, o: Answer, d: Decision)
    requires InCleanup(f.pc) && OnCourse(f, d) && f.cleanup && Story(f)
    ensures OnCourse(CleanupStep(n, f, c, p, o).frame, d)
  {
    hide OutcomeOk, FinalName, Deletes, SizeHint, WayOf;
  }

  lemma TailCourse(f: Frame, o: Answer, d: Decision)
    requires InTail(f.pc) && f.cleanup && Story(f) && OnCourse(f, d)
    ensures OnCourse(TailStep(f, o), d)
  {
    hide OutcomeOk, FinalName, Deletes, SizeHint, WayOf;
  }

  lemma TailUndecided(f: Frame, o: Answer, snap: Bits, observed: bool)
    requires InTail(f.pc)
    ensures Undecided(f, snap, observed) ==> Undecided(TailStep(f, o), snap, observed)
    ensures Unread(f) ==> Unread(TailStep(f, o))
  {}

  /** Callback n read those bits. */
  ghost predicate ReadBits(t: State, acts: seq<Action>, n: nat, snap: Bits) {
    exists i, o, v :: 0 <= i < |acts| && acts[i] == Step(n, o) && Run(t, acts[..i]) == Some(v) && n in v.frames
      && v.frames[n].pc.ReadFlags? && v.frames[n].ctx in v.contexts && v.contexts[v.frames[n].ctx].flags == snap
  }

  lemma ReadBitsGrows(t: State, acts: seq<Action>, a: Action, n: nat, snap: Bits)
    requires ReadBits(t, acts, n, snap)
    ensures ReadBits(t, acts + [a], n, snap)
  {
    var i, o, v :| 0 <= i < |acts| && acts[i] == Step(n, o) && Run(t, acts[..i]) == Some(v) && n in v.frames
      && v.frames[n].pc.ReadFlags? && v.frames[n].ctx in v.contexts && v.contexts[v.frames[n].ctx].flags == snap;
    assert (acts + [a])[..i] == acts[..i] && (acts + [a])[i] == acts[i];
    hide Run;
  }

  lemma ReadBitsNow(t: State, acts: seq<Action>, n: nat, o: Answer, v: State)
    requires Run(t, acts) == Some(v) && n in v.frames && v.frames[n].pc.ReadFlags? && v.frames[n].ctx in v.contexts
    ensures ReadBits(t, acts + [Step(n, o)], n, v.contexts[v.frames[n].ctx].flags)
  {
    assert (acts + [Step(n, o)])[..|acts|] == acts && (acts + [Step(n, o)])[|acts|] == Step(n, o);
    hide Run;
  }

  /** The state in which the cleanup of context k reconciled, and the answer it got there. */
  ghost predicate Reconciles(t: State, acts: seq<Action>, n: nat, k: nat, i: nat, o: Answer, v: State) {
    && i < |acts| && acts[i] == Step(n, o) && Run(t, acts[..i]) == Some(v)
    && n in v.frames && v.frames[n].pc.Reconcile? && v.frames[n].ctx == k && k in v.contexts
  }

  lemma ReconcilesGrows(t: State, acts: seq<Action>, a: Action, n: nat, k: nat, i: nat, o: Answer, v: State)
    requires Reconciles(t, acts, n, k, i, o, v)
    ensures Reconciles(t, acts + [a], n, k, i, o, v)
  {
    assert (acts + [a])[..i] == acts[..i] && (acts + [a])[i] == acts[i];
    hide Run;
  }

  lemma ReconcilesNow(t: State, acts: seq<Action>, n: nat, o: Answer, v: State)
    requires Run(t, acts) == Some(v) && n in v.frames && v.frames[n].pc.Reconcile? && v.frames[n].ctx in v.contexts
    ensures Reconciles(t, acts + [Step(n, o)], n, v.frames[n].ctx, |acts|, o, v)
  {
    assert (acts + [Step(n, o)])[..|acts|] == acts && (acts + [Step(n, o)])[|acts|] == Step(n, o);
    hide Run;
  }

  /** The cleanup of context k has reconciled, and f has kept the course it was sent on. */
  ghost predicate Decided(t: State, acts: seq<Action>, n: nat, k: nat, snap: Bits, f: Frame) {
    exists i, o, v :: Reconciles(t, acts, n, k, i, o, v) && OnCourse(f, Decision(snap, v.contexts[k].observed, o))
  }

  ghost predicate OnTrack(t: State, acts: seq<Action>, n: nat, k: nat, observed: bool, f: Frame) {
    || Unread(f)
    || exists snap :: ReadBits(t, acts, n, snap) && (Undecided(f, snap, observed) || Decided(t, acts, n, k, snap, f))
  }

  lemma StillDecided(t: State, acts: seq<Action>, a: Action, n: nat, k: nat, snap: Bits, f: Frame, g: Frame)
    requires Decided(t, acts, n, k, snap, f) && (forall d :: OnCourse(f, d) ==> OnCourse(g, d))
    ensures Decided(t, acts + [a], n, k, snap, g)
  {
    hide OnCourse, Run;
    var i, o, v :| Reconciles(t, acts, n, k, i, o, v) && OnCourse(f, Decision(snap, v.contexts[k].observed, o));
    ReconcilesGrows(t, acts, a, n, k, i, o, v);
  }

  lemma StaysOnTrack(t: State, acts: seq<Action>, a: Action, n: nat, k: nat, observed: bool, f: Frame)
    requires OnTrack(t, acts, n, k, observed, f)
    ensures OnTrack(t, acts + [a], n, k, observed, f)
  {
    hide Unread, Undecided, ReadBits, OnCourse, Decided;
    if !Unread(f) {
      var snap :| ReadBits(t, acts, n, snap) && (Undecided(f, snap, observed) || Decided(t, acts, n, k, snap, f));
      ReadBitsGrows(t, acts, a, n, snap);
      if Decided(t, acts, n, k, snap, f) { StillDecided(t, acts, a, n, k, snap, f, f); }
    }
  }

  /** What the track needs of the cleanup and its context. */
  ghost predicate Followed(s: State, n: nat, k: nat, observed: bool) {
    && n in s.frames && s.frames[n].cleanup && s.frames[n].ctx == k && k < s.nextCtx
    && (k in s.contexts && observed ==> s.contexts[k].observed)
  }

  lemma StaysFollowed(s: State, t: State, n: nat, k: nat, observed: bool)
    requires Followed(s, n, k, observed) && Grown(s, t)
    ensures Followed(t, n, k, observed)
  {
    assert Lasts(s.frames[n], t.frames[n]);
    assert k in t.contexts ==> Moves(s.contexts[k], t.contexts[k]);
  }

  /** One step of a cleanup whose frame is f, in its tail. */
  lemma TailTrack(t: State, acts: seq<Action>, n: nat, k: nat, observed: bool, f: Frame, o: Answer)
    requires OnTrack(t, acts, n, k, observed, f) && InTail(f.pc) && f.cleanup && Story(f)
    ensures OnTrack(t, acts + [Step(n, o)], n, k, observed, TailStep(f, o))
  {
    hide Unread, Undecided, ReadBits, OnCourse, Decided, Story, TailStep;
    var a, g := Step(n, o), TailStep(f, o);
    if Unread(f) {
      TailUndecided(f, o, Bits(false, false, false, false, false, false), observed);
    } else {
      var snap :| ReadBits(t, acts, n, snap) && (Undecided(f, snap, observed) || Decided(t, acts, n, k, snap, f));
      ReadBitsGrows(t, acts, a, n, snap);
      TailUndecided(f, o, snap, observed);
      if Decided(t, acts, n, k, snap, f) {
        forall d | OnCourse(f, d) ensures OnCourse(g, d) { TailCourse(f, o, d); }
        StillDecided(t, acts, a, n, k, snap, f, g);
      }
    }
  }

  lemma UnreadReads(f: Frame)
    requires Unread(f) && InCleanup(f.pc)
    ensures f.pc.ReadFlags?
  {}

  lemma UndecidedIsEarly(f: Frame, snap: Bits, observed: bool)
    requires Undecided(f, snap, observed)
    ensures !f.pc.ReadFlags?
  {}

  /** One step of a cleanup in state v whose frame is f, in its body. */
  lemma BodyTrack(t: State, acts: seq<Action>, n: nat, k: nat, observed: bool, v: State, o: Answer)
    requires Run(t, acts) == Some(v) && Followed(v, n, k, observed) && k in v.contexts
    requires OnTrack(t, acts, n, k, observed, v.frames[n]) && InCleanup(v.frames[n].pc) && Story(v.frames[n])
    ensures OnTrack(t, acts + [Step(n, o)], n, k, observed, CleanupStep(n, v.frames[n], v.contexts[k], v.pool, o).frame)
  {
    var f, c, a := v.frames[n], v.contexts[k], Step(n, o);
    var g := CleanupStep(n, f, c, v.pool, o).frame;
    hide Unread, Undecided, ReadBits, OnCourse, Decided, Story, CleanupStep, Run, Reconciles;
    if Unread(f) {
      UnreadReads(f);
      ReadStep(n, f, c, v.pool, o, observed);
      ReadBitsNow(t, acts, n, o, v);
    } else {
      var snap :| ReadBits(t, acts, n, snap) && (Undecided(f, snap, observed) || Decided(t, acts, n, k, snap, f));
      ReadBitsGrows(t, acts, a, n, snap);
      if Decided(t, acts, n, k, snap, f) {
        forall d | OnCourse(f, d) ensures OnCourse(g, d) { CourseStep(n, f, c, v.pool, o, d); }
        StillDecided(t, acts, a, n, k, snap, f, g);
      } else if f.pc.Reconcile? {
        DecideStep(n, f, c, v.pool, o, snap, observed);
        ReconcilesNow(t, acts, n, o, v);
        assert Decided(t, acts + [a], n, k, snap, g) by { NowDecided(t, acts + [a], n, k, |acts|, o, v, snap, g); }
      } else {
        UndecidedStep(n, f, c, v.pool, o, snap, observed);
      }
    }
  }

  lemma NowDecided(t: State, acts: seq<Action>, n: nat, k: nat, i: nat, o: Answer, v: State, snap: Bits, g: Frame)
    requires Reconciles(t, acts, n, k, i, o, v) && OnCourse(g, Decision(snap, v.contexts[k].observed, o))
    ensures Decided(t, acts, n, k, snap, g)
  {
    hide OnCourse, Reconciles;
  }

  lemma OwnTrack(t: State, acts: seq<Action>, n: nat, k: nat, observed: bool, s: State, o: Answer)
    requires Run(t, acts) == Some(s) && Balanced(s) && Inv(s) && Followed(s, n, k, observed)
    requires !s.frames[n].pc.Done? && OnTrack(t, acts, n, k, observed, s.frames[n])
    ensures var u := Advance(s, n, o); n in u.frames && OnTrack(t, acts + [Step(n, o)], n, k, observed, u.frames[n])
  {
    CleanupMoves(s, n, o);
    FactsOf(s, n, 0);
    hide Balanced, Inv, Advance, Run, Story, OnTrack, CleanupStep, TailStep;
    if InTail(s.frames[n].pc) {
      TailTrack(t, acts, n, k, observed, s.frames[n], o);
    } else {
      BodyTrack(t, acts, n, k, observed, s, o);
    }
  }

  lemma NextTrack(t: State, acts: seq<Action>, a: Action, n: nat, k: nat, observed: bool, s: State)
    requires Run(t, acts) == Some(s) && Balanced(s) && Inv(s) && Followed(s, n, k, observed)
    requires OnTrack(t, acts, n, k, observed, s.frames[n]) && Next(s, a).Some?
    ensures var u := Next(s, a).value; n in u.frames && OnTrack(t, acts + [a], n, k, observed, u.frames[n])
  {
    hide Balanced, Inv, OnTrack, Run;
    if a.Step? && a.n == n {
      OwnTrack(t, acts, n, k, observed, s, a.answer);
    } else {
      OthersStand(s, a, n);
      StaysOnTrack(t, acts, a, n, k, observed, s.frames[n]);
    }
  }

  lemma {:induction false} RunTrack(t: State, acts: seq<Action>, n: nat, k: nat, observed: bool)
    requires Balanced(t) && Inv(t) && Followed(t, n, k, observed) && Unread(t.frames[n]) && Run(t, acts).Some?
    ensures n in Run(t, acts).value.frames && OnTrack(t, acts, n, k, observed, Run(t, acts).value.frames[n])
  {
    RunEnds(t, acts);
    assert OnTrack(t, [], n, k, observed, t.frames[n]);
    assert n in t.frames;
    hide *;
    if acts != [] {
      var front, a := acts[..|acts| - 1], acts[|acts| - 1];
      RunTrack(t, front, n, k, observed);
      RunGrows(t, front);
      RunInv(t, front);
      StaysFollowed(t, Run(t, front).value, n, k, observed);
      NextTrack(t, front, a, n, k, observed, Run(t, front).value);
    }
  }

  // ----- the name -----

  /** The state in which the cleanup asked for the live name, and the answer it got. */
  ghost predicate Asks(t: State, acts: seq<Action>, n: nat, i: nat, o: Answer, v: State) {
    && i < |acts| && acts[i] == Step(n, o) && Run(t, acts[..i]) == Some(v)
    && n in v.frames && v.frames[n].pc.LiveQuery? && v.frames[n].ctx in v.contexts
  }

  lemma AsksGrows(t: State, acts: seq<Action>, a: Action, n: nat, i: nat, o: Answer, v: State)
    requires Asks(t, acts, n, i, o, v)
    ensures Asks(t, acts + [a], n, i, o, v)
  {
    assert (acts + [a])[..i] == acts[..i] && (acts + [a])[i] == acts[i];
    hide Run;
  }

  lemma AsksNow(t: State, acts: seq<Action>, n: nat, o: Answer, v: State)
    requires Run(t, acts) == Some(v) && n in v.frames && v.frames[n].pc.LiveQuery? && v.frames[n].ctx in v.contexts
    ensures Asks(t, acts + [Step(n, o)], n, |acts|, o, v)
  {
    assert (acts + [Step(n, o)])[..|acts|] == acts && (acts + [Step(n, o)])[|acts|] == Step(n, o);
    hide Run;
  }

  /** The copy of a captured name will be reported. */
  predicate UsesCopy(w: Seen) {
    w.copied && w.renames != [] && w.renames[|w.renames| - 1] != []
  }

  /** Without a copy, f saw what the answer and the handle say. */
  predicate SeesAs(f: Frame, o: Answer, c: Context) {
    && !f.seen.copied
    && f.seen.live == (if o.name.Some? then o.name.value else [])
    && f.seen.original == (if c.original.Some? then c.original.value.text else [])
  }

  ghost predicate SawAnswer(t: State, acts: seq<Action>, n: nat, f: Frame) {
    exists i, o, v :: Asks(t, acts, n, i, o, v) && SeesAs(f, o, v.contexts[v.frames[n].ctx])
  }

  /** The cleanup has yet to ask, does not need to, or has seen the answer. */
  ghost predicate OnName(t: State, acts: seq<Action>, n: nat, f: Frame) {
    || f.pc.ReadFlags? || f.pc.Gate? || f.pc.CopyName? || f.pc.LiveQuery?
    || UsesCopy(f.seen) || f.outcome.AlreadyBackedUp? || f.outcome.Untouched?
    || SawAnswer(t, acts, n, f)
  }

  /** A step that leaves these alone keeps the name where it was. */
  predicate KeepsName(f: Frame, g: Frame) {
    && (f.pc.ReadFlags? || f.pc.Gate? || f.pc.CopyName? ==>
          g.pc.Gate? || g.pc.CopyName? || g.pc.LiveQuery? || UsesCopy(g.seen)
          || g.outcome.AlreadyBackedUp? || g.outcome.Untouched?)
    && (!f.pc.CopyName? && !f.pc.LiveQuery? ==> g.seen == f.seen)
    && (f.outcome.AlreadyBackedUp? || f.outcome.Untouched? ==> g.outcome == f.outcome)
  }

  lemma CleanupNames(n: nat, f: Frame, c: Context, p: Pool, o: Answer)
    requires InCleanup(f.pc) && Story(f) && f.cleanup && ContextOk(c)
    ensures var g := CleanupStep(n, f, c, p, o).frame;
      KeepsName(f, g) && (f.pc.LiveQuery? ==> SeesAs(g, o, c))
  {
    hide OutcomeOk, JobOk;
  }

  lemma TailNames(f: Frame, o: Answer)
    requires InTail(f.pc) && Story(f) && f.cleanup
    ensures KeepsName(f, TailStep(f, o))
  {
    hide JobOk;
  }

  lemma NameStays(t: State, acts: seq<Action>, a: Action, n: nat, f: Frame, g: Frame)
    requires OnName(t, acts, n, f) && KeepsName(f, g) && (f.pc.LiveQuery? ==> SawAnswer(t, acts + [a], n, g))
    ensures OnName(t, acts + [a], n, g)
  {
    hide Asks;
    if !f.pc.LiveQuery? && SawAnswer(t, acts, n, f) && g.seen == f.seen {
      AnswerStays(t, acts, a, n, f, g);
    }
  }

  lemma AnswerStays(t: State, acts: seq<Action>, a: Action, n: nat, f: Frame, g: Frame)
    requires SawAnswer(t, acts, n, f) && g.seen == f.seen
    ensures SawAnswer(t, acts + [a], n, g)
  {
    hide Run;
    var i, o, v :| Asks(t, acts, n, i, o, v) && SeesAs(f, o, v.contexts[v.frames[n].ctx]);
    AsksGrows(t, acts, a, n, i, o, v);
    assert SeesAs(g, o, v.contexts[v.frames[n].ctx]);
  }

  lemma OwnName(t: State, acts: seq<Action>, n: nat, s: State, o: Answer)
    requires Run(t, acts) == Some(s) && Balanced(s) && Inv(s) && n in s.frames && s.frames[n].cleanup
    requires !s.frames[n].pc.Done? && OnName(t, acts, n, s.frames[n])
    ensures var u := Advance(s, n, o); n in u.frames && OnName(t, acts + [Step(n, o)], n, u.frames[n])
  {
    CleanupMoves(s, n, o);
    FactsOf(s, n, 0);
    var f := s.frames[n];
    hide Balanced, Inv, Advance, Run, Story, OnName, SawAnswer, Asks, SeesAs, KeepsName, CleanupStep, TailStep;
    if InTail(f.pc) {
      TailNames(f, o);
    } else {
      CleanupNames(n, f, s.contexts[f.ctx], s.pool, o);
      if f.pc.LiveQuery? { AnswerSeen(t, acts, n, s, o, CleanupStep(n, f, s.contexts[f.ctx], s.pool, o).frame); }
    }
    NameStays(t, acts, Step(n, o), n, f, CleanupNext(s, n, o));
  }

  lemma AnswerSeen(t: State, acts: seq<Action>, n: nat, s: State, o: Answer, g: Frame)
    requires Run(t, acts) == Some(s) && n in s.frames && s.frames[n].pc.LiveQuery? && s.frames[n].ctx in s.contexts
    requires SeesAs(g, o, s.contexts[s.frames[n].ctx])
    ensures SawAnswer(t, acts + [Step(n, o)], n, g)
  {
    AsksNow(t, acts, n, o, s);
  }

  lemma {:induction false} RunName(t: State, acts: seq<Action>, n: nat)
    requires Balanced(t) && Inv(t) && n in t.frames && t.frames[n].cleanup && t.frames[n].pc.ReadFlags?
    requires Run(t, acts).Some?
    ensures n in Run(t, acts).value.frames && OnName(t, acts, n, Run(t, acts).value.frames[n])
  {
    RunEnds(t, acts);
    assert OnName(t, [], n, t.frames[n]);
    hide *;
    if acts != [] {
      var front, a := acts[..|acts| - 1], acts[|acts| - 1];
      RunName(t, front, n);
      StayingCleanup(t, front, n);
      RunInv(t, front);
      NextName(t, front, a, n, Run(t, front).value);
    }
  }

  lemma NextName(t: State, acts: seq<Action>, a: Action, n: nat, s: State)
    requires Run(t, acts) == Some(s) && Balanced(s) && Inv(s) && n in s.frames && s.frames[n].cleanup
    requires OnName(t, acts, n, s.frames[n]) && Next(s, a).Some?
    ensures n in Next(s, a).value.frames && OnName(t, acts + [a], n, Next(s, a).value.frames[n])
  {
    hide Balanced, Inv, OnName, Run;
    if a.Step? && a.n == n {
      OwnName(t, acts, n, s, a.answer);
    } else {
      OthersStand(s, a, n);
      OthersName(t, acts, a, n, s.frames[n]);
    }
  }

  lemma OthersName(t: State, acts: seq<Action>, a: Action, n: nat, f: Frame)
    requires OnName(t, acts, n, f)
    ensures OnName(t, acts + [a], n, f)
  {
    hide Asks;
    if SawAnswer(t, acts, n, f) { AnswerStays(t, acts, a, n, f, f); }
  }

  // ----- results -----

  /** A cleanup of a file's handle that begins in s and has ended after acts. */
  ghost predicate Cleaned(s: State, n: nat, file: nat, passive: bool, acts: seq<Action>) {
    && Reachable(s) && n !in s.frames && file in s.attached && s.attached[file] in s.contexts
    && BeginCleanup(s, n, file, passive).Some?
    && Run(BeginCleanup(s, n, file, passive).value, acts).Some?
    && n in Ended(s, n, file, passive, acts).frames && Ended(s, n, file, passive, acts).frames[n].pc.Done?
  }

  function Ended(s: State, n: nat, file: nat, passive: bool, acts: seq<Action>): State
    requires BeginCleanup(s, n, file, passive).Some? && Run(BeginCleanup(s, n, file, passive).value, acts).Some?
  {
    Run(BeginCleanup(s, n, file, passive).value, acts).value
  }

  function HandleOf(s: State, file: nat): Context
    requires file in s.attached && s.attached[file] in s.contexts
  {
    s.contexts[s.attached[file]]
  }

  /** Memory, a name, no exclusion, no draining. */
  predicate Grants(o: Answer) {
    !NoMemory(o) && !Nameless(o) && !IsExcluded(o) && !IsDrained(o)
  }

  ghost predicate AllAnswers(acts: seq<Action>, n: nat, p: Answer -> bool) {
    forall i :: 0 <= i < |acts| && acts[i].Step? && acts[i].n == n ==> p(acts[i].answer)
  }

  lemma GrantedHasNoExcuse(f: Frame, acts: seq<Action>, n: nat)
    requires Excused(f, acts, n) && AllAnswers(acts, n, Grants)
    ensures !f.outcome.Filtered? && !f.outcome.OutOfMemory? && !f.outcome.Drained? && !f.outcome.NoName?
  {}

  /** What holds when the cleanup has just begun. */
  lemma Begun(s: State, n: nat, file: nat, passive: bool)
    requires Reachable(s) && n !in s.frames && file in s.attached && s.attached[file] in s.contexts
    requires BeginCleanup(s, n, file, passive).Some?
    ensures var t := BeginCleanup(s, n, file, passive).value;
      && Balanced(t) && Inv(t) && n in t.frames && t.frames[n].cleanup && t.frames[n].passive == passive
      && t.attached == s.attached && s.attached[file] in t.contexts
      && t.frames[n].pc.ReadFlags? && !Settled(t.frames[n]) && t.frames[n].ctx == s.attached[file]
      && t.frames[n].seen.modified == HandleOf(s, file).flags.modified
      && Reads(t, n, HandleOf(s, file).flags.backedUp)
      && Followed(t, n, s.attached[file], HandleOf(s, file).observed)
      && HandleOf(t, file) == HandleOf(s, file).(refs := HandleOf(t, file).refs, cleaner := Some(n))
  {
    CleanupBegins(s, n, file, passive);
    CleaningLands(s, n, file, passive);
    ContextBelow(BeginCleanup(s, n, file, passive).value, n);
    hide Balanced, Inv;
  }

  /**
   A cleanup of a modified handle makes exactly one capture attempt, unless the handle was captured
   synchronously before, or an answer of the kernel is to blame: no name, an exclusion, no memory
   or draining.  With none of these it is captured, whatever interleaves.
   */
  lemma ModifiedHandleIsCaptured(s: State, n: nat, file: nat, passive: bool, acts: seq<Action>)
    requires Cleaned(s, n, file, passive, acts) && HandleOf(s, file).flags.modified
    ensures var u := Ended(s, n, file, passive, acts); var f := u.frames[n];
      && (f.outcome.Captured? || f.outcome.AlreadyBackedUp? || f.outcome.NoName? || f.outcome.Filtered?
          || f.outcome.OutOfMemory? || f.outcome.Drained?)
      && u.attempts[n] == (if f.outcome.Captured? then 1 else 0)
      && (f.outcome.Captured? ==> f.outcome.what.flags.modified)
      && (f.outcome.NoName? ==> FinalName(f.seen) == [])
      && (f.outcome.AlreadyBackedUp? <==> HandleOf(s, file).flags.backedUp)
      && Excused(f, acts, n)
      && (AllAnswers(acts, n, Grants) && !HandleOf(s, file).flags.backedUp ==> f.outcome.Captured?)
  {
    Begun(s, n, file, passive);
    var t := BeginCleanup(s, n, file, passive).value;
    hide BeginCleanup, Balanced, Inv, Reachable, Followed;
    StaysCleanup(t, acts, n);
    RunExcuses(t, acts, n);
    RunReads(t, acts, n, HandleOf(s, file).flags.backedUp);
    RunInv(t, acts);
    CleanupEnds(Run(t, acts).value, n);
    hide Excused, Run;
    if AllAnswers(acts, n, Grants) { GrantedHasNoExcuse(Run(t, acts).value.frames[n], acts, n); }
  }

  /** The end of a cleanup that was decided so. */
  predicate EndsAs(f: Frame, d: Decision) {
    && (f.outcome.Filtered? <==> f.passive && d.answer.excluded)
    && (!f.outcome.Filtered? ==>
          && (f.outcome.NothingLeft? <==> !d.snap.modified && !Deletes(d, f.passive))
          && (SentSync(f) <==> Deletes(d, f.passive) && f.passive)
          && (SentElevated(f) <==> Deletes(d, f.passive) && !f.passive)
          && (SentPosted(f) || f.outcome.OutOfMemory? || f.outcome.Drained? <==>
                d.snap.modified && !Deletes(d, f.passive)))
    && (f.outcome.Captured? ==>
          && f.outcome.what.flags == d.snap.(deleteOnClose := Deletes(d, f.passive))
          && f.outcome.what.hint == SizeHint(d, f.passive))
  }

  lemma CourseEnds(f: Frame, d: Decision)
    requires f.pc.Done? && OnCourse(f, d)
    ensures EndsAs(f, d)
  {
    hide Deletes, SizeHint;
  }

  /** A finished cleanup of context k that reconciled: the moment of its decision, and an end to match. */
  ghost predicate EndsAsReconciled(t: State, acts: seq<Action>, n: nat, k: nat, snap: Bits, f: Frame) {
    exists i, o, v :: Reconciles(t, acts, n, k, i, o, v) && EndsAs(f, Decision(snap, v.contexts[k].observed, o))
      && (k in t.contexts && t.contexts[k].observed ==> v.contexts[k].observed)
  }

  lemma DecidedEnds(t: State, acts: seq<Action>, n: nat, k: nat, snap: Bits, f: Frame)
    requires Balanced(t) && Inv(t) && n in t.frames && HoldsRef(t.frames[n]) && t.frames[n].ctx == k
    requires Decided(t, acts, n, k, snap, f) && f.pc.Done?
    ensures EndsAsReconciled(t, acts, n, k, snap, f)
  {
    hide OnCourse, Run, EndsAs, Balanced, Inv;
    var i, o, v :| Reconciles(t, acts, n, k, i, o, v) && OnCourse(f, Decision(snap, v.contexts[k].observed, o));
    CourseEnds(f, Decision(snap, v.contexts[k].observed, o));
    if k in t.contexts { ObservedAtReconcile(t, acts, n, k, i, o, v); }
  }

  lemma ObservedAtReconcile(t: State, acts: seq<Action>, n: nat, k: nat, i: nat, o: Answer, v: State)
    requires Balanced(t) && Inv(t) && Reconciles(t, acts, n, k, i, o, v) && k in t.contexts
    ensures t.contexts[k].observed ==> v.contexts[k].observed
  {
    Bounded(t);
    RunGrows(t, acts[..i]);
    assert Moves(t.contexts[k], v.contexts[k]);
  }

  lemma BitsReadStay(t: State, acts: seq<Action>, n: nat, k: nat, snap: Bits)
    requires Balanced(t) && Inv(t) && n in t.frames && t.frames[n].ctx == k && k in t.contexts
    requires ReadBits(t, acts, n, snap)
    ensures t.contexts[k].flags.modified ==> snap.modified
    ensures t.contexts[k].atCreate ==> snap.deleteOnClose
  {
    var i, o, v :| 0 <= i < |acts| && acts[i] == Step(n, o) && Run(t, acts[..i]) == Some(v) && n in v.frames
      && v.frames[n].pc.ReadFlags? && v.frames[n].ctx in v.contexts && v.contexts[v.frames[n].ctx].flags == snap;
    Bounded(t);
    RunGrows(t, acts[..i]);
    RunInv(t, acts[..i]);
    assert Lasts(t.frames[n], v.frames[n]) && Moves(t.contexts[k], v.contexts[k]);
    hide Balanced, Run, Grown;
    if t.contexts[k].atCreate { BitIsSet(v, k); }
  }

  lemma BitIsSet(s: State, k: nat)
    requires Inv(s) && k in s.contexts && s.contexts[k].atCreate
    ensures s.contexts[k].flags.deleteOnClose
  {
    assert ContextOk(s.contexts[k]);
    OnlySets(s.contexts[k].ops);
  }

  /** The verdict on a finished cleanup of context k, whose handle was not backed up when it began. */
  ghost predicate Judged(t: State, acts: seq<Action>, n: nat, k: nat, observed: bool, f: Frame) {
    exists snap :: ReadBits(t, acts, n, snap)
      && (EndsEarly(f, snap, observed) || EndsAsReconciled(t, acts, n, k, snap, f))
  }

  lemma TrackEnds(t: State, acts: seq<Action>, n: nat, k: nat, observed: bool, f: Frame)
    requires Balanced(t) && Inv(t) && n in t.frames && HoldsRef(t.frames[n]) && t.frames[n].ctx == k
    requires OnTrack(t, acts, n, k, observed, f) && f.pc.Done?
    ensures f.outcome.AlreadyBackedUp? || Judged(t, acts, n, k, observed, f)
  {
    hide Balanced, Inv, ReadBits, Decided, EndsAsReconciled, HoldsRef;
    if !Unread(f) {
      var snap :| ReadBits(t, acts, n, snap) && (Undecided(f, snap, observed) || Decided(t, acts, n, k, snap, f));
      if Decided(t, acts, n, k, snap, f) { DecidedEnds(t, acts, n, k, snap, f); }
    }
  }

  lemma AttemptsAndName(u: State, n: nat)
    requires Inv(u) && n in u.frames && u.frames[n].pc.Done? && u.frames[n].cleanup
    ensures u.attempts[n] == (if u.frames[n].outcome.Captured? then 1 else 0)
    ensures u.frames[n].outcome.NoName? ==> FinalName(u.frames[n].seen) == []
  {
    assert Story(u.frames[n]);
  }

  /**
   Every cleanup, of whatever handle, ends by what it read and what it was answered.  It makes one
   capture attempt when captured and none otherwise, and is without a name only when it saw none.  It
   is already backed up exactly when the handle was.  Otherwise it ends without a name; or untouched, only
   without MODIFIED and without delete bit, and without a request observed before; or it reconciles.
   Then it is excluded exactly at PASSIVE_LEVEL on an excluding answer, and if not: synchronous or
   elevated, by its IRQL, exactly when the delete state says delete; posted, out of memory or drained
   exactly when it does not and the bits say MODIFIED; and nothing is left exactly when neither does.
   */
  lemma CleanupEndsAsJudged(s: State, n: nat, file: nat, passive: bool, acts: seq<Action>)
    requires Cleaned(s, n, file, passive, acts)
    ensures var t, k, f := BeginCleanup(s, n, file, passive).value, s.attached[file],
        Ended(s, n, file, passive, acts).frames[n];
      && f.passive == passive
      && Ended(s, n, file, passive, acts).attempts[n] == (if f.outcome.Captured? then 1 else 0)
      && (f.outcome.NoName? ==> FinalName(f.seen) == [])
      && (f.outcome.AlreadyBackedUp? <==> HandleOf(s, file).flags.backedUp)
      && (!HandleOf(s, file).flags.backedUp ==> Judged(t, acts, n, k, HandleOf(s, file).observed, f))
  {
    Begun(s, n, file, passive);
    var t, k := BeginCleanup(s, n, file, passive).value, s.attached[file];
    assert HoldsRef(t.frames[n]) && Unread(t.frames[n]);
    hide BeginCleanup, Balanced, Inv, Reachable, Run, Judged, OnTrack, Unread, Followed, HoldsRef;
    StaysCleanup(t, acts, n);
    RunTrack(t, acts, n, k, HandleOf(s, file).observed);
    RunReads(t, acts, n, HandleOf(s, file).flags.backedUp);
    TrackEnds(t, acts, n, k, HandleOf(s, file).observed, Run(t, acts).value.frames[n]);
    RunInv(t, acts);
    AttemptsAndName(Run(t, acts).value, n);
  }

  /** The bits that such a cleanup read keep what the handle was when it began. */
  lemma BitsReadAre(s: State, n: nat, file: nat, passive: bool, acts: seq<Action>, snap: Bits)
    requires Cleaned(s, n, file, passive, acts) && ReadBits(BeginCleanup(s, n, file, passive).value, acts, n, snap)
    ensures HandleOf(s, file).flags.modified ==> snap.modified
    ensures HandleOf(s, file).atCreate ==> snap.deleteOnClose
  {
    Begun(s, n, file, passive);
    hide Balanced, Inv, Reachable, BeginCleanup, ReadBits;
    BitsReadStay(BeginCleanup(s, n, file, passive).value, acts, n, s.attached[file], snap);
  }

  /** What is reported when no captured name was copied: the live name if there is one, else the original. */
  predicate NamedBy(f: Frame, o: Answer, c: Context) {
    && (o.name.Some? && o.name.value != [] ==>
          !f.outcome.NoName? && (f.outcome.Captured? ==> f.outcome.what.name == o.name.value))
    && ((o.name.None? || o.name.value == []) && c.original.Some? && c.original.value.text != [] ==>
          !f.outcome.NoName? && (f.outcome.Captured? ==> f.outcome.what.name == c.original.value.text))
    && ((o.name.None? || o.name.value == []) && (c.original.None? || c.original.value.text == []) ==>
          f.outcome.NoName?)
  }

  ghost predicate NamedByAnswer(t: State, acts: seq<Action>, n: nat, f: Frame) {
    exists i, o, v :: Asks(t, acts, n, i, o, v) && NamedBy(f, o, v.contexts[v.frames[n].ctx])
  }

  /** The last captured name was copied and is what is reported. */
  predicate CopyNamed(f: Frame) {
    && UsesCopy(f.seen) && !f.outcome.NoName?
    && (f.outcome.Captured? ==> f.outcome.what.name == f.seen.renames[|f.seen.renames| - 1])
  }

  lemma NamedAsSeen(f: Frame, o: Answer, c: Context)
    requires Story(f) && f.cleanup && f.pc.Done? && !UsesCopy(f.seen) && SeesAs(f, o, c)
    requires !f.outcome.AlreadyBackedUp? && !f.outcome.Untouched?
    ensures NamedBy(f, o, c)
  {}

  lemma NameEnds(t: State, acts: seq<Action>, n: nat, f: Frame)
    requires OnName(t, acts, n, f) && Story(f) && f.cleanup && f.pc.Done?
    ensures f.outcome.AlreadyBackedUp? || f.outcome.Untouched? || UsesCopy(f.seen) || NamedByAnswer(t, acts, n, f)
  {
    hide Story, SeesAs, NamedBy, Run;
    if !(f.outcome.AlreadyBackedUp? || f.outcome.Untouched? || UsesCopy(f.seen)) {
      var i, o, v :| Asks(t, acts, n, i, o, v) && SeesAs(f, o, v.contexts[v.frames[n].ctx]);
      NamedAsSeen(f, o, v.contexts[v.frames[n].ctx]);
    }
  }

  /**
   The order of the names: one captured by a rename and copied; otherwise the live name that was
   answered; otherwise the handle's original one; and only without any of these no name at all.
   */
  lemma NamesAreTried(s: State, n: nat, file: nat, passive: bool, acts: seq<Action>)
    requires Cleaned(s, n, file, passive, acts)
    ensures var t, f := BeginCleanup(s, n, file, passive).value, Ended(s, n, file, passive, acts).frames[n];
      || f.outcome.AlreadyBackedUp? || f.outcome.Untouched?
      || CopyNamed(f) || NamedByAnswer(t, acts, n, f)
  {
    Begun(s, n, file, passive);
    var t := BeginCleanup(s, n, file, passive).value;
    hide Balanced, Inv, Reachable, BeginCleanup, Followed, Run, OnName, Story, NamedByAnswer, CopyNamed;
    RunName(t, acts, n);
    RunInv(t, acts);
    var f := Run(t, acts).value.frames[n];
    StaysCleanup(t, acts, n);
    assert Story(f) by { FactsOf(Run(t, acts).value, n, 0); }
    hide Reads, Settled;
    NameEnds(t, acts, n, f);
    if UsesCopy(f.seen) { CopiedEnds(f); }
  }

  lemma CopiedEnds(f: Frame)
    requires Story(f) && f.cleanup && f.pc.Done? && UsesCopy(f.seen)
    ensures f.outcome.AlreadyBackedUp? || f.outcome.Untouched? || CopyNamed(f)
  {}

  /** The end of a delete-on-close cleanup, by what the handle and the file said when it reconciled. */
  predicate EndsBy(f: Frame, observed: bool, o: Answer) {
    && (SentSync(f) <==> !o.excluded && !(observed && Withdraws(o)))
    && (f.outcome.Filtered? <==> o.excluded)
    && (SentPosted(f) || f.outcome.OutOfMemory? || f.outcome.Drained? <==> !o.excluded && observed && Withdraws(o))
  }

  lemma EndsByDecision(f: Frame, snap: Bits, observed: bool, o: Answer)
    requires EndsAs(f, Decision(snap, observed, o)) && f.passive && snap.modified && snap.deleteOnClose
    ensures EndsBy(f, observed, o)
  {}

  /** Such an end, decided at one reconciliation of context k; what was observed before it counts. */
  ghost predicate EndsByFile(t: State, acts: seq<Action>, n: nat, k: nat, observed: bool, f: Frame) {
    exists i, o, v :: Reconciles(t, acts, n, k, i, o, v) && EndsBy(f, v.contexts[k].observed, o)
      && (observed ==> v.contexts[k].observed)
  }

  lemma ReconciledDelete(t: State, acts: seq<Action>, n: nat, k: nat, snap: Bits, f: Frame)
    requires EndsAsReconciled(t, acts, n, k, snap, f) && f.passive && snap.modified && snap.deleteOnClose
    ensures EndsByFile(t, acts, n, k, k in t.contexts && t.contexts[k].observed, f)
  {
    hide EndsAs, EndsBy, Run;
    var i, o, v :| Reconciles(t, acts, n, k, i, o, v) && EndsAs(f, Decision(snap, v.contexts[k].observed, o))
      && (k in t.contexts && t.contexts[k].observed ==> v.contexts[k].observed);
    EndsByDecision(f, snap, v.contexts[k].observed, o);
  }

  /**
   A delete-on-close handle that is cleaned up at PASSIVE_LEVEL is captured synchronously exactly
   unless it is excluded or the file withdraws the deletion after a disposition request was seen; a
   request seen before the cleanup counts.
   */
  lemma DeleteIsSyncExactlyUnlessWithdrawn(s: State, n: nat, file: nat, acts: seq<Action>)
    requires Cleaned(s, n, file, true, acts) && HandleOf(s, file).atCreate && !HandleOf(s, file).flags.backedUp
    ensures var t, k, f := BeginCleanup(s, n, file, true).value, s.attached[file],
        Ended(s, n, file, true, acts).frames[n];
      f.outcome.NoName? || EndsByFile(t, acts, n, k, HandleOf(s, file).observed, f)
  {
    var t, k, f := BeginCleanup(s, n, file, true).value, s.attached[file], Ended(s, n, file, true, acts).frames[n];
    DeleteBitHasACause(s, k);
    CleanupEndsAsJudged(s, n, file, true, acts);
    Begun(s, n, file, true);
    var snap :| ReadBits(t, acts, n, snap)
      && (EndsEarly(f, snap, HandleOf(s, file).observed) || EndsAsReconciled(t, acts, n, k, snap, f));
    BitsReadAre(s, n, file, true, acts, snap);
    hide Cleaned, Ended, BeginCleanup, EndsAsReconciled, Reconciles, EndsBy, ReadBits, Balanced, Inv;
    if EndsAsReconciled(t, acts, n, k, snap, f) { ReconciledDelete(t, acts, n, k, snap, f); }
  }

  /** At no moment of the run has a disposition request on context k been observed. */
  ghost predicate NeverObserved(t: State, acts: seq<Action>, k: nat) {
    forall i: nat, v :: i <= |acts| && Run(t, acts[..i]) == Some(v) && k in v.contexts ==> !v.contexts[k].observed
  }

  predicate GrantsDeletion(o: Answer) { Grants(o) && !Withdraws(o) }

  predicate GrantsWithdrawal(o: Answer) { Grants(o) && Withdraws(o) }

  /**
   When the kernel grants everything, the file's own word decides: without a withdrawal the capture
   is synchronous; with one it is posted after an observed disposition request, and synchronous all
   the same when none was observed before or during the cleanup.
   */
  lemma FileDecides(s: State, n: nat, file: nat, acts: seq<Action>)
    requires Cleaned(s, n, file, true, acts) && HandleOf(s, file).atCreate && !HandleOf(s, file).flags.backedUp
    ensures AllAnswers(acts, n, GrantsDeletion) ==> SentSync(Ended(s, n, file, true, acts).frames[n])
    ensures AllAnswers(acts, n, GrantsWithdrawal) && HandleOf(s, file).observed ==>
        SentPosted(Ended(s, n, file, true, acts).frames[n])
    ensures var t := BeginCleanup(s, n, file, true).value;
      AllAnswers(acts, n, GrantsWithdrawal) && NeverObserved(t, acts, s.attached[file]) ==>
        SentSync(Ended(s, n, file, true, acts).frames[n])
  {
    DeleteBitHasACause(s, s.attached[file]);
    ModifiedHandleIsCaptured(s, n, file, true, acts);
    DeleteIsSyncExactlyUnlessWithdrawn(s, n, file, acts);
    hide Cleaned, Ended, Excused, BeginCleanup;
    if AllAnswers(acts, n, GrantsDeletion) || AllAnswers(acts, n, GrantsWithdrawal) {
      assert AllAnswers(acts, n, Grants);
    }
  }

  /** Everything granted, and the file says that it is about to be deleted. */
  predicate GrantsPending(o: Answer) {
    Grants(o) && o.topLevelFree && o.standard.Some? && o.standard.value.deletePending
  }

  lemma CleanupExcuses(s: State, n: nat, file: nat, passive: bool, acts: seq<Action>)
    requires Cleaned(s, n, file, passive, acts)
    ensures Excused(Ended(s, n, file, passive, acts).frames[n], acts, n)
  {
    Begun(s, n, file, passive);
    hide Balanced, Inv, Reachable, BeginCleanup, Followed, Excused;
    RunExcuses(BeginCleanup(s, n, file, passive).value, acts, n);
  }

  lemma ReconciledPending(t: State, acts: seq<Action>, n: nat, k: nat, snap: Bits, f: Frame)
    requires EndsAsReconciled(t, acts, n, k, snap, f) && f.passive && AllAnswers(acts, n, GrantsPending)
    requires k in t.contexts && t.contexts[k].observed
    ensures SentSync(f)
  {
    hide Run;
    var i, o, v :| Reconciles(t, acts, n, k, i, o, v) && EndsAs(f, Decision(snap, v.contexts[k].observed, o))
      && (k in t.contexts && t.contexts[k].observed ==> v.contexts[k].observed);
    assert GrantsPending(o);
  }

  /**
   No deletion goes by uncaptured: after an observed disposition request, when everything is granted
   and the file is about to be deleted, the cleanup captures it synchronously, modified or not and
   whatever its size.
   */
  lemma PendingDeletionIsCaptured(s: State, n: nat, file: nat, acts: seq<Action>)
    requires Cleaned(s, n, file, true, acts) && HandleOf(s, file).observed && !HandleOf(s, file).flags.backedUp
    requires AllAnswers(acts, n, GrantsPending)
    ensures SentSync(Ended(s, n, file, true, acts).frames[n])
  {
    var t, k, f := BeginCleanup(s, n, file, true).value, s.attached[file], Ended(s, n, file, true, acts).frames[n];
    CleanupEndsAsJudged(s, n, file, true, acts);
    CleanupExcuses(s, n, file, true, acts);
    Begun(s, n, file, true);
    assert AllAnswers(acts, n, Grants);
    GrantedHasNoExcuse(f, acts, n);
    var snap :| ReadBits(t, acts, n, snap)
      && (EndsEarly(f, snap, HandleOf(s, file).observed) || EndsAsReconciled(t, acts, n, k, snap, f));
    hide Cleaned, Ended, BeginCleanup, ReadBits, Balanced, Inv, Excused, EndsAsReconciled;
    ReconciledPending(t, acts, n, k, snap, f);
  }
}
