/**
 What is asked of a handle and granted by the file system is done, over every interleaving: writes,
 size changes, renames, dispositions and writable sections leave their mark, and every callback ends.
 */
module HandleFollowThrough {
  import opened Options
  import opened WideText
  import opened HandleModel
  import opened HandleResources
  import opened HandleInvariant
  import opened HandleTheorems
  import opened HandleEffects
  import opened HandleCauses
  import opened HandleOutcomes

  // ----- callbacks end -----

  /** An upper bound on the steps a callback may still take. */
  function Rank(pc: Pc): nat {
    match pc
    case AllocSetInfo(_) => 17
    case SetInfoPending(_, _) => 16
    case WritePending => 12
    case Ops(todo, _) => 10 + |todo|
    case ChooseSafe => 9
    case QueryRename => 8
    case Swap(_, _) => 7
    case FreeOld(_) => 6
    case Attach(_) => 6
    case ReadFlags => 20
    case Gate(_) => 19
    case CopyName(_) => 18
    case LiveQuery(_) => 17
    case Reconcile(_) => 16
    case SyncSend(_) => 15
    case MarkBackedUp(_) => 14
    case ElevatedEnqueue(_) => 14
    case AllocCleanup(_) => 14
    case FreeCopy(_, _) => 13
    case ReleaseThenPost(_, _) => 5
    case Release => 4
    case CleanupPending(_, _) => 3
    case FreeCompletion(_) => 2
    case Done => 0
  }

  lemma UpdateEnds(n: nat, f: Frame, c: Context, p: Pool, o: Answer)
    requires InUpdate(f.pc)
    ensures Rank(UpdateStep(n, f, c, p, o).frame.pc) < Rank(f.pc)
  {}

  lemma CleanupEndsToo(n: nat, f: Frame, c: Context, p: Pool, o: Answer)
    requires InCleanup(f.pc)
    ensures Rank(CleanupStep(n, f, c, p, o).frame.pc) < Rank(f.pc)
  {}

  lemma StepEnds(n: nat, f: Frame, c: Context, p: Pool, o: Answer)
    requires InStep(f.pc)
    ensures Rank(StepOf(n, f, c, p, o).frame.pc) < Rank(f.pc)
  {
    hide CleanupStep, UpdateStep, Rank;
    if InCleanup(f.pc) { CleanupEndsToo(n, f, c, p, o); } else { UpdateEnds(n, f, c, p, o); }
  }

  lemma TailEnds(f: Frame, o: Answer)
    requires InTail(f.pc)
    ensures Rank(TailStep(f, o).pc) < Rank(f.pc)
  {}

  lemma IdleEnds(s: State, n: nat, o: Answer)
    requires Alive(s.contexts, s.attached, s.frames) && n in s.frames
    requires !s.frames[n].pc.Done? && !InStep(s.frames[n].pc)
    ensures n in Advance(s, n, o).frames && Rank(Advance(s, n, o).frames[n].pc) < Rank(s.frames[n].pc)
  {
    PcCases(s.frames[n].pc);
    hide InStep, StepOf;
    if s.frames[n].pc.Attach? {
      PublishSame(s, n, o);
      hide Publish;
    } else {
      TailMoves(s, n, o);
      hide Advance, TailStep, Rank;
      TailEnds(s.frames[n], o);
    }
  }

  /**
   A callback that is not over can always go on, whatever the answer, and each of its steps brings it
   closer to its end.
   */
  lemma CallbacksEnd(s: State, n: nat, o: Answer)
    requires Reachable(s) && n in s.frames && !s.frames[n].pc.Done?
    ensures Next(s, Step(n, o)) == Some(Advance(s, n, o))
    ensures n in Advance(s, n, o).frames && Rank(Advance(s, n, o).frames[n].pc) < Rank(s.frames[n].pc)
  {
    ReachableBalanced(s);
    AliveContexts(s);
    assert InStep(s.frames[n].pc) ==> HoldsRef(s.frames[n]) && s.frames[n].ctx in s.contexts;
    var f := s.frames[n];
    hide Balanced, RefInv, PoolInv, Alive, InStep, Rank;
    assert Next(s, Step(n, o)) == Some(Advance(s, n, o));
    hide Next;
    if InStep(f.pc) {
      InStepAdvance(s, n, o);
      hide Advance, StepOf;
      StepEnds(n, f, s.contexts[f.ctx], s.pool, o);
    } else {
      IdleEnds(s, n, o);
    }
  }

  // ----- what an operation calls for -----

  /** The flag operations that a successful request executes on a handle; a create-time delete is not taken back. */
  predicate Called(a: Action, n: nat, op: FlagOp, atCreate: bool) {
    Requests(a, n, op) && (op.AndNotDelete? ==> !atCreate)
  }

  /** The answer fails the operation, or keeps the filter from following it. */
  predicate Fails(pc: Pc, o: Answer) {
    match pc
    case WritePending => !o.success
    case AllocSetInfo(_) => !o.poolOk
    case SetInfoPending(_, _) => !o.success
    case _ => false
  }

  /** No answer that callback n got in the run failed it. */
  ghost predicate Unfailed(t: State, acts: seq<Action>, n: nat) {
    forall i, o, v :: 0 <= i < |acts| && acts[i] == Step(n, o) && Run(t, acts[..i]) == Some(v) && n in v.frames ==>
      !Fails(v.frames[n].pc, o)
  }

  predicate Waits(pc: Pc, op: FlagOp, atCreate: bool) {
    match pc
    case WritePending => op.OrModified?
    case AllocSetInfo(a) => op in OpsOf(a, atCreate)
    case SetInfoPending(a, _) => op in OpsOf(a, atCreate)
    case Ops(todo, _) => op in todo
    case _ => false
  }

  lemma WaitsStep(n: nat, f: Frame, c: Context, p: Pool, o: Answer, op: FlagOp)
    requires InUpdate(f.pc) && Waits(f.pc, op, c.atCreate) && !Fails(f.pc, o)
    ensures var e := UpdateStep(n, f, c, p, o); op in e.ctx.ops || Waits(e.frame.pc, op, c.atCreate)
  {
    if f.pc.Ops? {
      OpsLeft(n, f, c, p, o, op);
    }
    hide OpsOf;
  }

  /** Every operation that action a calls for is executed on context k or still ahead of callback n. */
  ghost predicate Owed(a: Action, atCreate: bool, s: State, n: nat, k: nat) {
    && n in s.frames && s.frames[n].ctx == k && k < s.nextCtx
    && (k in s.contexts ==>
          && s.contexts[k].atCreate == atCreate
          && forall op :: Called(a, n, op, atCreate) ==> op in s.contexts[k].ops || Waits(s.frames[n].pc, op, atCreate))
  }

  lemma GrownOwed(a: Action, atCreate: bool, s: State, t: State, n: nat, k: nat)
    requires Owed(a, atCreate, s, n, k) && Grown(s, t)
    requires k in s.contexts && k in t.contexts ==>
      forall op :: Waits(s.frames[n].pc, op, atCreate) ==>
          op in t.contexts[k].ops || Waits(t.frames[n].pc, op, atCreate)
    ensures Owed(a, atCreate, t, n, k)
  {
    hide Waits, Called;
    if k in t.contexts {
      assert Moves(s.contexts[k], t.contexts[k]);
    }
  }

  lemma OwnWaits(s: State, n: nat, o: Answer, k: nat)
    requires Balanced(s) && n in s.frames && s.frames[n].ctx == k && k in s.contexts && !s.frames[n].pc.Done?
    requires !Fails(s.frames[n].pc, o)
    ensures var t := Advance(s, n, o);
      n in t.frames && (k in t.contexts ==> forall op :: Waits(s.frames[n].pc, op, s.contexts[k].atCreate) ==>
          op in t.contexts[k].ops || Waits(t.frames[n].pc, op, s.contexts[k].atCreate))
  {
    var f, c := s.frames[n], s.contexts[k];
    hide Balanced, OpsOf;
    if InUpdate(f.pc) {
      InStepAdvance(s, n, o);
      hide Advance, UpdateStep, Waits, Fails;
      forall op | Waits(f.pc, op, c.atCreate)
        ensures var e := EffectOf(s, n, o); op in e.ctx.ops || Waits(e.frame.pc, op, c.atCreate)
      {
        WaitsStep(n, f, c, s.pool, o, op);
      }
    } else {
      assert forall op :: !Waits(f.pc, op, c.atCreate);
      Steps(s, n, o);
      hide Advance, Waits;
    }
  }

  /** A step leaves its callback there. */
  lemma Steps(s: State, n: nat, o: Answer)
    requires n in s.frames && !s.frames[n].pc.Done?
    ensures n in Advance(s, n, o).frames
  {
    hide StepOf, FreeNames, FreeBlock;
  }

  lemma OwedStep(a: Action, atCreate: bool, s: State, x: Action, n: nat, k: nat)
    requires Balanced(s) && Inv(s) && Owed(a, atCreate, s, n, k) && Next(s, x).Some?
    requires x.Step? && x.n == n ==> !Fails(s.frames[n].pc, x.answer)
    ensures Owed(a, atCreate, Next(s, x).value, n, k)
  {
    NextGrows(s, x);
    if x.Step? && x.n == n {
      if k in s.contexts { OwnWaits(s, n, x.answer, k); } else { Steps(s, n, x.answer); }
      hide Balanced, Inv, Grown, Advance;
    } else {
      OthersStand(s, x, n);
      hide Balanced, Inv, Grown, Next;
    }
    GrownOwed(a, atCreate, s, Next(s, x).value, n, k);
  }

  lemma UnfailedFront(t: State, acts: seq<Action>, n: nat)
    requires acts != [] && Unfailed(t, acts, n)
    ensures Unfailed(t, acts[..|acts| - 1], n)
    ensures var front, a := acts[..|acts| - 1], acts[|acts| - 1];
      a.Step? && a.n == n && Run(t, front).Some? && n in Run(t, front).value.frames ==>
        !Fails(Run(t, front).value.frames[n].pc, a.answer)
  {
    var front := acts[..|acts| - 1];
    assert forall i :: 0 <= i < |front| ==> front[..i] == acts[..i] && front[i] == acts[i];
    hide Run, Fails;
    var a := acts[|acts| - 1];
    if a.Step? { assert acts[|front|] == Step(a.n, a.answer); }
  }

  lemma OwedIsOn(a: Action, atCreate: bool, s: State, n: nat, k: nat)
    requires Owed(a, atCreate, s, n, k)
    ensures n in s.frames
  {
    hide Waits, Called;
  }

  lemma {:induction false} OwedRun(a: Action, atCreate: bool, t: State, acts: seq<Action>, n: nat, k: nat)
    requires Balanced(t) && Inv(t) && Owed(a, atCreate, t, n, k) && Run(t, acts).Some? && Unfailed(t, acts, n)
    ensures Owed(a, atCreate, Run(t, acts).value, n, k)
  {
    RunEnds(t, acts);
    hide *;
    if acts != [] {
      var front := acts[..|acts| - 1];
      UnfailedFront(t, acts, n);
      OwedRun(a, atCreate, t, front, n, k);
      RunInv(t, front);
      var s := Run(t, front).value;
      assert n in s.frames by { OwedIsOn(a, atCreate, s, n, k); }
      OwedStep(a, atCreate, s, acts[|acts| - 1], n, k);
    }
  }

  // ----- beginnings -----

  /** The file that an operation is on. */
  predicate IsOn(a: Action, n: nat, file: nat) {
    match a
    case Writing(m, f) => m == n && f == file
    case SettingInfo(m, f, _) => m == n && f == file
    case Mapping(m, f, _) => m == n && f == file
    case _ => false
  }

  lemma OpsOfCalled(i: SetInfo, n: nat, file: nat, atCreate: bool)
    ensures forall op :: Called(SettingInfo(n, file, i), n, op, atCreate) ==>
        op in OpsOf(GetSetInformationActions(i), atCreate)
    ensures GetSetInformationActions(i) == NO_ACTIONS ==> forall op :: !Called(SettingInfo(n, file, i), n, op, atCreate)
  {
    SetInfoIsExact(i, atCreate);
    assert OpsOf(NO_ACTIONS, atCreate) == [];
    forall op | Called(SettingInfo(n, file, i), n, op, atCreate)
      ensures op in OpsOf(GetSetInformationActions(i), atCreate)
    {
      assert InfoRequests(i, op);
    }
    hide OpsOf, GetSetInformationActions;
  }

  /** An operation that calls for anything gets a callback on the handle's context, with all of it ahead. */
  lemma OperationBegins(s: State, a: Action, n: nat, file: nat)
    requires IsOn(a, n, file) && n !in s.frames && file in s.attached && s.attached[file] in s.contexts
    requires exists op :: Called(a, n, op, s.contexts[s.attached[file]].atCreate)
    ensures Next(s, a).Some?
    ensures var t, k := Next(s, a).value, s.attached[file];
      && n in t.frames && t.frames[n].ctx == k && !t.frames[n].cleanup && k in t.contexts
      && t.contexts[k].atCreate == s.contexts[k].atCreate && t.nextCtx == s.nextCtx
      && forall op :: Called(a, n, op, s.contexts[k].atCreate) ==> Waits(t.frames[n].pc, op, s.contexts[k].atCreate)
  {
    var k := s.attached[file];
    var atCreate := s.contexts[k].atCreate;
    if a.SettingInfo? {
      OpsOfCalled(a.info, n, file, atCreate);
      hide OpsOf, GetSetInformationActions, InfoRequests;
      EntryLands(s, n, file, AllocSetInfo(GetSetInformationActions(a.info)));
    } else if a.Writing? {
      EntryLands(s, n, file, WritePending);
    } else if a.writable {
      EntryLands(s, n, file, Ops([OrModified], false));
    }
  }

  // ----- the results -----

  /** Operation a on a file begins in s; in the end of the run its callback is over, and nothing failed it. */
  ghost predicate CarriedOut(s: State, a: Action, n: nat, file: nat, acts: seq<Action>) {
    && Reachable(s) && IsOn(a, n, file) && n !in s.frames && file in s.attached && s.attached[file] in s.contexts
    && Next(s, a).Some? && Run(Next(s, a).value, acts).Some? && Unfailed(Next(s, a).value, acts, n)
    && (n in After(s, a, acts).frames ==> After(s, a, acts).frames[n].pc.Done?)
  }

  function After(s: State, a: Action, acts: seq<Action>): State
    requires Next(s, a).Some? && Run(Next(s, a).value, acts).Some?
  {
    Run(Next(s, a).value, acts).value
  }

  lemma OwedBegins(s: State, a: Action, n: nat, file: nat)
    requires Reachable(s) && IsOn(a, n, file) && n !in s.frames && file in s.attached && s.attached[file] in s.contexts
    requires exists op :: Called(a, n, op, s.contexts[s.attached[file]].atCreate)
    ensures Next(s, a).Some?
    ensures var t, k := Next(s, a).value, s.attached[file];
      Balanced(t) && Inv(t) && Owed(a, s.contexts[k].atCreate, t, n, k)
  {
    ReachableInv(s);
    Bounded(s);
    OperationBegins(s, a, n, file);
    hide Balanced, Inv, Next, Called, IsOn;
    NextKeeps(s, a);
    NextKeepsInv(s, a);
    hide Waits;
  }

  lemma OwedEnds(a: Action, atCreate: bool, u: State, n: nat, k: nat, op: FlagOp)
    requires Owed(a, atCreate, u, n, k) && u.frames[n].pc.Done? && Called(a, n, op, atCreate)
    ensures k in u.contexts ==> op in u.contexts[k].ops
  {
    hide Called;
  }

  lemma CalledIsExecuted(s: State, a: Action, n: nat, file: nat, acts: seq<Action>, op: FlagOp)
    requires CarriedOut(s, a, n, file, acts) && Called(a, n, op, s.contexts[s.attached[file]].atCreate)
    ensures var u, k := After(s, a, acts), s.attached[file];
      n in u.frames && (k in u.contexts ==> op in u.contexts[k].ops)
  {
    var k := s.attached[file];
    var atCreate := s.contexts[k].atCreate;
    hide Called, Next, Unfailed, Run, IsOn, Reachable;
    OwedBegins(s, a, n, file);
    hide Balanced, Inv;
    OwedRun(a, atCreate, Next(s, a).value, acts, n, k);
    assert n in After(s, a, acts).frames;
    hide Owed;
    OwedEnds(a, atCreate, After(s, a, acts), n, k, op);
  }

  /**
   Whatever interleaves, an operation that succeeded has left its mark once its callback is over, for
   as long as the handle lives: a write, a change of size, a rename and a writable section MODIFIED, a
   rename RENAMED, a disposition the observation.
   */
  lemma SuccessLeavesItsMark(s: State, a: Action, n: nat, file: nat, acts: seq<Action>)
    requires CarriedOut(s, a, n, file, acts) && s.attached[file] in After(s, a, acts).contexts
    ensures var c := After(s, a, acts).contexts[s.attached[file]];
      && (forall op :: Called(a, n, op, c.atCreate) ==> op in c.ops)
      && (a.Writing? ==> c.flags.modified)
      && (a.Mapping? && a.writable ==> c.flags.modified)
      && (a.SettingInfo? && (Resizes(a.info) || Renames(a.info)) ==> c.flags.modified)
      && (a.SettingInfo? && Renames(a.info) ==> c.flags.renamed)
      && (a.SettingInfo? && Disposes(a.info).Some? ==> c.observed)
  {
    var t, k := Next(s, a).value, s.attached[file];
    ReachableInv(s);
    Bounded(s);
    NextKeeps(s, a);
    NextKeepsInv(s, a);
    NextGrows(s, a);
    RunGrows(t, acts);
    RunInv(t, acts);
    var u := After(s, a, acts);
    GrownTrans(s, t, u);
    assert Moves(s.contexts[k], u.contexts[k]) && ContextOk(u.contexts[k]);
    var c := u.contexts[k];
    forall op | Called(a, n, op, c.atCreate) ensures op in c.ops {
      CalledIsExecuted(s, a, n, file, acts, op);
    }
    hide Balanced, Inv, Next, Run, CarriedOut, Grown, ContextOk, Moves;
    MarksFollow(a, n, c);
  }

  lemma MarksFollow(a: Action, n: nat, c: Context)
    requires ContextOk(c) && forall op :: Called(a, n, op, c.atCreate) ==> op in c.ops
    ensures a.Writing? && a.n == n ==> c.flags.modified
    ensures a.Mapping? && a.n == n && a.writable ==> c.flags.modified
    ensures a.SettingInfo? && a.n == n && (Resizes(a.info) || Renames(a.info)) ==> c.flags.modified
    ensures a.SettingInfo? && a.n == n && Renames(a.info) ==> c.flags.renamed
    ensures a.SettingInfo? && a.n == n && Disposes(a.info).Some? ==> c.observed
  {
    assert Called(a, n, OrModified, c.atCreate) ==> OrModified in c.ops;
    assert Called(a, n, OrRenamed, c.atCreate) ==> OrRenamed in c.ops;
    assert Called(a, n, Observe, c.atCreate) ==> Observe in c.ops;
  }

  /**
   What was changed is captured: a successful write, resize, rename or writable section, and then a
   cleanup with everything granted.
   */
  lemma WhatWasWrittenIsCaptured(s: State, a: Action, n: nat, file: nat, acts: seq<Action>,
                                 m: nat, passive: bool, more: seq<Action>)
    requires CarriedOut(s, a, n, file, acts) && Called(a, n, OrModified, s.contexts[s.attached[file]].atCreate)
    requires Cleaned(After(s, a, acts), m, file, passive, more) && AllAnswers(more, m, Grants)
    requires After(s, a, acts).attached[file] == s.attached[file] && !HandleOf(After(s, a, acts), file).flags.backedUp
    ensures Ended(After(s, a, acts), m, file, passive, more).frames[m].outcome.Captured?
  {
    SuccessLeavesItsMark(s, a, n, file, acts);
    CalledIsExecuted(s, a, n, file, acts, OrModified);
    ReachableInv(After(s, a, acts));
    assert ContextOk(HandleOf(After(s, a, acts), file));
    hide Balanced, Inv, CarriedOut, Reachable, Called, After;
    ModifiedHandleIsCaptured(After(s, a, acts), m, file, passive, more);
  }

  // ----- renames -----

  /**
   The answer keeps a successful rename from being captured: it is not safe to ask, there is no
   name, or no memory.
   */
  predicate Loses(pc: Pc, o: Answer) {
    match pc
    case ChooseSafe => !o.safe
    case QueryRename => Nameless(o) || !o.poolOk
    case _ => Fails(pc, o)
  }

  ghost predicate Unlost(t: State, acts: seq<Action>, n: nat) {
    forall i, o, v :: 0 <= i < |acts| && acts[i] == Step(n, o) && Run(t, acts[..i]) == Some(v) && n in v.frames ==>
      !Loses(v.frames[n].pc, o)
  }

  /** The callback was given that name when it asked for the new one. */
  ghost predicate Answered(t: State, acts: seq<Action>, n: nat, name: WString) {
    exists i, o, v :: 0 <= i < |acts| && acts[i] == Step(n, o) && Run(t, acts[..i]) == Some(v) && n in v.frames
      && v.frames[n].pc.QueryRename? && o.name == Some(name)
  }

  lemma AnsweredGrows(t: State, acts: seq<Action>, a: Action, n: nat, name: WString)
    requires Answered(t, acts, n, name)
    ensures Answered(t, acts + [a], n, name)
  {
    var i, o, v :| 0 <= i < |acts| && acts[i] == Step(n, o) && Run(t, acts[..i]) == Some(v) && n in v.frames
      && v.frames[n].pc.QueryRename? && o.name == Some(name);
    assert (acts + [a])[..i] == acts[..i] && (acts + [a])[i] == acts[i];
    hide Run;
  }

  lemma AnsweredNow(t: State, acts: seq<Action>, n: nat, o: Answer)
    requires Run(t, acts).Some? && n in Run(t, acts).value.frames
    requires Run(t, acts).value.frames[n].pc.QueryRename? && o.name.Some?
    ensures Answered(t, acts + [Step(n, o)], n, o.name.value)
  {
    assert (acts + [Step(n, o)])[..|acts|] == acts && (acts + [Step(n, o)])[|acts|] == Step(n, o);
    hide Run;
  }

  /** On its way to the query. */
  predicate AsksLater(pc: Pc) {
    ((pc.AllocSetInfo? || pc.SetInfoPending?) && pc.actions.captureRename) || (pc.Ops? && pc.rename)
    || pc.ChooseSafe? || pc.QueryRename?
  }

  predicate PastSwap(pc: Pc) { pc.FreeOld? || pc.Release? || pc.Done? }

  /** The rename is still to be asked for, or its name is in hand, or it is one of the handle's captured names. */
  ghost predicate Renaming(t: State, acts: seq<Action>, s: State, n: nat, k: nat) {
    && n in s.frames && s.frames[n].ctx == k && k < s.nextCtx
    && (k in s.contexts ==>
          || AsksLater(s.frames[n].pc)
          || (s.frames[n].pc.Swap? && Answered(t, acts, n, s.frames[n].pc.name))
          || (PastSwap(s.frames[n].pc) && exists name :: name in s.contexts[k].renames && Answered(t, acts, n, name)))
  }

  lemma RenameStep(n: nat, f: Frame, c: Context, p: Pool, o: Answer)
    requires InUpdate(f.pc) && (AsksLater(f.pc) || f.pc.Swap? || f.pc.FreeOld?) && !Loses(f.pc, o)
    ensures var e := UpdateStep(n, f, c, p, o);
      && (f.pc.QueryRename? ==> o.name.Some? && e.frame.pc.Swap? && e.frame.pc.name == o.name.value)
      && (AsksLater(f.pc) && !f.pc.QueryRename? ==> AsksLater(e.frame.pc))
      && (f.pc.Swap? ==> PastSwap(e.frame.pc) && f.pc.name in e.ctx.renames)
      && (f.pc.FreeOld? ==> PastSwap(e.frame.pc))
      && (forall x :: x in c.renames ==> x in e.ctx.renames)
  {
    if f.pc.Swap? {
      assert forall x :: x in c.renames + [f.pc.name] <==> x in c.renames || x == f.pc.name;
    }
    hide OpsOf;
  }

  /** What a longer run keeps of a rename whose callback does not step. */
  lemma RenamingStands(t: State, acts: seq<Action>, a: Action, s: State, u: State, n: nat, k: nat)
    requires Renaming(t, acts, s, n, k) && Grown(s, u) && n in u.frames && u.frames[n] == s.frames[n]
    ensures Renaming(t, acts + [a], u, n, k)
  {
    hide AsksLater, PastSwap, Answered;
    if k in u.contexts {
      assert Moves(s.contexts[k], u.contexts[k]);
      KeptName(t, acts, a, s.contexts[k].renames, u.contexts[k].renames, n);
      if s.frames[n].pc.Swap? && Answered(t, acts, n, s.frames[n].pc.name) {
        AnsweredGrows(t, acts, a, n, s.frames[n].pc.name);
      }
    }
  }

  lemma KeptName(t: State, acts: seq<Action>, a: Action, x: seq<WString>, y: seq<WString>, n: nat)
    requires x <= y
    ensures (exists name :: name in x && Answered(t, acts, n, name)) ==>
      exists name :: name in y && Answered(t, acts + [a], n, name)
  {
    if name :| name in x && Answered(t, acts, n, name) {
      AnsweredGrows(t, acts, a, n, name);
      assert name in y;
    }
  }

  /** What a step of the rename's own callback does to where it stands. */
  ghost predicate Forward(s: State, u: State, n: nat, o: Answer) {
    && n in s.frames && n in u.frames
    && var f, g, k := s.frames[n], u.frames[n], s.frames[n].ctx;
      && (f.pc.QueryRename? ==> o.name.Some? && g.pc.Swap? && g.pc.name == o.name.value)
      && (AsksLater(f.pc) && !f.pc.QueryRename? ==> AsksLater(g.pc))
      && (f.pc.Swap? ==> PastSwap(g.pc) && (k in u.contexts ==> f.pc.name in u.contexts[k].renames))
      && (PastSwap(f.pc) ==> PastSwap(g.pc))
  }

  lemma RenamingOwn(t: State, acts: seq<Action>, s: State, u: State, n: nat, o: Answer, k: nat)
    requires Run(t, acts) == Some(s) && Renaming(t, acts, s, n, k) && Grown(s, u)
    requires k in s.contexts ==> Forward(s, u, n, o)
    requires n in u.frames && u.frames[n].ctx == k
    ensures Renaming(t, acts + [Step(n, o)], u, n, k)
  {
    var f, a := s.frames[n], Step(n, o);
    if k in u.contexts {
      assert k in s.contexts && Moves(s.contexts[k], u.contexts[k]);
      KeptName(t, acts, a, s.contexts[k].renames, u.contexts[k].renames, n);
      if f.pc.QueryRename? { AnsweredNow(t, acts, n, o); }
      if f.pc.Swap? { AnsweredGrows(t, acts, a, n, f.pc.name); }
    }
    hide Run, Answered, AsksLater, PastSwap;
  }

  lemma OwnRenameFacts(s: State, n: nat, o: Answer)
    requires Balanced(s) && Inv(s) && n in s.frames && !s.frames[n].pc.Done? && !Loses(s.frames[n].pc, o)
    requires s.frames[n].ctx in s.contexts ==>
      AsksLater(s.frames[n].pc) || s.frames[n].pc.Swap? || PastSwap(s.frames[n].pc)
    ensures var u := Advance(s, n, o);
      && Grown(s, u) && n in u.frames && u.frames[n].ctx == s.frames[n].ctx
      && (s.frames[n].ctx in s.contexts ==> Forward(s, u, n, o))
  {
    var u := Advance(s, n, o);
    assert Next(s, Step(n, o)) == Some(u);
    hide Balanced, Inv, Next, Loses, AsksLater, PastSwap, Forward;
    NextGrows(s, Step(n, o));
    Steps(s, n, o);
    assert Lasts(s.frames[n], u.frames[n]);
    if s.frames[n].ctx in s.contexts { OwnRenameStep(s, n, o); }
    hide Advance, Grown;
  }

  lemma OwnRename(t: State, acts: seq<Action>, s: State, n: nat, o: Answer, k: nat)
    requires Run(t, acts) == Some(s) && Balanced(s) && Inv(s) && Renaming(t, acts, s, n, k)
    requires !s.frames[n].pc.Done? && !Loses(s.frames[n].pc, o)
    ensures Renaming(t, acts + [Step(n, o)], Advance(s, n, o), n, k)
  {
    hide *;
    RenamingIsOn(t, acts, s, n, k);
    OwnRenameFacts(s, n, o);
    RenamingOwn(t, acts, s, Advance(s, n, o), n, o, k);
  }

  lemma RenamingIsOn(t: State, acts: seq<Action>, s: State, n: nat, k: nat)
    requires Renaming(t, acts, s, n, k)
    ensures n in s.frames && s.frames[n].ctx == k
    ensures k in s.contexts ==> AsksLater(s.frames[n].pc) || s.frames[n].pc.Swap? || PastSwap(s.frames[n].pc)
  {
    hide AsksLater, PastSwap, Answered;
  }

  lemma RenamingEnds(t: State, acts: seq<Action>, u: State, n: nat, k: nat)
    requires Renaming(t, acts, u, n, k) && u.frames[n].pc.Done?
    ensures k in u.contexts ==> exists name :: name in u.contexts[k].renames && Answered(t, acts, n, name)
  {
    hide Answered;
  }

  lemma OwnRenameStep(s: State, n: nat, o: Answer)
    requires n in s.frames && !s.frames[n].pc.Done? && s.frames[n].ctx in s.contexts && !Loses(s.frames[n].pc, o)
    requires AsksLater(s.frames[n].pc) || s.frames[n].pc.Swap? || PastSwap(s.frames[n].pc)
    ensures Forward(s, Advance(s, n, o), n, o)
  {
    var f := s.frames[n];
    if f.pc.Release? {
      TailMoves(s, n, o);
      hide Advance;
    } else {
      RenameStep(n, f, s.contexts[f.ctx], s.pool, o);
      InStepAdvance(s, n, o);
      hide Advance, UpdateStep, AsksLater, Loses;
    }
  }

  lemma UnlostFront(t: State, acts: seq<Action>, n: nat)
    requires acts != [] && Unlost(t, acts, n)
    ensures Unlost(t, acts[..|acts| - 1], n)
    ensures var front, a := acts[..|acts| - 1], acts[|acts| - 1];
      a.Step? && a.n == n && Run(t, front).Some? && n in Run(t, front).value.frames ==>
        !Loses(Run(t, front).value.frames[n].pc, a.answer)
  {
    var front := acts[..|acts| - 1];
    assert forall i :: 0 <= i < |front| ==> front[..i] == acts[..i] && front[i] == acts[i];
    hide Run, Loses;
    var a := acts[|acts| - 1];
    if a.Step? { assert acts[|front|] == Step(a.n, a.answer); }
  }

  lemma RenamingNext(t: State, acts: seq<Action>, s: State, a: Action, n: nat, k: nat)
    requires Run(t, acts) == Some(s) && Balanced(s) && Inv(s) && Renaming(t, acts, s, n, k) && Next(s, a).Some?
    requires a.Step? && a.n == n ==> !Loses(s.frames[n].pc, a.answer)
    ensures Renaming(t, acts + [a], Next(s, a).value, n, k)
  {
    RenamingIsOn(t, acts, s, n, k);
    hide Renaming, Balanced, Inv, Loses, Run;
    if a.Step? && a.n == n {
      OwnRename(t, acts, s, n, a.answer, k);
      hide Advance;
    } else {
      OthersStand(s, a, n);
      NextGrows(s, a);
      hide Grown, Next;
      RenamingStands(t, acts, a, s, Next(s, a).value, n, k);
    }
  }

  lemma {:induction false} RenamingRun(t: State, acts: seq<Action>, n: nat, k: nat)
    requires Balanced(t) && Inv(t) && Renaming(t, [], t, n, k) && Run(t, acts).Some? && Unlost(t, acts, n)
    ensures Renaming(t, acts, Run(t, acts).value, n, k)
  {
    RunEnds(t, acts);
    hide *;
    if acts != [] {
      var front, a := acts[..|acts| - 1], acts[|acts| - 1];
      UnlostFront(t, acts, n);
      RenamingRun(t, front, n, k);
      RunInv(t, front);
      var s := Run(t, front).value;
      RenamingIsOn(t, front, s, n, k);
      RenamingNext(t, front, s, a, n, k);
    } else {
      assert acts == [];
    }
  }

  lemma RenameBegins(s: State, n: nat, file: nat, info: SetInfo)
    requires Reachable(s) && n !in s.frames && file in s.attached && s.attached[file] in s.contexts && Renames(info)
    ensures Next(s, SettingInfo(n, file, info)).Some?
    ensures var t, k := Next(s, SettingInfo(n, file, info)).value, s.attached[file];
      Balanced(t) && Inv(t) && Renaming(t, [], t, n, k)
  {
    var a, actions := SettingInfo(n, file, info), GetSetInformationActions(info);
    ReachableInv(s);
    Bounded(s);
    hide Balanced, Inv;
    RenameCallback(s, n, file, info);
    NextKeeps(s, a);
    NextKeepsInv(s, a);
    hide Next, Reachable;
  }

  lemma RenameCallback(s: State, n: nat, file: nat, info: SetInfo)
    requires n !in s.frames && file in s.attached && s.attached[file] in s.contexts && Renames(info)
    requires s.attached[file] < s.nextCtx
    ensures Next(s, SettingInfo(n, file, info)).Some?
    ensures var t := Next(s, SettingInfo(n, file, info)).value; Renaming(t, [], t, n, s.attached[file])
  {}

  /**
   A rename that succeeded, and after which it was safe to ask, is captured: the name that the file
   system answered is one of the handle's captured names, which the next cleanup chooses from.
   */
  lemma RenameIsCaptured(s: State, n: nat, file: nat, info: SetInfo, acts: seq<Action>)
    requires Reachable(s) && n !in s.frames && file in s.attached && s.attached[file] in s.contexts && Renames(info)
    requires Next(s, SettingInfo(n, file, info)).Some? && Run(Next(s, SettingInfo(n, file, info)).value, acts).Some?
    requires Unlost(Next(s, SettingInfo(n, file, info)).value, acts, n)
    requires var u := Run(Next(s, SettingInfo(n, file, info)).value, acts).value; n in u.frames ==> u.frames[n].pc.Done?
    ensures var t, k := Next(s, SettingInfo(n, file, info)).value, s.attached[file];
      var u := Run(t, acts).value;
      n in u.frames && (k in u.contexts ==> exists name :: name in u.contexts[k].renames && Answered(t, acts, n, name))
  {
    hide *;
    RenameBegins(s, n, file, info);
    var t, k := Next(s, SettingInfo(n, file, info)).value, s.attached[file];
    RenamingRun(t, acts, n, k);
    RenamingIsOn(t, acts, Run(t, acts).value, n, k);
    RenamingEnds(t, acts, Run(t, acts).value, n, k);
  }
}
