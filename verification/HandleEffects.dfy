/** What each operation on a handle leaves behind in its flags, from the request to the end of its callback. */
module HandleEffects {
  import opened Options
  import opened WideText
  import opened HandleModel
  import opened HandleResources
  import opened HandleInvariant
  import opened HandleTheorems

  // ----- requests -----

  /** The rights that let a handle change a file. */
  predicate GrantsChange(access: bv32) {
    || access & 0x2 != 0 || access & 0x4 != 0             // write or append data
    || access & 0x10 != 0 || access & 0x100 != 0          // write extended attributes, attributes
    || access & 0x1_0000 != 0                             // delete
    || access & 0x200_0000 != 0                           // maximum allowed
    || access & 0x1000_0000 != 0 || access & 0x4000_0000 != 0 // generic all, generic write
  }

  /** Dispositions under which the file may be new or emptied. */
  predicate Replaces(d: Disposition) {
    !d.Open? && !d.OpenIf?
  }

  /**
   A create gets a context exactly when it may change, replace or delete the file, and one that
   replaces or deletes counts as modified at once.
   */
  lemma CreateIntentIsExact(r: CreateRequest)
    ensures var f := DecideWriteIntent(r);
      && (f.writeIntent <==> GrantsChange(r.access) || Replaces(r.disposition) || r.deleteOnClose)
      && (f.modified <==> Replaces(r.disposition) || r.deleteOnClose)
      && (f.created <==> Replaces(r.disposition))
      && (f.deleteOnClose <==> r.deleteOnClose)
      && !f.renamed && !f.backedUp
  {
    SplitMask(r.access);
  }

  lemma SplitMask(a: bv32)
    ensures a & WRITE_ACCESS != 0 <==> GrantsChange(a)
  {}

  function Disposes(i: SetInfo): Option<bool> {
    match i
    case Dispose(d) => d
    case DisposeEx(d) => d
    case _ => None
  }

  predicate Renames(i: SetInfo) { i.Rename? || i.RenameEx? }

  predicate Resizes(i: SetInfo) { i.EndOfFile? || i.Allocation? || i.ValidDataLength? }

  /** From the information class to the flag operations that a success executes, both classifications together. */
  lemma SetInfoIsExact(i: SetInfo, atCreate: bool)
    ensures var ops := OpsOf(GetSetInformationActions(i), atCreate);
      && (OrModified in ops <==> Resizes(i) || Renames(i))
      && (OrRenamed in ops <==> Renames(i)) && (GetSetInformationActions(i).captureRename <==> Renames(i))
      && (Observe in ops <==> Disposes(i).Some?)
      && (OrDelete in ops <==> Disposes(i) == Some(true))
      && (AndNotDelete in ops <==> Disposes(i) == Some(false) && !atCreate)
      && OrBackedUp !in ops
  {
    var ops := OpsOf(GetSetInformationActions(i), atCreate);
    match i
    case EndOfFile | Allocation | ValidDataLength => assert ops == [OrModified];
    case Rename | RenameEx => assert ops == [OrModified, OrRenamed];
    case Dispose(d) => DisposeOps(d, atCreate);
    case DisposeEx(d) => DisposeOps(d, atCreate);
    case Other => assert ops == [];
  }

  lemma DisposeOps(d: Option<bool>, atCreate: bool)
    ensures GetSetInformationActions(Dispose(d)) == GetSetInformationActions(DisposeEx(d))
    ensures OpsOf(GetSetInformationActions(Dispose(d)), atCreate) ==
      if d.None? then []
      else if d.value then [Observe, OrDelete]
      else if atCreate then [Observe]
      else [Observe, AndNotDelete]
  {}

  // ----- execution -----

  /** Each of the operations has been executed on context k, or is still to be executed by callback n. */
  ghost predicate Underway(ops: seq<FlagOp>, s: State, n: nat, k: nat) {
    && n in s.frames && s.frames[n].ctx == k && k < s.nextCtx
    && (k in s.contexts ==> forall op :: op in ops ==> op in s.contexts[k].ops || Awaits(s.frames[n].pc, op))
  }

  predicate Awaits(pc: Pc, op: FlagOp) { pc.Ops? && op in pc.todo }

  lemma OpsLeft(n: nat, f: Frame, c: Context, p: Pool, o: Answer, op: FlagOp)
    requires InStep(f.pc) && Awaits(f.pc, op)
    ensures var e := StepOf(n, f, c, p, o); op in e.ctx.ops || Awaits(e.frame.pc, op)
  {
    var todo := f.pc.todo;
    assert todo == [todo[0]] + todo[1..];
    assert op == todo[0] || op in todo[1..];
    assert Apply(c, todo[0]).ops == c.ops + [todo[0]];
  }

  /** A step of one callback leaves where the others stand. */
  lemma OthersStand(s: State, a: Action, n: nat)
    requires n in s.frames && Next(s, a).Some? && (a.Step? ==> a.n != n)
    ensures n in Next(s, a).value.frames && Next(s, a).value.frames[n] == s.frames[n]
  {
    hide StepOf, DecideWriteIntent, GetSetInformationActions, FreeNames, FreeBlock;
  }

  lemma GrownUnderway(ops: seq<FlagOp>, s: State, t: State, n: nat, k: nat)
    requires Underway(ops, s, n, k) && Grown(s, t)
    requires k in s.contexts && k in t.contexts ==>
      forall op :: Awaits(s.frames[n].pc, op) ==> op in t.contexts[k].ops || Awaits(t.frames[n].pc, op)
    ensures Underway(ops, t, n, k)
  {
    hide Awaits;
    if k in t.contexts {
      assert Moves(s.contexts[k], t.contexts[k]);
    }
  }

  lemma UnderwayStep(ops: seq<FlagOp>, s: State, a: Action, n: nat, k: nat)
    requires Balanced(s) && Inv(s) && Underway(ops, s, n, k) && Next(s, a).Some?
    ensures Underway(ops, Next(s, a).value, n, k)
  {
    NextGrows(s, a);
    if a.Step? && a.n == n {
      if s.frames[n].pc.Ops? && k in s.contexts { OwnStep(s, n, a.answer); }
      hide Balanced, Inv, Grown, Advance;
    } else {
      OthersStand(s, a, n);
      hide Balanced, Inv, Grown, Next;
    }
    GrownUnderway(ops, s, Next(s, a).value, n, k);
  }

  lemma OwnStep(s: State, n: nat, o: Answer)
    requires n in s.frames && s.frames[n].pc.Ops? && s.frames[n].ctx in s.contexts
    ensures var t, k := Advance(s, n, o), s.frames[n].ctx;
      n in t.frames && k in t.contexts && forall op :: Awaits(s.frames[n].pc, op) ==>
          op in t.contexts[k].ops || Awaits(t.frames[n].pc, op)
  {
    InStepAdvance(s, n, o);
    hide Advance, StepOf, Awaits;
    forall op | Awaits(s.frames[n].pc, op)
      ensures var e := EffectOf(s, n, o); op in e.ctx.ops || Awaits(e.frame.pc, op)
    {
      OpsLeft(n, s.frames[n], s.contexts[s.frames[n].ctx], s.pool, o, op);
    }
  }

  lemma {:induction false} UnderwayRun(ops: seq<FlagOp>, s: State, acts: seq<Action>, n: nat, k: nat)
    requires Balanced(s) && Inv(s) && Underway(ops, s, n, k) && Run(s, acts).Some?
    ensures Underway(ops, Run(s, acts).value, n, k)
  {
    hide Balanced, Inv, Underway;
    if acts != [] {
      var front := acts[..|acts| - 1];
      UnderwayRun(ops, s, front, n, k);
      RunInv(s, front);
      UnderwayStep(ops, Run(s, front).value, acts[|acts| - 1], n, k);
    }
  }

  /**
   Whatever else happens, once a callback is past its flag operations every one of them has been
   executed, and the handle shows it for as long as it lives.
   */
  lemma EffectsTakePlace(s: State, n: nat, acts: seq<Action>)
    requires Reachable(s) && n in s.frames && s.frames[n].pc.Ops? && Run(s, acts).Some?
    requires var u := Run(s, acts).value; n in u.frames && !u.frames[n].pc.Ops? && s.frames[n].ctx in u.contexts
    ensures var c, todo := Run(s, acts).value.contexts[s.frames[n].ctx], s.frames[n].pc.todo;
      && (forall op :: op in todo ==> op in c.ops)
      && (OrModified in todo ==> c.flags.modified)
      && (OrRenamed in todo ==> c.flags.renamed)
      && (Observe in todo ==> c.observed)
  {
    ReachableInv(s);
    ContextBelow(s, n);
    var k, u := s.frames[n].ctx, Run(s, acts).value;
    UnderwayRun(s.frames[n].pc.todo, s, acts, n, k);
    RunInv(s, acts);
    assert ContextOk(u.contexts[k]);
    hide Balanced, Inv, Run;
  }
}
