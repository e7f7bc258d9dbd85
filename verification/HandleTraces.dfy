/**
 Two runs that show where a handle's delete state departs from what one would expect: a
 delete-on-close handle whose capture is not synchronous, and a handle that was never modified
 and is captured synchronously all the same.
 */
module HandleTraces {
  import opened Options
  import opened WideText
  import opened HandleModel
  import opened HandleResources
  import opened HandleInvariant

  // ----- runs -----

  lemma Extend(s: State, a: Action)
    requires Reachable(s) && Next(s, a).Some?
    ensures Reachable(Next(s, a).value)
  {
    hide Next, Initial;
    var acts: seq<Action> :| Run(Initial(), acts) == Some(s);
    assert (acts + [a])[..|acts|] == acts;
    assert Run(Initial(), acts + [a]) == Next(s, a);
  }

  lemma Take(s: State, a: Action) returns (t: State)
    requires Reachable(s) && Next(s, a).Some?
    ensures Reachable(t) && t == Next(s, a).value
  {
    Extend(s, a);
    t := Next(s, a).value;
  }

  const NAME: WString := [BACKSLASH]

  /** Everything goes well; the file says whether it is about to be deleted. */
  function Fine(deletePending: bool): Answer {
    Answer(true, Some(NAME), true, true, false, true, Some(Standard(0, deletePending)))
  }

  /** One handle whose context is c; callback n is the latest and stands at f. */
  ghost predicate At(s: State, n: nat, c: Context, f: Frame) {
    && Reachable(s) && s.attached == map[0 := 0] && 0 in s.contexts && s.contexts[0] == c
    && n in s.frames && s.frames[n] == f && f.ctx == 0 && forall m :: m in s.frames ==> m <= n
  }

  predicate Stepped(n: nat, f: Frame, c: Context, p: Pool, o: Answer, d: Context, g: Frame)
    requires InStep(f.pc)
  {
    d == StepOf(n, f, c, p, o).ctx && g == StepOf(n, f, c, p, o).frame
  }

  /** Callback n takes its next step. */
  lemma Go(s: State, n: nat, c: Context, f: Frame, deletePending: bool) returns (t: State, d: Context, g: Frame)
    requires At(s, n, c, f) && InStep(f.pc)
    ensures At(t, n, d, g)
    ensures exists p :: Stepped(n, f, c, p, Fine(deletePending), d, g)
  {
    var e := StepOf(n, f, c, s.pool, Fine(deletePending));
    StepShape(n, f, c, s.pool, Fine(deletePending));
    InStepAdvance(s, n, Fine(deletePending));
    assert Stepped(n, f, c, s.pool, Fine(deletePending), e.ctx, e.frame);
    hide StepOf, Advance, Stepped;
    t := Take(s, Step(n, Fine(deletePending)));
    d, g := e.ctx, e.frame;
  }

  lemma Leave(s: State, n: nat, c: Context, f: Frame) returns (t: State, d: Context, g: Frame)
    requires At(s, n, c, f) && (f.pc.Release? || f.pc.ReleaseThenPost?) && c.refs > 1
    ensures At(t, n, d, g) && g == f.(pc := g.pc)
    ensures g.pc == (if f.pc.Release? then Done else CleanupPending(f.pc.job, f.pc.block))
    ensures d == c.(refs := c.refs - 1, cleaner := if c.cleaner == Some(n) then None else c.cleaner)
  {
    t := Take(s, Step(n, Fine(false)));
    d, g := t.contexts[0], t.frames[n];
  }

  lemma Arrive(s: State, n: nat, c: Context, f: Frame, a: Action) returns (t: State, d: Context, g: Frame)
    requires At(s, n, c, f) && c.cleaner.None?
    requires a == Cleaning(n + 1, 0, true) || (exists delete :: a == SettingInfo(n + 1, 0, Dispose(Some(delete))))
    ensures At(t, n + 1, d, g) && d == c.(refs := c.refs + 1, cleaner := if a.Cleaning? then Some(n + 1) else None)
    ensures a.Cleaning? ==> g.pc.ReadFlags? && g.passive
    ensures a.SettingInfo? ==> g.pc == AllocSetInfo(Actions(false, a.info.delete.value, !a.info.delete.value, false))
  {
    t := Take(s, a);
    d, g := t.contexts[0], t.frames[n + 1];
  }

  lemma OpenHandle(r: CreateRequest) returns (s: State, c: Context, f: Frame)
    requires DecideWriteIntent(r).writeIntent
    ensures At(s, 0, c, f)
    ensures (c.refs, c.flags, c.atCreate, c.cleaner, c.current)
        == (1, DecideWriteIntent(r), r.deleteOnClose, None, None)
  {
    s := Opening(r);
    hide *;
    s, c, f := Attached(s);
    s, c, f := Leave(s, 0, c, f);
  }

  lemma Opening(r: CreateRequest) returns (s: State)
    requires DecideWriteIntent(r).writeIntent
    ensures Reachable(s) && s.frames.Keys == {0} && s.frames[0].ctx == 0 && s.frames[0].pc == Attach(0)
    ensures 0 in s.contexts && s.attached == map[]
    ensures var c := s.contexts[0];
      (c.refs, c.flags, c.atCreate, c.cleaner, c.current) == (1, DecideWriteIntent(r), r.deleteOnClose, None, None)
  {
    hide DecideWriteIntent;
    assert Run(Initial(), []) == Some(Initial());
    s := Take(Initial(), Opened(0, 0, r, None, true));
  }

  lemma Attached(s: State) returns (t: State, c: Context, f: Frame)
    requires Reachable(s) && s.frames.Keys == {0} && s.frames[0].ctx == 0 && s.frames[0].pc == Attach(0)
    requires 0 in s.contexts && s.attached == map[]
    ensures At(t, 0, c, f) && c == s.contexts[0].(refs := s.contexts[0].refs + 1) && f.pc.Release?
  {
    t := Take(s, Step(0, Fine(false)));
    c, f := t.contexts[0], t.frames[0];
  }

  /** A disposition request that the file system has carried out. */
  lemma Disposed(s: State, c: Context, f: Frame, delete: bool) returns (t: State, d: Context, g: Frame)
    requires At(s, 0, c, f) && c.cleaner.None?
    ensures At(t, 1, d, g) && d == c.(refs := c.refs + 1)
    ensures g.pc == Ops(OpsOf(Actions(false, delete, !delete, false), c.atCreate), false)
  {
    hide OpsOf;
    t, d, g := Arrive(s, 0, c, f, SettingInfo(1, 0, Dispose(Some(delete))));
    t, d, g := Go(t, 1, d, g, false);
    t, d, g := Go(t, 1, d, g, false);
  }

  /** A withdrawn deletion leaves a create-time bit alone but counts as observed. */
  lemma Withdraw(s: State, c: Context, f: Frame) returns (t: State, d: Context, g: Frame)
    requires At(s, 0, c, f) && c.cleaner.None? && c.atCreate && c.refs == 1
    ensures At(t, 1, d, g)
    ensures (d.refs, d.flags, d.observed, d.atCreate, d.cleaner, d.current) == (1, c.flags, true, true, None, c.current)
  {
    t, d, g := Disposed(s, c, f, false);
    assert OpsOf(Actions(false, false, true, false), true) == [Observe];
    t, d, g := Go(t, 1, d, g, false);
    t, d, g := Go(t, 1, d, g, false);
    t, d, g := Leave(t, 1, d, g);
  }

  lemma Request(s: State, c: Context, f: Frame) returns (t: State, d: Context, g: Frame)
    requires At(s, 0, c, f) && c.cleaner.None? && !c.atCreate && c.refs == 1
    ensures At(t, 1, d, g)
    ensures (d.refs, d.flags, d.observed, d.cleaner, d.current)
        == (1, c.flags.(deleteOnClose := true), true, None, c.current)
  {
    t, d, g := Disposed(s, c, f, true);
    assert OpsOf(Actions(false, true, false, false), false) == [Observe, OrDelete];
    t, d, g := Go(t, 1, d, g, false);
    t, d, g := Go(t, 1, d, g, false);
    t, d, g := Go(t, 1, d, g, false);
    t, d, g := Leave(t, 1, d, g);
  }

  /** A cleanup at PASSIVE_LEVEL gets as far as its name. */
  lemma Clean(s: State, c: Context, f: Frame) returns (t: State, d: Context, g: Frame)
    requires At(s, 1, c, f) && c.cleaner.None? && c.observed && !c.flags.backedUp && c.current.None? && c.refs == 1
    ensures At(t, 2, d, g) && d == c.(refs := 2, cleaner := Some(2))
    ensures g.pc.Reconcile? && g.pc.job.snap == c.flags && g.passive
  {
    t, d, g := Arrive(s, 1, c, f, Cleaning(2, 0, true));
    t, d, g := Go(t, 2, d, g, false);
    t, d, g := Go(t, 2, d, g, false);
    t, d, g := Go(t, 2, d, g, false);
    t, d, g := Go(t, 2, d, g, false);
  }

  lemma Post(s: State, n: nat, c: Context, f: Frame) returns (t: State)
    requires At(s, n, c, f) && f.pc.CleanupPending?
    ensures Reachable(t) && n in t.frames && t.frames[n].outcome == CapturedBy(Posted, f.pc.job)
    ensures t.contexts == s.contexts
  {
    t := Take(s, Step(n, Fine(false)));
  }

  lemma ThroughPost(s: State, c: Context, f: Frame) returns (t: State)
    requires At(s, 2, c, f) && f.pc.Reconcile? && f.passive && f.pc.job.snap.modified && c.observed && c.refs == 2
    ensures Reachable(t) && 2 in t.frames && t.frames[2].outcome.Captured? && t.frames[2].outcome.what.how.Posted?
    ensures 0 in t.contexts && t.contexts[0].atCreate == c.atCreate && t.contexts[0].flags == c.flags
  {
    var d, g := c, f;
    t, d, g := Go(s, 2, c, f, false);
    t, d, g := Go(t, 2, d, g, false);
    t, d, g := FromCopy(t, d, g);
    t := Post(t, 2, d, g);
  }

  lemma FromCopy(s: State, c: Context, f: Frame) returns (t: State, d: Context, g: Frame)
    requires At(s, 2, c, f) && f.pc.FreeCopy? && f.pc.completion.Some? && c.refs == 2
    ensures At(t, 2, d, g) && g.pc.CleanupPending? && d == c.(refs := d.refs, cleaner := d.cleaner)
  {
    t, d, g := Go(s, 2, c, f, false);
    t, d, g := Leave(t, 2, d, g);
  }

  /** A handle opened for deletion on close whose capture is posted, not synchronous. */
  lemma CreateTimeDeleteCanBePosted() returns (s: State)
    ensures Reachable(s) && 2 in s.frames && s.frames[2].outcome.Captured? && s.frames[2].outcome.what.how.Posted?
    ensures 0 in s.contexts && s.contexts[0].atCreate && s.contexts[0].flags.deleteOnClose
  {
    var c, f;
    s, c, f := OpenHandle(CreateRequest(0, Open, true));
    s, c, f := Withdraw(s, c, f);
    s, c, f := Clean(s, c, f);
    s := ThroughPost(s, c, f);
  }

  /** A handle that was only told to delete its file is captured synchronously, unmodified. */
  lemma DeleteOnlyHandleIsSynced() returns (s: State)
    ensures Reachable(s) && 2 in s.frames && s.frames[2].outcome.Captured? && s.frames[2].outcome.what.how.Sync?
    ensures 0 in s.contexts && !s.contexts[0].flags.modified
  {
    var r := CreateRequest(0x1_0000, Open, false);
    assert r.access & WRITE_ACCESS != 0;
    var c, f;
    s, c, f := OpenHandle(r);
    s, c, f := Request(s, c, f);
    s, c, f := Clean(s, c, f);
    s, c, f := Go(s, 2, c, f, true);
    s, c, f := Go(s, 2, c, f, true);
  }
}
