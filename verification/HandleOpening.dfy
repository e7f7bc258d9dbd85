/** From a create to the handle's context, whatever interleaves (knFcCallbacks.cpp lines 119-227). */
module HandleOpening {
  import opened Options
  import opened WideText
  import opened HandleModel
  import opened HandleResources
  import opened HandleInvariant
  import opened HandleTheorems
  import opened HandleEffects
  import opened HandleOutcomes

  /** The create may change, replace or delete the file. */
  predicate Matters(r: CreateRequest) {
    GrantsChange(r.access) || Replaces(r.disposition) || r.deleteOnClose
  }

  /** The context says what the create asked for, and keeps the name that was found, if there was memory for it. */
  predicate SetUpFor(c: Context, r: CreateRequest, name: Option<WString>, poolOk: bool) {
    && c.atCreate == r.deleteOnClose
    && (Replaces(r.disposition) || r.deleteOnClose ==> c.flags.modified)
    && (c.born.created <==> Replaces(r.disposition))
    && (name.Some? && name.value != [] && poolOk ==> c.original.Some? && c.original.value.text == name.value)
    && (name.None? || name.value == [] || !poolOk ==> c.original.None?)
  }

  ghost predicate Idles(acts: seq<Action>, n: nat) {
    forall i :: 0 <= i < |acts| && acts[i].Step? ==> acts[i].n != n
  }

  /** While a callback takes no step it stands where it stood. */
  lemma {:induction false} IdlerStands(t: State, acts: seq<Action>, n: nat)
    requires n in t.frames && Run(t, acts).Some? && Idles(acts, n)
    ensures n in Run(t, acts).value.frames && Run(t, acts).value.frames[n] == t.frames[n]
  {
    RunEnds(t, acts);
    hide Next, Run;
    if acts != [] {
      var front, a := acts[..|acts| - 1], acts[|acts| - 1];
      IdlerStands(t, front, n);
      OthersStand(Run(t, front).value, a, n);
    }
  }

  /** A create that does not matter leaves no trace. */
  lemma OthersAreLeftAlone(s: State, n: nat, file: nat, r: CreateRequest, name: Option<WString>, poolOk: bool)
    requires n !in s.frames && !Matters(r)
    ensures Next(s, Opened(n, file, r, name, poolOk)) == Some(s)
  {
    CreateIntentIsExact(r);
  }

  lemma OpenBegins(s: State, n: nat, file: nat, r: CreateRequest, name: Option<WString>, poolOk: bool)
    requires n !in s.frames && Matters(r)
    ensures Next(s, Opened(n, file, r, name, poolOk)).Some?
    ensures var t, k := Next(s, Opened(n, file, r, name, poolOk)).value, s.nextCtx;
      && n in t.frames && t.frames[n] == Callback(k, Attach(file)) && k in t.contexts && k < t.nextCtx
      && SetUpFor(t.contexts[k], r, name, poolOk)
  {
    CreateIntentIsExact(r);
    hide DecideWriteIntent, GrantsChange;
  }

  lemma StillSetUp(c: Context, d: Context, r: CreateRequest, name: Option<WString>, poolOk: bool)
    requires SetUpFor(c, r, name, poolOk) && Moves(c, d)
    ensures SetUpFor(d, r, name, poolOk)
  {}

  lemma Published(v: State, n: nat, o: Answer, file: nat, k: nat)
    requires n in v.frames && v.frames[n] == Callback(k, Attach(file)) && k in v.contexts
    ensures Next(v, Step(n, o)).Some?
    ensures var w := Next(v, Step(n, o)).value;
      && w.attached == (if o.success && file !in v.attached then v.attached[file := k] else v.attached)
      && k in w.contexts && w.contexts[k].(refs := v.contexts[k].refs) == v.contexts[k]
  {}

  /**
   A create that matters gets a context of its own that says what was asked for and how the file was
   called, and whatever goes on before it is published, the next step attaches it to the file: exactly
   when the filter manager agrees and the file has none yet.
   */
  lemma OpenIsFollowed(s: State, n: nat, file: nat, r: CreateRequest, name: Option<WString>, poolOk: bool,
                       acts: seq<Action>, o: Answer)
    requires Reachable(s) && n !in s.frames && Matters(r) && Idles(acts, n)
    requires Next(s, Opened(n, file, r, name, poolOk)).Some?
    requires Run(Next(s, Opened(n, file, r, name, poolOk)).value, acts).Some?
    ensures var v, k := Run(Next(s, Opened(n, file, r, name, poolOk)).value, acts).value, s.nextCtx;
      k !in s.contexts && k in v.contexts && SetUpFor(v.contexts[k], r, name, poolOk) && Next(v, Step(n, o)).Some?
      && var w := Next(v, Step(n, o)).value;
        && w.attached == (if o.success && file !in v.attached then v.attached[file := k] else v.attached)
        && k in w.contexts && SetUpFor(w.contexts[k], r, name, poolOk)
  {
    var a, k := Opened(n, file, r, name, poolOk), s.nextCtx;
    ReachableInv(s);
    Bounded(s);
    OpenBegins(s, n, file, r, name, poolOk);
    var t := Next(s, a).value;
    hide Matters, Balanced, Inv, Next, Run, SetUpFor;
    NextKeeps(s, a);
    NextKeepsInv(s, a);
    RunInv(t, acts);
    var v := Run(t, acts).value;
    IdlerStands(t, acts, n);
    ContextBelow(v, n);
    assert Moves(t.contexts[k], v.contexts[k]) by { RunGrows(t, acts); }
    StillSetUp(t.contexts[k], v.contexts[k], r, name, poolOk);
    Published(v, n, o, file, k);
    StillSetUp(v.contexts[k], Next(v, Step(n, o)).value.contexts[k], r, name, poolOk);
  }
}
