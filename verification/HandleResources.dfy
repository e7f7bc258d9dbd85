/** References and pool memory of the handle machine: nothing leaks and nothing is used after it is freed. */
module HandleResources {
  import opened Options
  import opened WideText
  import opened Tally
  import opened HandleModel

  // ----- who holds what -----

  /** A callback keeps its reference until it releases it; knFcPostCleanup has none. */
  predicate HoldsRef(f: Frame) {
    !f.pc.CleanupPending? && !f.pc.FreeCompletion? && !f.pc.Done?
  }

  function Holding(c: nat): Frame -> bool {
    (f: Frame) => HoldsRef(f) && f.ctx == c
  }

  function To(c: nat): nat -> bool {
    (x: nat) => x == c
  }

  /** How many callbacks hold a reference to context c, and how many handles. */
  function Holders(frames: map<nat, Frame>, c: nat): nat {
    Count(frames, Holding(c))
  }

  function Handles(attached: map<nat, nat>, c: nat): nat {
    Count(attached, To(c))
  }

  function CopyOf(j: Job): set<nat> {
    if j.copy.Some? then {j.copy.value} else {}
  }

  /** The pool blocks in a callback's hands. */
  function Blocks(pc: Pc): set<nat> {
    match pc
    case SetInfoPending(_, b) => {b}
    case Swap(b, _) => {b}
    case FreeOld(b) => {b}
    case Reconcile(j) => CopyOf(j)
    case SyncSend(j) => CopyOf(j)
    case MarkBackedUp(j) => CopyOf(j)
    case ElevatedEnqueue(j) => CopyOf(j)
    case AllocCleanup(j) => CopyOf(j)
    case FreeCopy(j, completion) => CopyOf(j) + (if completion.Some? then {completion.value} else {})
    case ReleaseThenPost(_, b) => {b}
    case CleanupPending(_, b) => {b}
    case FreeCompletion(b) => {b}
    case _ => {}
  }

  // ----- the invariant -----

  ghost predicate RefInv(contexts: map<nat, Context>, attached: map<nat, nat>, frames: map<nat, Frame>, nextCtx: nat) {
    && (forall c :: c in contexts ==> c < nextCtx && 1 <= contexts[c].refs == Holders(frames, c) + Handles(attached, c))
    && Alive(contexts, attached, frames)
  }

  ghost predicate Alive(contexts: map<nat, Context>, attached: map<nat, nat>, frames: map<nat, Frame>) {
    && (forall n :: n in frames && HoldsRef(frames[n]) ==> frames[n].ctx in contexts)
    && (forall h :: h in attached ==> attached[h] in contexts)
  }

  ghost predicate FrameBlocks(place: map<nat, Place>, frames: map<nat, Frame>) {
    forall n, b :: n in frames && b in Blocks(frames[n].pc) ==> At(place, b, Carried(n))
  }

  ghost predicate At(place: map<nat, Place>, b: nat, p: Place) {
    b in place && place[b] == p
  }

  ghost predicate NameBlocks(place: map<nat, Place>, contexts: map<nat, Context>) {
    forall c :: c in contexts ==> NamesAt(place, c, contexts[c])
  }

  ghost predicate NamesAt(place: map<nat, Place>, c: nat, x: Context) {
    && (x.original.Some? ==> At(place, x.original.value.block, OriginalOf(c)))
    && (x.current.Some? ==> At(place, x.current.value.block, CurrentOf(c)))
  }

  ghost predicate Owned(b: nat, p: Place, contexts: map<nat, Context>, frames: map<nat, Frame>) {
    match p
    case Carried(n) => n in frames && b in Blocks(frames[n].pc)
    case OriginalOf(c) => c in contexts && contexts[c].original.Some? && contexts[c].original.value.block == b
    case CurrentOf(c) => c in contexts && contexts[c].current.Some? && contexts[c].current.value.block == b
    case Freed => true
  }

  ghost predicate OwnerInv(place: map<nat, Place>, contexts: map<nat, Context>, frames: map<nat, Frame>) {
    forall b :: b in place ==> Owned(b, place[b], contexts, frames)
  }

  ghost predicate LedgerInv(p: Pool) {
    && (forall b: nat :: b in p.place <==> b < p.next)
    && (forall b: nat :: p.frees[b] == if b in p.place && p.place[b].Freed? then 1 else 0)
  }

  ghost predicate PoolInv(p: Pool, contexts: map<nat, Context>, frames: map<nat, Frame>) {
    && FrameBlocks(p.place, frames)
    && NameBlocks(p.place, contexts)
    && OwnerInv(p.place, contexts, frames)
    && LedgerInv(p)
    && (forall n :: n in frames ==> Apart(frames[n].pc))
  }

  predicate Apart(pc: Pc) {
    pc.FreeCopy? && pc.completion.Some? ==> pc.job.copy != pc.completion
  }

  ghost predicate Balanced(s: State) {
    RefInv(s.contexts, s.attached, s.frames, s.nextCtx) && PoolInv(s.pool, s.contexts, s.frames)
  }

  lemma Bounded(s: State)
    requires Balanced(s)
    ensures forall c :: c in s.contexts ==> c < s.nextCtx
  {}

  // ----- references -----

  function Bit(b: bool): nat { if b then 1 else 0 }

  /** What context c gains in holders when callback n becomes g. */
  function Gained(frames: map<nat, Frame>, n: nat, g: Frame, c: nat): int {
    Bit(HoldsRef(g) && g.ctx == c) - Bit(n in frames && HoldsRef(frames[n]) && frames[n].ctx == c)
  }

  lemma HoldersUpdate(frames: map<nat, Frame>, n: nat, g: Frame)
    ensures forall c :: Holders(frames[n := g], c) == Holders(frames, c) + Gained(frames, n, g, c)
  {
    forall c ensures Holders(frames[n := g], c) == Holders(frames, c) + Gained(frames, n, g, c) {
      CountUpdate(frames, Holding(c), n, g);
    }
  }

  lemma HandlesUpdate(attached: map<nat, nat>, file: nat, to: nat)
    requires file !in attached
    ensures forall c :: Handles(attached[file := to], c) == Handles(attached, c) + Bit(c == to)
  {
    forall c ensures Handles(attached[file := to], c) == Handles(attached, c) + Bit(c == to) {
      CountUpdate(attached, To(c), file, to);
    }
  }

  lemma HandlesRemove(attached: map<nat, nat>, file: nat)
    requires file in attached
    ensures forall c :: Handles(attached - {file}, c) == Handles(attached, c) - Bit(c == attached[file])
  {
    forall c ensures Handles(attached - {file}, c) == Handles(attached, c) - Bit(c == attached[file]) {
      CountRemove(attached, To(c), file);
    }
  }

  lemma NobodyHolds(attached: map<nat, nat>, frames: map<nat, Frame>, c: nat)
    ensures Holders(frames, c) == 0 <==> forall n :: n in frames && HoldsRef(frames[n]) ==> frames[n].ctx != c
    ensures Handles(attached, c) == 0 <==> forall h :: h in attached ==> attached[h] != c
  {
    CountZero(frames, Holding(c));
    CountZero(attached, To(c));
  }

  /** Everything but one callback and its context stays, and the count of that context with it. */
  lemma RefsOfStep(s: State, n: nat, g: Frame, x: Context)
    requires RefInv(s.contexts, s.attached, s.frames, s.nextCtx)
    requires n in s.frames && HoldsRef(s.frames[n]) && HoldsRef(g) && g.ctx == s.frames[n].ctx
    requires x.refs == s.contexts[g.ctx].refs
    ensures RefInv(s.contexts[g.ctx := x], s.attached, s.frames[n := g], s.nextCtx)
  {
    hide Holders, Handles;
    HoldersUpdate(s.frames, n, g);
  }

  lemma RefsOfBegin(s: State, n: nat, g: Frame, x: Context)
    requires RefInv(s.contexts, s.attached, s.frames, s.nextCtx)
    requires n !in s.frames && HoldsRef(g) && g.ctx in s.contexts
    requires x.refs == s.contexts[g.ctx].refs + 1
    ensures RefInv(s.contexts[g.ctx := x], s.attached, s.frames[n := g], s.nextCtx)
  {
    hide Holders, Handles;
    HoldersUpdate(s.frames, n, g);
  }

  lemma RefsOfCreate(s: State, n: nat, g: Frame, x: Context)
    requires RefInv(s.contexts, s.attached, s.frames, s.nextCtx)
    requires n !in s.frames && HoldsRef(g) && g.ctx == s.nextCtx && x.refs == 1
    ensures RefInv(s.contexts[g.ctx := x], s.attached, s.frames[n := g], s.nextCtx + 1)
  {
    hide Holders, Handles;
    NobodyHolds(s.attached, s.frames, g.ctx);
    HoldersUpdate(s.frames, n, g);
  }

  lemma RefsOfAttach(s: State, file: nat, c: nat)
    requires RefInv(s.contexts, s.attached, s.frames, s.nextCtx) && file !in s.attached && c in s.contexts
    ensures RefInv(s.contexts[c := s.contexts[c].(refs := s.contexts[c].refs + 1)], s.attached[file := c], s.frames,
        s.nextCtx)
  {
    hide Holders, Handles;
    HandlesUpdate(s.attached, file, c);
  }

  /** One holder too few for context c. */
  ghost predicate RefOff(contexts: map<nat, Context>, attached: map<nat, nat>, frames: map<nat, Frame>, nextCtx: nat,
      c: nat) {
    && c in contexts
    && (forall d :: d in contexts ==>
         d < nextCtx && 1 <= contexts[d].refs == Holders(frames, d) + Handles(attached, d) + Bit(d == c))
    && Alive(contexts, attached, frames)
  }

  lemma LastRefGoes(contexts: map<nat, Context>, attached: map<nat, nat>, frames: map<nat, Frame>, nextCtx: nat, c: nat)
    requires RefOff(contexts, attached, frames, nextCtx, c) && contexts[c].refs == 1
    ensures RefInv(contexts - {c}, attached, frames, nextCtx)
  {
    NobodyHolds(attached, frames, c);
    hide Holders, Handles;
  }

  lemma OneRefGoes(contexts: map<nat, Context>, attached: map<nat, nat>, frames: map<nat, Frame>, nextCtx: nat, c: nat)
    requires RefOff(contexts, attached, frames, nextCtx, c) && contexts[c].refs != 1
    ensures RefInv(contexts[c := contexts[c].(refs := contexts[c].refs - 1)], attached, frames, nextCtx)
  {
    NobodyHolds(attached, frames, c);
    hide Holders, Handles;
  }

  lemma RefsOfDrop(s: State, c: nat)
    requires RefOff(s.contexts, s.attached, s.frames, s.nextCtx, c)
    ensures RefInv(Drop(s, c).contexts, s.attached, s.frames, s.nextCtx)
  {
    DropLeaves(s, c);
    if s.contexts[c].refs == 1 {
      LastRefGoes(s.contexts, s.attached, s.frames, s.nextCtx, c);
    } else {
      OneRefGoes(s.contexts, s.attached, s.frames, s.nextCtx, c);
    }
    hide Drop, RefOff, RefInv;
  }

  lemma RefsOfDetach(s: State, file: nat)
    requires RefInv(s.contexts, s.attached, s.frames, s.nextCtx) && file in s.attached
    ensures RefOff(s.contexts, s.attached - {file}, s.frames, s.nextCtx, s.attached[file])
  {
    hide Holders, Handles;
    HandlesRemove(s.attached, file);
  }

  lemma RefsOfLetGo(s: State, n: nat, g: Frame, x: Context)
    requires RefInv(s.contexts, s.attached, s.frames, s.nextCtx)
    requires n in s.frames && HoldsRef(s.frames[n]) && !HoldsRef(g) && g.ctx == s.frames[n].ctx
    requires x.refs == s.contexts[g.ctx].refs
    ensures RefOff(s.contexts[g.ctx := x], s.attached, s.frames[n := g], s.nextCtx, g.ctx)
  {
    hide Holders, Handles;
    HoldersUpdate(s.frames, n, g);
  }

  lemma RefsOfEnd(s: State, n: nat, g: Frame)
    requires RefInv(s.contexts, s.attached, s.frames, s.nextCtx)
    requires n in s.frames && !HoldsRef(s.frames[n]) && !HoldsRef(g)
    ensures RefInv(s.contexts, s.attached, s.frames[n := g], s.nextCtx)
  {
    hide Holders, Handles;
    HoldersUpdate(s.frames, n, g);
  }

  // ----- pool memory -----

  ghost predicate SameNames(a: map<nat, Context>, b: map<nat, Context>) {
    a.Keys == b.Keys && forall c :: c in a ==> a[c].original == b[c].original && a[c].current == b[c].current
  }

  lemma SameNamesUpdate(contexts: map<nat, Context>, c: nat, x: Context)
    requires c in contexts && x.original == contexts[c].original && x.current == contexts[c].current
    ensures SameNames(contexts, contexts[c := x])
  {}

  lemma SameNamesSelf(contexts: map<nat, Context>)
    ensures SameNames(contexts, contexts)
  {}

  lemma PoolQuiet(s: State, n: nat, g: Frame, contexts: map<nat, Context>)
    requires PoolInv(s.pool, s.contexts, s.frames) && SameNames(s.contexts, contexts) && Apart(g.pc)
    requires if n in s.frames then Blocks(s.frames[n].pc) == Blocks(g.pc) else Blocks(g.pc) == {}
    ensures PoolInv(s.pool, contexts, s.frames[n := g])
  {}

  lemma TakesOwned(s: State, n: nat, g: Frame, contexts: map<nat, Context>)
    requires OwnerInv(s.pool.place, s.contexts, s.frames) && SameNames(s.contexts, contexts)
    requires n in s.frames && Blocks(g.pc) == Blocks(s.frames[n].pc) + {s.pool.next}
    ensures OwnerInv(Alloc(s.pool, Carried(n)).place, contexts, s.frames[n := g])
  {
    hide Blocks;
  }

  lemma PoolTakes(s: State, n: nat, g: Frame, contexts: map<nat, Context>)
    requires PoolInv(s.pool, s.contexts, s.frames) && SameNames(s.contexts, contexts) && Apart(g.pc)
    requires n in s.frames && Blocks(g.pc) == Blocks(s.frames[n].pc) + {s.pool.next}
    ensures PoolInv(Alloc(s.pool, Carried(n)), contexts, s.frames[n := g])
  {
    assert s.pool.next !in s.pool.place;
    TakesOwned(s, n, g, contexts);
    hide OwnerInv;
  }

  lemma PoolGives(s: State, n: nat, g: Frame, contexts: map<nat, Context>, b: nat)
    requires PoolInv(s.pool, s.contexts, s.frames) && SameNames(s.contexts, contexts) && Apart(g.pc)
    requires n in s.frames && b in Blocks(s.frames[n].pc) && Blocks(g.pc) == Blocks(s.frames[n].pc) - {b}
    ensures PoolInv(FreeBlock(s.pool, b), contexts, s.frames[n := g])
  {
    assert At(s.pool.place, b, Carried(n));
  }

  lemma PoolSwaps(s: State, n: nat, g: Frame, x: Context)
    requires PoolInv(s.pool, s.contexts, s.frames) && n in s.frames && s.frames[n].pc.Swap?
    requires s.frames[n].ctx in s.contexts
    requires var f := s.frames[n]; var was := s.contexts[f.ctx].current;
      && x.original == s.contexts[f.ctx].original && x.current == Some(Buffer(f.pc.block, f.pc.name)) && g.ctx == f.ctx
      && g.pc == if was.None? then Release else FreeOld(was.value.block)
    ensures var f := s.frames[n]; var was := s.contexts[f.ctx].current;
      var q := s.pool.(place := s.pool.place[f.pc.block := CurrentOf(f.ctx)]);
      var r := if was.None? then q else q.(place := q.place[was.value.block := Carried(n)]);
      PoolInv(r, s.contexts[f.ctx := x], s.frames[n := g])
  {
    var f := s.frames[n];
    assert At(s.pool.place, f.pc.block, Carried(n));
    assert NamesAt(s.pool.place, f.ctx, s.contexts[f.ctx]);
  }

  lemma PoolCreates(s: State, n: nat, g: Frame, x: Context)
    requires PoolInv(s.pool, s.contexts, s.frames) && n !in s.frames && Blocks(g.pc) == {} && Apart(g.pc)
    requires s.nextCtx !in s.contexts && x.current == None
    requires x.original.Some? ==> x.original.value.block == s.pool.next
    ensures PoolInv(if x.original.Some? then Alloc(s.pool, OriginalOf(s.nextCtx)) else s.pool,
                    s.contexts[s.nextCtx := x], s.frames[n := g])
  {
    assert s.pool.next !in s.pool.place;
  }

  lemma PoolDropsOriginal(p: Pool, contexts: map<nat, Context>, frames: map<nat, Frame>, c: nat)
    requires PoolInv(p, contexts, frames) && c in contexts
    ensures PoolInv(FreeBuffer(p, contexts[c].original), contexts[c := contexts[c].(original := None)], frames)
  {
    assert NamesAt(p.place, c, contexts[c]);
  }

  lemma PoolDropsCurrent(p: Pool, contexts: map<nat, Context>, frames: map<nat, Frame>, c: nat)
    requires PoolInv(p, contexts, frames) && c in contexts
    ensures PoolInv(FreeBuffer(p, contexts[c].current), contexts[c := contexts[c].(current := None)], frames)
  {
    assert NamesAt(p.place, c, contexts[c]);
  }

  lemma PoolForgets(p: Pool, contexts: map<nat, Context>, frames: map<nat, Frame>, c: nat)
    requires PoolInv(p, contexts, frames) && c in contexts && contexts[c].original == contexts[c].current == None
    ensures PoolInv(p, contexts - {c}, frames)
  {
    forall b | b in p.place ensures Owned(b, p.place[b], contexts - {c}, frames) {
      assert Owned(b, p.place[b], contexts, frames);
    }
  }

  lemma PoolDrops(s: State, c: nat)
    requires PoolInv(s.pool, s.contexts, s.frames) && c in s.contexts
    ensures PoolInv(Drop(s, c).pool, Drop(s, c).contexts, s.frames)
  {
    hide PoolInv;
    var x := s.contexts[c];
    if x.refs == 1 {
      PoolDropsOriginal(s.pool, s.contexts, s.frames, c);
      var bare := s.contexts[c := x.(original := None)];
      PoolDropsCurrent(FreeBuffer(s.pool, x.original), bare, s.frames, c);
      PoolForgets(FreeNames(s.pool, x), bare[c := bare[c].(current := None)], s.frames, c);
      assert bare[c := bare[c].(current := None)] - {c} == s.contexts - {c};
    } else {
      ReCount(s.pool, s.contexts, s.frames, c, x.refs - 1);
    }
  }

  lemma ReCount(p: Pool, contexts: map<nat, Context>, frames: map<nat, Frame>, c: nat, refs: int)
    requires PoolInv(p, contexts, frames) && c in contexts
    ensures PoolInv(p, contexts[c := contexts[c].(refs := refs)], frames)
  {}

  // ----- every step keeps the balance -----

  lemma AliveContexts(s: State)
    requires Balanced(s)
    ensures RefInv(s.contexts, s.attached, s.frames, s.nextCtx) && PoolInv(s.pool, s.contexts, s.frames)
    ensures Alive(s.contexts, s.attached, s.frames) && s.nextCtx !in s.contexts
    ensures forall n :: n in s.frames ==> Apart(s.frames[n].pc)
  {}

  /** The effect of the step callback n takes. */
  function EffectOf(s: State, n: nat, o: Answer): Effect
    requires n in s.frames && s.frames[n].ctx in s.contexts && InStep(s.frames[n].pc)
  {
    StepOf(n, s.frames[n], s.contexts[s.frames[n].ctx], s.pool, o)
  }

  lemma StepLands(s: State, n: nat, o: Answer)
    requires n in s.frames && s.frames[n].ctx in s.contexts && InStep(s.frames[n].pc)
    ensures var e, t := EffectOf(s, n, o), Advance(s, n, o);
      && t.contexts == s.contexts[s.frames[n].ctx := e.ctx] && t.frames == s.frames[n := e.frame]
      && (t.pool, t.attached, t.nextCtx) == (e.pool, s.attached, s.nextCtx)
  {
    hide UpdateStep, CleanupStep;
  }

  /** A step keeps its callback's context and reference, and only a swap touches a name. */
  ghost predicate Shape(f: Frame, c: Context, e: Effect) {
    && HoldsRef(f) && HoldsRef(e.frame) && e.frame.ctx == f.ctx && e.ctx.refs == c.refs && e.ctx.original == c.original
    && e.ctx.current == if f.pc.Swap? then Some(Buffer(f.pc.block, f.pc.name)) else c.current
  }

  lemma CleanupShape(n: nat, f: Frame, c: Context, p: Pool, o: Answer)
    requires InCleanup(f.pc)
    ensures Shape(f, c, CleanupStep(n, f, c, p, o))
  {}

  lemma UpdateShape(n: nat, f: Frame, c: Context, p: Pool, o: Answer)
    requires InUpdate(f.pc)
    ensures Shape(f, c, UpdateStep(n, f, c, p, o))
  {}

  lemma StepShape(n: nat, f: Frame, c: Context, p: Pool, o: Answer)
    requires InStep(f.pc)
    ensures Shape(f, c, StepOf(n, f, c, p, o))
  {
    hide Shape, CleanupStep, UpdateStep;
    if InCleanup(f.pc) { CleanupShape(n, f, c, p, o); } else { UpdateShape(n, f, c, p, o); }
  }

  lemma StepKeeps(s: State, n: nat, o: Answer)
    requires Balanced(s) && n in s.frames && InStep(s.frames[n].pc)
    ensures Balanced(Advance(s, n, o))
  {
    hide PoolInv, RefInv, UpdateStep, CleanupStep;
    AliveContexts(s);
    StepLands(s, n, o);
    StepShape(n, s.frames[n], s.contexts[s.frames[n].ctx], s.pool, o);
    var e := EffectOf(s, n, o);
    RefsOfStep(s, n, e.frame, e.ctx);
    StepPool(s, n, o);
  }

  /** What a step does to the pool, by the blocks its callback holds before and after. */
  lemma StepPool(s: State, n: nat, o: Answer)
    requires Balanced(s) && n in s.frames && s.frames[n].ctx in s.contexts && InStep(s.frames[n].pc)
    ensures PoolInv(EffectOf(s, n, o).pool, s.contexts[s.frames[n].ctx := EffectOf(s, n, o).ctx],
        s.frames[n := EffectOf(s, n, o).frame])
  {
    hide PoolInv, RefInv, UpdateStep, CleanupStep, Blocks;
    hide SameNames;
    AliveContexts(s);
    StepLands(s, n, o);
    StepShape(n, s.frames[n], s.contexts[s.frames[n].ctx], s.pool, o);
    var f, e := s.frames[n], EffectOf(s, n, o);
    var contexts := s.contexts[f.ctx := e.ctx];
    if f.pc.Swap? {
      SwapHands(s, n, o);
      PoolSwaps(s, n, e.frame, e.ctx);
    } else {
      SameNamesUpdate(s.contexts, f.ctx, e.ctx);
      if f.pc.AllocCleanup? { CopyIsOld(s, n); }
      if InUpdate(f.pc) {
        UpdateHands(s, n, o);
      } else if f.pc.FreeCopy? {
        FreeCopyHands(s, n, o);
      } else {
        CleanupHands(s, n, o);
      }
      if Kept(s, n, e) {
        PoolQuiet(s, n, e.frame, contexts);
      } else if Took(s, n, e) {
        PoolTakes(s, n, e.frame, contexts);
      } else {
        var b :| Gave(s, n, e, b);
        PoolGives(s, n, e.frame, contexts, b);
      }
    }
  }

  lemma SwapHands(s: State, n: nat, o: Answer)
    requires n in s.frames && s.frames[n].ctx in s.contexts && s.frames[n].pc.Swap?
    ensures var e := EffectOf(s, n, o); var f := s.frames[n]; var was := s.contexts[f.ctx].current;
      var q := s.pool.(place := s.pool.place[f.pc.block := CurrentOf(f.ctx)]);
      && e.frame.pc == (if was.None? then Release else FreeOld(was.value.block))
      && e.pool == if was.None? then q else q.(place := q.place[was.value.block := Carried(n)])
  {}

  /** A step leaves hands and pool as they are, or takes a new block, or frees a block it holds. */
  ghost predicate Kept(s: State, n: nat, e: Effect)
    requires n in s.frames
  {
    e.pool == s.pool && Blocks(e.frame.pc) == Blocks(s.frames[n].pc)
  }

  ghost predicate Took(s: State, n: nat, e: Effect)
    requires n in s.frames
  {
    e.pool == Alloc(s.pool, Carried(n)) && Blocks(e.frame.pc) == Blocks(s.frames[n].pc) + {s.pool.next}
  }

  ghost predicate Gave(s: State, n: nat, e: Effect, b: nat)
    requires n in s.frames
  {
    b in Blocks(s.frames[n].pc) && e.pool == FreeBlock(s.pool, b) && Blocks(e.frame.pc) == Blocks(s.frames[n].pc) - {b}
  }

  lemma UpdateHands(s: State, n: nat, o: Answer)
    requires n in s.frames && s.frames[n].ctx in s.contexts && InUpdate(s.frames[n].pc) && !s.frames[n].pc.Swap?
    ensures var e := EffectOf(s, n, o);
      Apart(e.frame.pc) && (Kept(s, n, e) || Took(s, n, e) || exists b :: Gave(s, n, e, b))
  {
    var f, e := s.frames[n], EffectOf(s, n, o);
    if f.pc.SetInfoPending? || f.pc.FreeOld? {
      assert Gave(s, n, e, f.pc.block);
    }
  }

  lemma FreeCopyHands(s: State, n: nat, o: Answer)
    requires n in s.frames && s.frames[n].ctx in s.contexts && s.frames[n].pc.FreeCopy? && Apart(s.frames[n].pc)
    ensures var e := EffectOf(s, n, o);
      Apart(e.frame.pc) && (Kept(s, n, e) || Took(s, n, e) || exists b :: Gave(s, n, e, b))
  {
    var f, e := s.frames[n], EffectOf(s, n, o);
    if f.pc.job.copy.Some? {
      assert Gave(s, n, e, f.pc.job.copy.value);
    }
  }

  lemma CleanupHands(s: State, n: nat, o: Answer)
    requires n in s.frames && s.frames[n].ctx in s.contexts && InCleanup(s.frames[n].pc) && !s.frames[n].pc.FreeCopy?
    requires s.frames[n].pc.AllocCleanup? ==> s.frames[n].pc.job.copy != Some(s.pool.next)
    ensures var e := EffectOf(s, n, o); Apart(e.frame.pc) && (Kept(s, n, e) || Took(s, n, e))
  {
    hide EffectOf, Kept, Took, Apart;
    var pc := s.frames[n].pc;
    if pc.ReadFlags? || pc.Gate? || pc.CopyName? || pc.LiveQuery? {
      NameHands(s, n, o);
    } else {
      SendHands(s, n, o);
    }
  }

  lemma NameHands(s: State, n: nat, o: Answer)
    requires n in s.frames && s.frames[n].ctx in s.contexts
    requires var pc := s.frames[n].pc; pc.ReadFlags? || pc.Gate? || pc.CopyName? || pc.LiveQuery?
    ensures var e := EffectOf(s, n, o); Apart(e.frame.pc) && (Kept(s, n, e) || Took(s, n, e))
  {}

  lemma SendHands(s: State, n: nat, o: Answer)
    requires n in s.frames && s.frames[n].ctx in s.contexts
    requires var pc := s.frames[n].pc;
      pc.Reconcile? || pc.SyncSend? || pc.MarkBackedUp? || pc.ElevatedEnqueue? || pc.AllocCleanup?
    requires s.frames[n].pc.AllocCleanup? ==> s.frames[n].pc.job.copy != Some(s.pool.next)
    ensures var e := EffectOf(s, n, o); Apart(e.frame.pc) && (Kept(s, n, e) || Took(s, n, e))
  {}

  lemma CopyIsOld(s: State, n: nat)
    requires PoolInv(s.pool, s.contexts, s.frames) && n in s.frames && s.frames[n].pc.AllocCleanup?
    ensures s.frames[n].pc.job.copy != Some(s.pool.next)
  {
    assert forall b :: b in Blocks(s.frames[n].pc) ==> b in s.pool.place;
  }

  lemma PublishKeeps(s: State, n: nat, o: Answer)
    requires Balanced(s) && n in s.frames && s.frames[n].pc.Attach?
    ensures Balanced(Advance(s, n, o))
  {
    hide PoolInv, RefInv, Holders, Handles;
    hide SameNames;
    SameNamesSelf(s.contexts);
    AliveContexts(s);
    var f := s.frames[n];
    var g := f.(pc := Release);
    assert s.contexts[f.ctx := s.contexts[f.ctx]] == s.contexts;
    RefsOfStep(s, n, g, s.contexts[f.ctx]);
    PoolQuiet(s, n, g, s.contexts);
    if o.success && f.pc.file !in s.attached {
      var t := s.(frames := s.frames[n := g]);
      RefsOfAttach(t, f.pc.file, f.ctx);
      SameNamesUpdate(t.contexts, f.ctx, Advance(s, n, o).contexts[f.ctx]);
      PoolQuiet(t, n, g, Advance(s, n, o).contexts);
      assert t.frames[n := g] == t.frames;
    }
  }

  lemma PartedRefs(s: State, n: nat)
    requires Balanced(s) && n in s.frames && (s.frames[n].pc.Release? || s.frames[n].pc.ReleaseThenPost?)
    requires s.frames[n].ctx in s.contexts
    ensures var t := Parted(s, n); RefOff(t.contexts, t.attached, t.frames, t.nextCtx, s.frames[n].ctx)
  {
    hide PoolInv, RefInv, RefOff, Holders, Handles;
    var c, t := s.frames[n].ctx, Parted(s, n);
    RefsOfLetGo(s, n, t.frames[n], t.contexts[c]);
  }

  lemma PartedHands(pc: Pc)
    requires pc.Release? || pc.ReleaseThenPost?
    ensures var after := if pc.Release? then Done else CleanupPending(pc.job, pc.block);
      Blocks(after) == Blocks(pc) && Apart(after)
  {}

  lemma PartedPool(s: State, n: nat)
    requires Balanced(s) && n in s.frames && (s.frames[n].pc.Release? || s.frames[n].pc.ReleaseThenPost?)
    requires s.frames[n].ctx in s.contexts
    ensures var t := Parted(s, n); PoolInv(t.pool, t.contexts, t.frames)
  {
    PartedHands(s.frames[n].pc);
    hide PoolInv, RefInv, Blocks, Apart, SameNames;
    var t, c := Parted(s, n), s.frames[n].ctx;
    SameNamesUpdate(s.contexts, c, t.contexts[c]);
    PoolQuiet(s, n, t.frames[n], t.contexts);
  }

  lemma LetGoKeeps(s: State, n: nat, o: Answer)
    requires Balanced(s) && n in s.frames && (s.frames[n].pc.Release? || s.frames[n].pc.ReleaseThenPost?)
    ensures Balanced(Advance(s, n, o))
  {
    hide PoolInv, RefInv, RefOff, Holders, Handles, Drop;
    AliveContexts(s);
    var c, t := s.frames[n].ctx, Parted(s, n);
    PartedRefs(s, n);
    PartedPool(s, n);
    hide Parted;
    RefsOfDrop(t, c);
    PoolDrops(t, c);
    DropLeaves(t, c);
  }

  lemma DropLeaves(s: State, c: nat)
    requires c in s.contexts
    ensures var t := Drop(s, c);
      (t.attached, t.frames, t.nextCtx, t.attempts, t.synced)
      == (s.attached, s.frames, s.nextCtx, s.attempts, s.synced)
    ensures Drop(s, c).contexts == if s.contexts[c].refs == 1 then s.contexts - {c}
        else s.contexts[c := s.contexts[c].(refs := s.contexts[c].refs - 1)]
  {}

  lemma AfterKeeps(s: State, n: nat, o: Answer)
    requires Balanced(s) && n in s.frames && (s.frames[n].pc.CleanupPending? || s.frames[n].pc.FreeCompletion?)
    ensures Balanced(Advance(s, n, o))
  {
    hide PoolInv, RefInv, Holders, Handles;
    hide SameNames;
    SameNamesSelf(s.contexts);
    AliveContexts(s);
    var g := Advance(s, n, o).frames[n];
    RefsOfEnd(s, n, g);
    if s.frames[n].pc.FreeCompletion? {
      PoolGives(s, n, g, s.contexts, s.frames[n].pc.block);
    } else {
      PoolQuiet(s, n, g, s.contexts);
    }
  }

  lemma BeginKeeps(s: State, n: nat, file: nat, pc: Pc)
    requires Balanced(s) && n !in s.frames && Blocks(pc) == {} && Apart(pc)
    requires !pc.CleanupPending? && !pc.FreeCompletion? && !pc.Done?
    ensures Balanced(Begin(s, n, file, pc).value)
  {
    hide PoolInv, RefInv, Holders, Handles, Blocks;
    hide SameNames;
    AliveContexts(s);
    if file in s.attached {
      var t := Begin(s, n, file, pc).value;
      var c := s.attached[file];
      RefsOfBegin(s, n, t.frames[n], t.contexts[c]);
      SameNamesUpdate(s.contexts, c, t.contexts[c]);
      PoolQuiet(s, n, t.frames[n], t.contexts);
    }
  }

  lemma BeginCleanupKeeps(s: State, n: nat, file: nat, passive: bool)
    requires Balanced(s) && BeginCleanup(s, n, file, passive).Some?
    ensures Balanced(BeginCleanup(s, n, file, passive).value)
  {
    hide PoolInv, RefInv, Holders, Handles;
    hide SameNames;
    AliveContexts(s);
    if file in s.attached {
      var t := BeginCleanup(s, n, file, passive).value;
      var c := s.attached[file];
      RefsOfBegin(s, n, t.frames[n], t.contexts[c]);
      SameNamesUpdate(s.contexts, c, t.contexts[c]);
      PoolQuiet(s, n, t.frames[n], t.contexts);
    }
  }

  lemma PostCreateKeeps(s: State, n: nat, file: nat, req: CreateRequest, name: Option<WString>, poolOk: bool)
    requires Balanced(s) && n !in s.frames
    ensures Balanced(PostCreate(s, n, file, req, name, poolOk))
  {
    hide PoolInv, RefInv, Holders, Handles, DecideWriteIntent;
    AliveContexts(s);
    var t := PostCreate(s, n, file, req, name, poolOk);
    if n in t.frames {
      RefsOfCreate(s, n, t.frames[n], t.contexts[s.nextCtx]);
      PoolCreates(s, n, t.frames[n], t.contexts[s.nextCtx]);
    }
  }

  lemma DetachKeeps(s: State, file: nat)
    requires Balanced(s) && file in s.attached
    ensures Balanced(Detach(s, file))
  {
    hide PoolInv, RefInv, Holders, Handles;
    AliveContexts(s);
    var t := s.(attached := s.attached - {file});
    RefsOfDetach(s, file);
    RefsOfDrop(t, s.attached[file]);
    PoolDrops(t, s.attached[file]);
  }

  lemma AdvanceKeeps(s: State, n: nat, o: Answer)
    requires Balanced(s) && n in s.frames && !s.frames[n].pc.Done?
    ensures Balanced(Advance(s, n, o))
  {
    hide *;
    var pc := s.frames[n].pc;
    if InStep(pc) {
      StepKeeps(s, n, o);
    } else if pc.Attach? {
      PublishKeeps(s, n, o);
    } else if pc.Release? || pc.ReleaseThenPost? {
      LetGoKeeps(s, n, o);
    } else {
      PcCases(pc);
      AfterKeeps(s, n, o);
    }
  }

  lemma PcCases(pc: Pc)
    ensures InStep(pc) || pc.Attach? || pc.Release? || pc.ReleaseThenPost?
      || pc.CleanupPending? || pc.FreeCompletion? || pc.Done?
  {}

  lemma NextKeeps(s: State, a: Action)
    requires Balanced(s) && Next(s, a).Some?
    ensures Balanced(Next(s, a).value)
  {
    hide Balanced;
    match a
    case Opened(n, file, req, name, poolOk) => PostCreateKeeps(s, n, file, req, name, poolOk);
    case Writing(n, file) => BeginKeeps(s, n, file, WritePending);
    case SettingInfo(n, file, info) =>
      var actions := GetSetInformationActions(info);
      if actions != NO_ACTIONS { BeginKeeps(s, n, file, AllocSetInfo(actions)); }
    case Mapping(n, file, writable) => BeginKeeps(s, n, file, if writable then Ops([OrModified], false) else Release);
    case Cleaning(n, file, passive) => BeginCleanupKeeps(s, n, file, passive);
    case Step(n, answer) => AdvanceKeeps(s, n, answer);
    case Close(file) => if file in s.attached { DetachKeeps(s, file); }
  }

  lemma InitialBalanced()
    ensures Balanced(Initial())
  {}

  lemma {:induction false} RunBalanced(acts: seq<Action>)
    requires Run(Initial(), acts).Some?
    ensures Balanced(Run(Initial(), acts).value)
  {
    if acts == [] {
      InitialBalanced();
    } else {
      RunBalanced(acts[..|acts| - 1]);
      NextKeeps(Run(Initial(), acts[..|acts| - 1]).value, acts[|acts| - 1]);
    }
  }

  lemma ReachableBalanced(s: State)
    requires Reachable(s)
    ensures Balanced(s)
  {
    var acts: seq<Action> :| Run(Initial(), acts) == Some(s);
    RunBalanced(acts);
  }

  // ----- what it means -----

  /** Every reference is that of an attached handle or of a callback that has yet to release it. */
  lemma ReferencesAreAccountedFor(s: State, c: nat)
    requires Reachable(s) && c in s.contexts
    ensures s.contexts[c].refs
      == |set h | h in s.attached && s.attached[h] == c|
         + |set n | n in s.frames && HoldsRef(s.frames[n]) && s.frames[n].ctx == c|
    ensures s.contexts[c].refs >= 1
  {
    ReachableBalanced(s);
    assert Matching(s.attached, To(c)) == set h | h in s.attached && s.attached[h] == c;
    assert Matching(s.frames, Holding(c)) == set n | n in s.frames && HoldsRef(s.frames[n]) && s.frames[n].ctx == c;
  }

  /** No callback ever looks at a context that has been freed. */
  lemma NoUseAfterFree(s: State, n: nat)
    requires Reachable(s) && n in s.frames && HoldsRef(s.frames[n])
    ensures s.frames[n].ctx in s.contexts
    ensures forall b :: b in Blocks(s.frames[n].pc) ==> b in s.pool.place && !s.pool.place[b].Freed?
  {
    ReachableBalanced(s);
  }

  ghost predicate IsName(s: State, b: nat) {
    exists c :: c in s.contexts && (
      (s.contexts[c].original.Some? && s.contexts[c].original.value.block == b)
      || (s.contexts[c].current.Some? && s.contexts[c].current.value.block == b))
  }

  ghost predicate InHand(s: State, b: nat) {
    exists n :: n in s.frames && b in Blocks(s.frames[n].pc)
  }

  /**
   The blocks that are allocated and not freed are the names of live contexts and what callbacks
   carry, each freed at most once.
   */
  lemma LiveBlocks(s: State, b: nat)
    requires Reachable(s)
    ensures b < s.pool.next && s.pool.frees[b] == 0 <==> IsName(s, b) || InHand(s, b)
    ensures s.pool.frees[b] <= 1
  {
    ReachableBalanced(s);
    if b in s.pool.place {
      assert Owned(b, s.pool.place[b], s.contexts, s.frames);
    }
    if IsName(s, b) {
      var c :| c in s.contexts && (
        (s.contexts[c].original.Some? && s.contexts[c].original.value.block == b)
        || (s.contexts[c].current.Some? && s.contexts[c].current.value.block == b));
      assert NamesAt(s.pool.place, c, s.contexts[c]);
    }
  }

  /**
   Once every callback has finished and every handle is closed, no context is left and every block
   was freed exactly once.
   */
  lemma NothingLeaks(s: State)
    requires Reachable(s) && s.attached == map[] && forall n :: n in s.frames ==> s.frames[n].pc.Done?
    ensures s.contexts == map[]
    ensures forall b: nat :: s.pool.frees[b] == if b < s.pool.next then 1 else 0
  {
    ReachableBalanced(s);
    forall c | c in s.contexts ensures false {
      NobodyHolds(s.attached, s.frames, c);
    }
    forall b | b in s.pool.place ensures s.pool.place[b].Freed? {
      assert Owned(b, s.pool.place[b], s.contexts, s.frames);
    }
  }
}
