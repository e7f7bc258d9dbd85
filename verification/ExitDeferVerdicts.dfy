/**
 What the deferred-exit machine announces, and for whom: each entry is the event of the callback that
 allocated it, and a callback's event is announced unless it met an obstacle; and the stop can return.
 */
module ExitDeferVerdicts {
  import opened Options
  import opened ExitDefer

  // ----- whose entry it is -----

  /** The run began producer n with that event. */
  ghost predicate Begun(acts: seq<Action>, n: nat, what: Event) {
    exists i :: 0 <= i < |acts| && acts[i] == Begin(n, what)
  }

  lemma BegunGrows(acts: seq<Action>, a: Action)
    ensures forall n, what :: Begun(acts, n, what) ==> Begun(acts + [a], n, what)
    ensures a.Begin? ==> Begun(acts + [a], a.n, a.what)
  {
    assert forall i :: 0 <= i < |acts| ==> (acts + [a])[i] == acts[i];
    assert (acts + [a])[|acts|] == a;
  }

  /** Which producer allocated which ticket. */
  function Owners(acts: seq<Action>): map<nat, nat>
    requires Run(Initial(), acts).Some?
  {
    if acts == [] then map[]
    else
      var front, a := acts[..|acts| - 1], acts[|acts| - 1];
      var s := Run(Initial(), front).value;
      if a.Produce? && a.poolOk && a.n in s.producers && s.producers[a.n].Allocate?
      then Owners(front)[s.h.tickets + 1 := a.n]
      else Owners(front)
  }

  // ----- what a producer meets -----

  datatype Obstacle = NotRunning | NoMemory | TooLate

  function Hit(g: Shared, p: Producer, poolOk: bool): Option<Obstacle> {
    match p
    case TestRunning(_) => if g.running then None else Some(NotRunning)
    case Allocate(_) => if poolOk then None else Some(NoMemory)
    case Insert(_) => if g.running && !g.stop then None else Some(TooLate)
    case _ => None
  }

  function MetBy(acts: seq<Action>, n: nat): Option<Obstacle>
    requires Run(Initial(), acts).Some?
  {
    if acts == [] then None
    else
      var front, a := acts[..|acts| - 1], acts[|acts| - 1];
      var s := Run(Initial(), front).value;
      var hit := if a.Produce? && a.n == n && n in s.producers then Hit(s.g, s.producers[n], a.poolOk) else None;
      if hit.Some? then hit else MetBy(front, n)
  }

  // ----- the invariant -----

  ghost predicate Sound(acts: seq<Action>, owners: map<nat, nat>, e: Entry) {
    e.ticket in owners && Begun(acts, owners[e.ticket], e.event)
  }

  ghost predicate InsertedBy(owners: map<nat, nat>, inserted: seq<Entry>, n: nat) {
    exists e :: e in inserted && e.ticket in owners && owners[e.ticket] == n
  }

  ghost predicate Owns(owners: map<nat, nat>, n: nat) { exists k :: k in owners && owners[k] == n }

  /** Where producer n stands, by what it has met and what is inserted. */
  ghost predicate Stands(acts: seq<Action>, owners: map<nat, nat>, inserted: seq<Entry>,
                         n: nat, p: Producer, met: Option<Obstacle>)
  {
    match p
    case TestRunning(what) => Begun(acts, n, what) && !Owns(owners, n) && met == None
    case Allocate(what) => Begun(acts, n, what) && !Owns(owners, n) && met == None
    case Insert(e) => Sound(acts, owners, e) && owners[e.ticket] == n && !InsertedBy(owners, inserted, n) && met == None
    case FreeRejected(e) => !InsertedBy(owners, inserted, n) && met == Some(TooLate)
    case Signal => InsertedBy(owners, inserted, n) && met == None
    case Done => InsertedBy(owners, inserted, n) <==> met == None
  }

  ghost predicate OwnersInv(owners: map<nat, nat>, tickets: nat, producers: map<nat, Producer>) {
    && (forall k :: k in owners ==> 1 <= k <= tickets && owners[k] in producers)
    && (forall j, k :: j in owners && k in owners && owners[j] == owners[k] ==> j == k)
  }

  ghost predicate SoundInv(acts: seq<Action>, owners: map<nat, nat>, inserted: seq<Entry>) {
    forall e :: e in inserted ==> Sound(acts, owners, e)
  }

  ghost predicate StandsInv(acts: seq<Action>, s: State)
    requires Run(Initial(), acts) == Some(s)
  {
    forall n :: n in s.producers ==> Stands(acts, Owners(acts), s.h.inserted, n, s.producers[n], MetBy(acts, n))
  }

  ghost predicate VerdictInv(acts: seq<Action>)
    requires Run(Initial(), acts).Some?
  {
    var s := Run(Initial(), acts).value;
    && OwnersInv(Owners(acts), s.h.tickets, s.producers) && SoundInv(acts, Owners(acts), s.h.inserted)
    && StandsInv(acts, s)
    && (forall n :: n !in s.producers ==> MetBy(acts, n) == None)
  }

  // ----- steps -----

  /** What a step of producer n may add: tickets and entries of its own. */
  ghost predicate Extends(owners: map<nat, nat>, inserted: seq<Entry>, more: map<nat, nat>, longer: seq<Entry>,
                          n: nat) {
    && (forall k :: k in owners ==> k in more && more[k] == owners[k])
    && (forall k :: k in more && k !in owners ==> more[k] == n)
    && (forall e :: e in inserted ==> e in longer)
    && (forall e :: e in longer && e !in inserted ==> e.ticket in more && more[e.ticket] == n)
  }

  lemma SoundGrows(acts: seq<Action>, a: Action, owners: map<nat, nat>, more: map<nat, nat>, e: Entry)
    requires Sound(acts, owners, e) && forall k :: k in owners ==> k in more && more[k] == owners[k]
    ensures Sound(acts + [a], more, e)
  {
    BegunGrows(acts, a);
    hide Begun;
  }

  lemma InsertedStays(owners: map<nat, nat>, inserted: seq<Entry>, more: map<nat, nat>, longer: seq<Entry>,
                      n: nat, m: nat)
    requires Extends(owners, inserted, more, longer, n) && m != n && forall e :: e in inserted ==> e.ticket in owners
    ensures InsertedBy(more, longer, m) <==> InsertedBy(owners, inserted, m)
    ensures Owns(more, m) <==> Owns(owners, m)
  {
    if InsertedBy(more, longer, m) {
      var e :| e in longer && e.ticket in more && more[e.ticket] == m;
      assert e in inserted;
    }
    if InsertedBy(owners, inserted, m) {
      var e :| e in inserted && e.ticket in owners && owners[e.ticket] == m;
      assert e in longer;
    }
    if Owns(owners, m) {
      var k :| k in owners && owners[k] == m;
      assert k in more;
    }
  }

  lemma OtherStands(acts: seq<Action>, a: Action, owners: map<nat, nat>, inserted: seq<Entry>,
                    more: map<nat, nat>, longer: seq<Entry>, n: nat, m: nat, p: Producer, met: Option<Obstacle>)
    requires Stands(acts, owners, inserted, m, p, met) && SoundInv(acts, owners, inserted)
    requires Extends(owners, inserted, more, longer, n) && m != n
    ensures Stands(acts + [a], more, longer, m, p, met)
  {
    assert forall e :: e in inserted ==> Sound(acts, owners, e);
    InsertedStays(owners, inserted, more, longer, n, m);
    BegunGrows(acts, a);
    if p.Insert? { SoundGrows(acts, a, owners, more, p.e); }
    hide Begun, InsertedBy, Owns, SoundInv;
  }

  lemma SoundInvGrows(acts: seq<Action>, a: Action, owners: map<nat, nat>, inserted: seq<Entry>,
                      more: map<nat, nat>, longer: seq<Entry>)
    requires SoundInv(acts, owners, inserted) && (forall k :: k in owners ==> k in more && more[k] == owners[k])
    requires forall e :: e in longer ==> e in inserted || Sound(acts, owners, e)
    ensures SoundInv(acts + [a], more, longer)
  {
    forall e | e in longer ensures Sound(acts + [a], more, e) {
      assert Sound(acts, owners, e);
      SoundGrows(acts, a, owners, more, e);
    }
  }

  /** One step of producer n, with its tickets and entries before and after. */
  lemma OwnStands(acts: seq<Action>, a: Action, owners: map<nat, nat>, g: Shared, h: History, n: nat, p: Producer,
                  poolOk: bool, locked: bool, met: Option<Obstacle>)
    requires Stands(acts, owners, h.inserted, n, p, met) && SoundInv(acts, owners, h.inserted)
    requires OwnersBelow(owners, h.tickets) && ProducerStep(g, h, n, p, poolOk, locked).Some?
    ensures var x := ProducerStep(g, h, n, p, poolOk, locked).value;
      var more := if p.Allocate? && poolOk then owners[h.tickets + 1 := n] else owners;
      var hit := Hit(g, p, poolOk);
      && Extends(owners, h.inserted, more, x.2.inserted, n)
      && Stands(acts + [a], more, x.2.inserted, n, x.0, if hit.Some? then hit else met)
      && (forall e :: e in x.2.inserted ==> e in h.inserted || Sound(acts, owners, e))
  {
    BegunGrows(acts, a);
    assert forall e :: e in h.inserted ==> Sound(acts, owners, e);
    match p
    case Allocate(what) => if poolOk { AllocateStands(acts, a, owners, h, n, what); }
    case Insert(e) => if !locked { InsertStands(acts, a, owners, g, h, n, e); }
    case _ =>
    hide Begun;
  }

  /** Tickets are numbered as they are given out. */
  predicate OwnersBelow(owners: map<nat, nat>, tickets: nat) {
    forall k :: k in owners ==> 1 <= k <= tickets
  }

  lemma AllocateStands(acts: seq<Action>, a: Action, owners: map<nat, nat>, h: History, n: nat, what: Event)
    requires Stands(acts, owners, h.inserted, n, Allocate(what), None) && SoundInv(acts, owners, h.inserted)
    requires OwnersBelow(owners, h.tickets)
    ensures var more, e := owners[h.tickets + 1 := n], Entry(h.tickets + 1, what);
      && Extends(owners, h.inserted, more, h.inserted, n)
      && Stands(acts + [a], more, h.inserted, n, Insert(e), None)
  {
    var more, e := owners[h.tickets + 1 := n], Entry(h.tickets + 1, what);
    BegunGrows(acts, a);
    assert Sound(acts + [a], more, e);
    forall x | x in h.inserted ensures more[x.ticket] != n {
      assert Sound(acts, owners, x);
      assert owners[x.ticket] != n by { assert !Owns(owners, n); }
    }
    hide Begun;
  }

  lemma InsertStands(acts: seq<Action>, a: Action, owners: map<nat, nat>, g: Shared, h: History, n: nat, e: Entry)
    requires Stands(acts, owners, h.inserted, n, Insert(e), None)
    ensures Extends(owners, h.inserted, owners, h.inserted + [e], n)
    ensures Stands(acts + [a], owners, h.inserted + [e], n, Signal, None)
    ensures Stands(acts + [a], owners, h.inserted, n, FreeRejected(e), Some(TooLate))
  {
    assert e in h.inserted + [e];
  }

  // ----- runs -----

  /** What an action does to owners and obstacles, one action after a run. */
  lemma RunGrows(acts: seq<Action>)
    requires acts != [] && Run(Initial(), acts).Some?
    ensures var front, a := acts[..|acts| - 1], acts[|acts| - 1];
      && Run(Initial(), front).Some? && Next(Run(Initial(), front).value, a) == Run(Initial(), acts)
      && front + [a] == acts
  {}

  lemma BeginVerdict(acts: seq<Action>, n: nat, what: Event)
    requires VerdictInvAt(acts)
    requires Run(Initial(), acts + [Begin(n, what)]).Some?
    ensures VerdictInvAt(acts + [Begin(n, what)])
  {
    var a := Begin(n, what);
    var longer := acts + [a];
    RunGrows(longer);
    assert longer[..|acts|] == acts;
    var s, t := Run(Initial(), acts).value, Run(Initial(), longer).value;
    var owners := Owners(acts);
    assert Owners(longer) == owners;
    BegunGrows(acts, a);
    assert Extends(owners, s.h.inserted, owners, s.h.inserted, n);
    SoundInvGrows(acts, a, owners, s.h.inserted, owners, s.h.inserted);
    assert forall m :: MetBy(longer, m) == MetBy(acts, m);
    assert n !in s.producers && MetBy(acts, n) == None;
    hide Run, Owners, MetBy, Begun, Sound;
    forall m | m in t.producers ensures Stands(longer, owners, t.h.inserted, m, t.producers[m], MetBy(acts, m)) {
      if m != n {
        assert t.producers[m] == s.producers[m];
        OtherStands(acts, a, owners, s.h.inserted, owners, s.h.inserted, n, m, s.producers[m], MetBy(acts, m));
      }
    }
  }

  /** The invariant, with the run found. */
  ghost predicate VerdictInvAt(acts: seq<Action>) {
    Run(Initial(), acts).Some? && VerdictInv(acts)
  }

  /** Workers and the control leave producers, tickets and insertions alone. */
  lemma QuietVerdict(acts: seq<Action>, a: Action)
    requires VerdictInvAt(acts) && (a.Work? || a.Manage?) && Run(Initial(), acts + [a]).Some?
    ensures VerdictInvAt(acts + [a])
  {
    var longer := acts + [a];
    RunGrows(longer);
    assert longer[..|acts|] == acts;
    var s, t := Run(Initial(), acts).value, Run(Initial(), longer).value;
    var owners := Owners(acts);
    assert Owners(longer) == owners && forall m :: MetBy(longer, m) == MetBy(acts, m);
    QuietStep(s, a);
    assert Extends(owners, s.h.inserted, owners, s.h.inserted, 0);
    SoundInvGrows(acts, a, owners, s.h.inserted, owners, s.h.inserted);
    hide Run, Owners, MetBy, Sound, Next;
    forall m | m in t.producers ensures Stands(longer, owners, t.h.inserted, m, t.producers[m], MetBy(acts, m)) {
      OtherStands(acts, a, owners, s.h.inserted, owners, s.h.inserted, m + 1, m, s.producers[m], MetBy(acts, m));
    }
  }

  lemma QuietStep(s: State, a: Action)
    requires (a.Work? || a.Manage?) && Next(s, a).Some?
    ensures var t := Next(s, a).value;
      (t.producers, t.h.inserted, t.h.tickets) == (s.producers, s.h.inserted, s.h.tickets)
  {}

  lemma ProduceVerdict(acts: seq<Action>, n: nat, poolOk: bool)
    requires VerdictInvAt(acts) && Run(Initial(), acts + [Produce(n, poolOk)]).Some?
    ensures VerdictInvAt(acts + [Produce(n, poolOk)])
  {
    var a := Produce(n, poolOk);
    var longer := acts + [a];
    RunGrows(longer);
    assert longer[..|acts|] == acts;
    var s, t := Run(Initial(), acts).value, Run(Initial(), longer).value;
    var owners, p := Owners(acts), s.producers[n];
    OwnStands(acts, a, owners, s.g, s.h, n, p, poolOk, s.worker.Clearing?, MetBy(acts, n));
    ProduceLands(s, n, poolOk);
    var more := Owners(longer);
    assert more == if p.Allocate? && poolOk then owners[s.h.tickets + 1 := n] else owners;
    assert forall m :: m != n ==> MetBy(longer, m) == MetBy(acts, m);
    SoundInvGrows(acts, a, owners, s.h.inserted, more, t.h.inserted);
    assert Stands(longer, more, t.h.inserted, n, t.producers[n], MetBy(longer, n));
    assert OwnersInv(more, t.h.tickets, t.producers) by {
      if p.Allocate? && poolOk { assert !Owns(owners, n); }
    }
    hide Run, Owners, MetBy, Sound, Next, ProducerStep, SoundInv;
    forall m | m in t.producers ensures Stands(longer, more, t.h.inserted, m, t.producers[m], MetBy(longer, m)) {
      if m != n {
        assert SoundInv(acts, owners, s.h.inserted);
        OtherStands(acts, a, owners, s.h.inserted, more, t.h.inserted, n, m, s.producers[m], MetBy(acts, m));
      }
    }
  }

  lemma ProduceLands(s: State, n: nat, poolOk: bool)
    requires Next(s, Produce(n, poolOk)).Some?
    ensures n in s.producers && ProducerStep(s.g, s.h, n, s.producers[n], poolOk, s.worker.Clearing?).Some?
    ensures var x := ProducerStep(s.g, s.h, n, s.producers[n], poolOk, s.worker.Clearing?).value;
      var t := Next(s, Produce(n, poolOk)).value;
      && t.producers == s.producers[n := x.0] && t.h == x.2
      && t.h.tickets == s.h.tickets + if s.producers[n].Allocate? && poolOk then 1 else 0
  {}

  lemma {:induction false} RunVerdicts(acts: seq<Action>)
    requires Run(Initial(), acts).Some?
    ensures VerdictInvAt(acts)
  {
    if acts != [] {
      var front, a := acts[..|acts| - 1], acts[|acts| - 1];
      assert acts == front + [a];
      RunVerdicts(front);
      hide VerdictInvAt;
      match a
      case Begin(n, what) => BeginVerdict(front, n, what);
      case Produce(n, poolOk) => ProduceVerdict(front, n, poolOk);
      case Work => QuietVerdict(front, a);
      case Manage => QuietVerdict(front, a);
    }
  }

  // ----- the results -----

  /**
   Over any run every entry that was inserted, and so every one the worker took or tried to push and
   every one the drain removed, carries the event its own producer was begun with; different entries
   are different producers'.
   */
  lemma EntriesAreTheirs(acts: seq<Action>, e: Entry)
    requires Run(Initial(), acts).Some?
    requires var h := Run(Initial(), acts).value.h;
      e in h.inserted || e in h.taken || e in h.attempted || e in h.drained
    ensures e in Run(Initial(), acts).value.h.inserted
    ensures e.ticket in Owners(acts) && Begun(acts, Owners(acts)[e.ticket], e.event)
    ensures forall k :: k in Owners(acts) && Owners(acts)[k] == Owners(acts)[e.ticket] ==> k == e.ticket
  {
    RunVerdicts(acts);
    RunInv(acts);
    var s := Run(Initial(), acts).value;
    assert OrderInv(s.g, s.h, s.worker, s.control);
    assert e in s.h.attempted ==> e in s.h.taken;
    assert Sound(acts, Owners(acts), e);
    hide Run, Owners, Begun;
  }

  /** A callback that is over had its event inserted exactly unless it met the stopped machine or got no memory. */
  lemma EventIsInsertedUnlessMet(acts: seq<Action>, n: nat)
    requires Run(Initial(), acts).Some?
    requires n in Run(Initial(), acts).value.producers && Run(Initial(), acts).value.producers[n].Done?
    ensures MetBy(acts, n) == None <==>
      exists e :: e in Run(Initial(), acts).value.h.inserted && e.ticket in Owners(acts)
        && Owners(acts)[e.ticket] == n && Begun(acts, n, e.event)
  {
    RunVerdicts(acts);
    var s := Run(Initial(), acts).value;
    assert Stands(acts, Owners(acts), s.h.inserted, n, s.producers[n], MetBy(acts, n));
    hide Run, Owners, Begun, MetBy;
    if InsertedBy(Owners(acts), s.h.inserted, n) {
      var e :| e in s.h.inserted && e.ticket in Owners(acts) && Owners(acts)[e.ticket] == n;
      assert Sound(acts, Owners(acts), e);
    }
  }

  // ----- the stop returns -----

  /** Steps the stop may still take once the worker is gone. */
  function StopRank(s: State): nat {
    2 * |s.g.list| + (
      match s.control
      case Active => 6
      case SetFlags => 5
      case FinalSignal => 4
      case Join => 3
      case Drain => 1
      case FreeDrained(_) => 2
      case Finished => 0)
  }

  /** Once the worker has left, the stop always goes on, and comes to its end. */
  lemma StopReturns(s: State)
    requires Signalled(s.control) && s.worker.Exited? && !s.control.Finished?
    ensures Next(s, Manage).Some? && StopRank(Next(s, Manage).value) < StopRank(s)
    ensures Signalled(Next(s, Manage).value.control) && Next(s, Manage).value.worker.Exited?
  {}

  /** A callback always goes on, save for the lock, and comes to its end. */
  function ProducerRank(p: Producer): nat {
    match p
    case TestRunning(_) => 4
    case Allocate(_) => 3
    case Insert(_) => 2
    case FreeRejected(_) => 1
    case Signal => 1
    case Done => 0
  }

  lemma ProducersEnd(s: State, n: nat, poolOk: bool)
    requires n in s.producers && !s.producers[n].Done? && !s.worker.Clearing?
    ensures Next(s, Produce(n, poolOk)).Some?
    ensures var t := Next(s, Produce(n, poolOk)).value;
      n in t.producers && ProducerRank(t.producers[n]) < ProducerRank(s.producers[n])
  {}
}
