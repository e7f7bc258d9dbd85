/**
 How many child passes the boot snapshot needs: a number that anyone can read off the process list
 before the snapshot, and that decides exactly what it captures.
 */
module SnapshotBound {
  import opened Options
  import opened WideText
  import opened TrackModel
  import opened Snapshot
  import Tally

  /** The position of a process in the list. */
  function Position(procs: seq<Proc>, pid: Pid): (i: nat)
    ensures i <= |procs|
    ensures i < |procs| ==> procs[i].pid == pid
    ensures forall j :: 0 <= j < i ==> procs[j].pid != pid
  {
    if procs == [] then 0
    else
      var i := Position(procs[..|procs| - 1], pid);
      if i < |procs| - 1 then i else if procs[|procs| - 1].pid == pid then i else i + 1
  }

  /**
   The child pass that captures a process, looking at most k links up: none for a root, the first
   for a child of a root; any other process follows its parent in the same pass when it is listed
   later, and needs one more pass when it is listed earlier.
   */
  function PassOf(w: World, procs: seq<Proc>, pid: Pid, k: nat): Option<nat>
    decreases k
  {
    var links := Links(procs);
    if pid !in links then None
    else if IsRoot(w, pid) then Some(0)
    else if k == 0 then None
    else
      var up :- PassOf(w, procs, links[pid], k - 1);
      Some(up + if IsRoot(w, links[pid]) || Position(procs, pid) < Position(procs, links[pid]) then 1 else 0)
  }

  /** Every listed process that has a root above it is captured within n child passes. */
  predicate Prompt(w: World, procs: seq<Proc>, n: nat) {
    forall i :: 0 <= i < |procs| ==>
      var pass := PassOf(w, procs, procs[i].pid, |procs|);
      pass.Some? ==> pass.value <= n
  }

  // ----- the number does not depend on how far one looks -----

  lemma {:induction false} PassOfNearest(w: World, procs: seq<Proc>, pid: Pid, k: nat)
    ensures PassOf(w, procs, pid, k).Some? <==> Nearest(w, Links(procs), pid, k).Some?
    decreases k
  {
    if pid in Links(procs) && !IsRoot(w, pid) && k > 0 {
      PassOfNearest(w, procs, Links(procs)[pid], k - 1);
    }
  }

  lemma {:induction false} PassOfMonotone(w: World, procs: seq<Proc>, pid: Pid, k: nat, n: nat)
    requires k <= n && PassOf(w, procs, pid, k).Some?
    ensures PassOf(w, procs, pid, n) == PassOf(w, procs, pid, k)
    decreases k
  {
    if !IsRoot(w, pid) {
      PassOfMonotone(w, procs, Links(procs)[pid], k - 1, n - 1);
    }
  }

  /** Processes at distances up to k: pairwise different, so there are at least k + 1 of them. */
  lemma {:induction false} FarNeedsMany(w: World, links: map<Pid, Pid>, pid: Pid, k: nat) returns (line: set<Pid>)
    requires Nearest(w, links, pid, k).Some? && (k > 0 ==> Nearest(w, links, pid, k - 1).None?)
    ensures line <= links.Keys && |line| == k + 1
    ensures forall p :: p in line ==> Nearest(w, links, p, k).Some?
    decreases k
  {
    line := {};
    if k > 0 {
      var above := FarNeedsMany(w, links, links[pid], k - 1);
      forall p | p in above ensures Nearest(w, links, p, k).Some? {
        NearestMonotone(w, links, p, k - 1, k);
      }
      assert pid !in above;
      line := above;
    }
    line := line + {pid};
  }

  lemma {:induction false} LinksSize(procs: seq<Proc>)
    ensures |Links(procs)| <= |procs|
  {
    if procs != [] {
      LinksSize(procs[..|procs| - 1]);
    }
  }

  /** A root that is above a process at all is within as many links as there are processes. */
  lemma {:induction false} LooksFarEnough(w: World, procs: seq<Proc>, pid: Pid, k: nat)
    requires Nearest(w, Links(procs), pid, k).Some?
    ensures Nearest(w, Links(procs), pid, |procs|).Some?
    decreases k
  {
    var links := Links(procs);
    if k <= |procs| {
      NearestMonotone(w, links, pid, k, |procs|);
    } else if Nearest(w, links, pid, k - 1).Some? {
      LooksFarEnough(w, procs, pid, k - 1);
    } else {
      var line := FarNeedsMany(w, links, pid, k);
      LinksSize(procs);
      Tally.SubsetSize(line, links.Keys);
    }
  }

  /** Looking as far as the list is long settles both whether a process is reached and when. */
  lemma PassOfSettles(w: World, procs: seq<Proc>, pid: Pid, k: nat)
    requires |procs| <= k
    ensures PassOf(w, procs, pid, k) == PassOf(w, procs, pid, |procs|)
    ensures PassOf(w, procs, pid, k).Some? <==> Reaches(w, Links(procs), pid)
  {
    PassOfNearest(w, procs, pid, k);
    PassOfNearest(w, procs, pid, |procs|);
    if Reaches(w, Links(procs), pid) {
      var n: nat :| Nearest(w, Links(procs), pid, n).Some?;
      LooksFarEnough(w, procs, pid, n);
      PassOfMonotone(w, procs, pid, |procs|, k);
    }
  }

  // ----- a pass captures exactly what is due -----

  /** Captured by the end of n child passes, or early in the next one, before position i. */
  predicate Due(w: World, procs: seq<Proc>, pid: Pid, n: nat, i: nat) {
    var pass := PassOf(w, procs, pid, |procs|);
    pass.Some? && (pass.value <= n || (pass.value == n + 1 && Position(procs, pid) < i))
  }

  ghost predicate OnTime(w: World, procs: seq<Proc>, m: Tracked, n: nat, i: nat) {
    forall p :: p in m <==> Due(w, procs, p, n, i)
  }

  lemma {:induction false} OwnParent(w: World, links: map<Pid, Pid>, pid: Pid, k: nat)
    requires pid in links && links[pid] == pid && !IsRoot(w, pid)
    ensures Nearest(w, links, pid, k).None?
    decreases k
  {
    if k > 0 {
      OwnParent(w, links, pid, k - 1);
    }
  }

  /** The number of a process that is no root, from its parent's. */
  lemma PassOfChild(w: World, procs: seq<Proc>, pid: Pid)
    requires pid in Links(procs) && !IsRoot(w, pid)
    ensures var (own, up) := (PassOf(w, procs, pid, |procs|), PassOf(w, procs, Links(procs)[pid], |procs|));
      && (own.Some? <==> up.Some?)
      && (own.Some? ==>
            own.value == up.value
              + if IsRoot(w, Links(procs)[pid]) || Position(procs, pid) < Position(procs, Links(procs)[pid])
                then 1 else 0)
  {
    PassOfSettles(w, procs, pid, |procs| + 1);
    PassOfSettles(w, procs, Links(procs)[pid], |procs|);
  }

  lemma PositionOf(procs: seq<Proc>, i: nat)
    requires DistinctPids(procs) && i < |procs|
    ensures Position(procs, procs[i].pid) == i
  {
    var j := Position(procs, procs[i].pid);
    assert j <= i;
  }

  /** The process at position i is due at its turn exactly when it is tracked or its parent is. */
  lemma DueAtItsTurn(w: World, procs: seq<Proc>, n: nat, i: nat)
    requires DistinctPids(procs) && i < |procs|
    ensures var x := procs[i];
      Due(w, procs, x.pid, n, i + 1) <==>
        Due(w, procs, x.pid, n, i) || (x.pid != 0 && x.parent != 0 && Due(w, procs, x.parent, n, i))
  {
    var (x, links) := (procs[i], Links(procs));
    LinksAreTheList(procs);
    PositionOf(procs, i);
    if x.pid != 0 && !IsRoot(w, x.pid) {
      PassOfChild(w, procs, x.pid);
      if x.parent == x.pid {
        OwnParent(w, links, x.pid, |procs|);
        PassOfNearest(w, procs, x.pid, |procs|);
      }
      if Position(procs, x.parent) == i {
        assert x.parent == x.pid;
      }
    }
  }

  lemma {:induction false} PassOnTime(w: World, m: Tracked, procs: seq<Proc>, pool: Pool, n: nat, i: nat)
    requires DistinctPids(procs) && AlwaysOk(pool, procs) && i <= |procs| && OnTime(w, procs, m, n, 0)
    ensures OnTime(w, procs, Pass(w, m, procs, true, pool, i), n, i)
  {
    hide OnTime, AlwaysOk, DistinctPids;
    if i > 0 {
      PassOnTime(w, m, procs, pool, n, i - 1);
      VisitOnTime(w, Pass(w, m, procs, true, pool, i - 1), procs, pool, n, i - 1);
    }
  }

  lemma VisitOnTime(w: World, m: Tracked, procs: seq<Proc>, pool: Pool, n: nat, i: nat)
    requires DistinctPids(procs) && AlwaysOk(pool, procs) && i < |procs| && OnTime(w, procs, m, n, i)
    ensures OnTime(w, procs, Visit(w, m, procs[i], true, pool), n, i + 1)
  {
    DueAtItsTurn(w, procs, n, i);
    OthersWait(w, procs, n, i);
    VisitTracks(w, m, procs[i], pool);
    hide Due, Visit, DistinctPids;
  }

  lemma VisitTracks(w: World, m: Tracked, p: Proc, pool: Pool)
    requires pool(p.pid)
    ensures forall q :: q in Visit(w, m, p, true, pool) <==>
      q in m || (q == p.pid && p.pid != 0 && p.parent != 0 && p.parent in m)
  {}

  lemma OthersWait(w: World, procs: seq<Proc>, n: nat, i: nat)
    requires i < |procs|
    ensures forall p :: p != procs[i].pid ==> (Due(w, procs, p, n, i + 1) <==> Due(w, procs, p, n, i))
  {}

  lemma {:induction false} RootPassOnTime(w: World, procs: seq<Proc>, pool: Pool)
    requires DistinctPids(procs) && AlwaysOk(pool, procs)
    ensures OnTime(w, procs, WholePass(w, map[], procs, false, pool), 0, 0)
  {
    var m, links := WholePass(w, map[], procs, false, pool), Links(procs);
    LinksAreTheList(procs);
    RootPassIsExact(w, procs, pool, |procs|);
    PassIsSound(w, map[], procs, false, pool, |procs|);
    forall p ensures p in m <==> Due(w, procs, p, 0, 0) {
      if p in links && IsRoot(w, p) {
        var i :| 0 <= i < |procs| && procs[i] == Proc(p, links[p]);
        PassCatches(w, map[], procs, false, pool, i);
      } else if !IsRoot(w, p) {
        NoRootNeedsPass(w, procs, p, |procs|);
      }
    }
  }

  lemma {:induction false} NoRootNeedsPass(w: World, procs: seq<Proc>, pid: Pid, k: nat)
    requires !IsRoot(w, pid)
    ensures PassOf(w, procs, pid, k) != Some(0)
    decreases k
  {
    if pid in Links(procs) && k > 0 && !IsRoot(w, Links(procs)[pid]) {
      NoRootNeedsPass(w, procs, Links(procs)[pid], k - 1);
    }
  }

  // ----- the result -----

  /** After n child passes exactly the processes are tracked whose number is at most n. */
  lemma {:induction false} SnapshotIsOnTime(w: World, procs: seq<Proc>, pools: nat -> Pool, n: nat)
    requires DistinctPids(procs) && forall k: nat :: k <= n ==> AlwaysOk(pools(k), procs)
    ensures forall p :: p in After(w, map[], procs, pools, n) <==>
      PassOf(w, procs, p, |procs|).Some? && PassOf(w, procs, p, |procs|).value <= n
  {
    if n == 0 {
      RootPassOnTime(w, procs, pools(0));
      assert forall p :: Due(w, procs, p, 0, 0) <==>
          PassOf(w, procs, p, |procs|).Some? && PassOf(w, procs, p, |procs|).value <= 0;
    } else {
      SnapshotIsOnTime(w, procs, pools, n - 1);
      var before := After(w, map[], procs, pools, n - 1);
      assert OnTime(w, procs, before, n - 1, 0);
      PassOnTime(w, before, procs, pools(n), n - 1, |procs|);
      LinksAreTheList(procs);
      forall p ensures Due(w, procs, p, n - 1, |procs|) <==>
        PassOf(w, procs, p, |procs|).Some? && PassOf(w, procs, p, |procs|).value <= n
      {
        if p in Links(procs) {
          var i :| 0 <= i < |procs| && procs[i] == Proc(p, Links(procs)[p]);
          PositionOf(procs, i);
        }
      }
    }
  }

  /**
   With no allocation failure, n child passes give the closure exactly when every reaching process
   needs at most n.
   */
  lemma SnapshotIsClosureExactlyWhenPrompt(w: World, procs: seq<Proc>, pools: nat -> Pool, n: nat)
    requires DistinctPids(procs) && forall k: nat :: k <= n ==> AlwaysOk(pools(k), procs)
    ensures After(w, map[], procs, pools, n) == Closure(w, Links(procs)) <==> Prompt(w, procs, n)
  {
    var (m, links) := (After(w, map[], procs, pools, n), Links(procs));
    SnapshotIsOnTime(w, procs, pools, n);
    SnapshotIsSound(w, procs, pools, n);
    LinksAreTheList(procs);
    forall p | p in links ensures Reaches(w, links, p) <==> PassOf(w, procs, p, |procs|).Some? {
      PassOfSettles(w, procs, p, |procs|);
    }
    if Prompt(w, procs, n) {
      forall p | p in Closure(w, links) ensures p in m {
        var i :| 0 <= i < |procs| && procs[i] == Proc(p, links[p]);
      }
      assert m.Keys == Closure(w, links).Keys;
    } else {
      var i :| 0 <= i < |procs| && PassOf(w, procs, procs[i].pid, |procs|).Some?
          && PassOf(w, procs, procs[i].pid, |procs|).value > n;
      assert procs[i].pid in Closure(w, links) && procs[i].pid !in m;
    }
  }

  /** The driver's snapshot captures everything exactly when no reaching process needs more than 32 child passes. */
  lemma PassBoundIsTight(w: World, procs: seq<Proc>, pools: nat -> Pool)
    requires DistinctPids(procs) && forall k: nat :: k <= MAX_CHILD_PASSES ==> AlwaysOk(pools(k), procs)
    ensures After(w, map[], procs, pools, MAX_CHILD_PASSES) == Closure(w, Links(procs)) <==>
        Prompt(w, procs, MAX_CHILD_PASSES)
  {
    SnapshotIsClosureExactlyWhenPrompt(w, procs, pools, MAX_CHILD_PASSES);
  }

  // ----- the two extreme orders -----

  /** Every process is listed after its parent. */
  predicate ParentsFirst(procs: seq<Proc>) {
    forall i, j :: 0 <= i <= j < |procs| ==> procs[i].parent != procs[j].pid
  }

  lemma {:induction false} ParentsFirstNeedOnePass(w: World, procs: seq<Proc>, pid: Pid, k: nat)
    requires DistinctPids(procs) && ParentsFirst(procs) && PassOf(w, procs, pid, k).Some?
    ensures PassOf(w, procs, pid, k).value <= 1
    decreases k
  {
    var links := Links(procs);
    if !IsRoot(w, pid) {
      LinksAreTheList(procs);
      ParentsFirstNeedOnePass(w, procs, links[pid], k - 1);
      var i :| 0 <= i < |procs| && procs[i] == Proc(pid, links[pid]);
      var j :| 0 <= j < |procs| && procs[j] == Proc(links[pid], links[links[pid]]);
      PositionOf(procs, i);
      PositionOf(procs, j);
    }
  }

  /** Listed parents first, a forest of any depth is captured by a single child pass. */
  lemma ParentsFirstTakesOnePass(w: World, procs: seq<Proc>, pools: nat -> Pool)
    requires DistinctPids(procs) && ParentsFirst(procs) && AlwaysOk(pools(0), procs) && AlwaysOk(pools(1), procs)
    ensures After(w, map[], procs, pools, 1) == Closure(w, Links(procs))
  {
    forall i | 0 <= i < |procs| && PassOf(w, procs, procs[i].pid, |procs|).Some?
      ensures PassOf(w, procs, procs[i].pid, |procs|).value <= 1
    {
      ParentsFirstNeedOnePass(w, procs, procs[i].pid, |procs|);
    }
    SnapshotIsClosureExactlyWhenPrompt(w, procs, pools, 1);
  }

  /** Listed children first, a process needs as many passes as it has links to its root. */
  lemma ChildrenFirstBound(w: World, procs: seq<Proc>, pools: nat -> Pool, n: nat)
    requires DistinctPids(procs) && ChildrenFirst(procs) && forall k: nat :: k <= n ==> AlwaysOk(pools(k), procs)
    ensures Prompt(w, procs, n) <==> Shallow(w, Links(procs), n)
  {
    SlowSnapshot(w, procs, pools, n);
    SnapshotIsClosureExactlyWhenPrompt(w, procs, pools, n);
    if Shallow(w, Links(procs), n) {
      ShallowSnapshotIsClosure(w, procs, pools, n);
    }
  }
}
