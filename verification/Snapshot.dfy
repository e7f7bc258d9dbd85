/**
 The boot snapshot (knFcTrack.cpp lines 780-916): one root pass and up to 32 in-place child
 passes over a process list, against the nearest-root-ancestor closure of its parent links.
 */
module Snapshot {
  import opened Options
  import opened WideText
  import opened TrackModel
  import W = WatchRoots

  const MAX_CHILD_PASSES: nat := 32

  datatype Proc = Proc(pid: Pid, parent: Pid)

  /** What does not change during the snapshot: the watch roots and the image of each process ([] if it has none). */
  datatype World = World(up: CaseMap, roots: seq<WString>, image: Pid -> WString)

  /** Outcome of the allocations for one process. */
  type Pool = Pid -> bool

  predicate IsRoot(w: World, pid: Pid) {
    W.UnderSomeRoot(w.up, w.roots, w.image(pid))
  }

  // ----- the passes -----

  /** The test that makes a pass classify a process (lines 793-824). */
  predicate Candidate(w: World, m: Tracked, p: Proc, childPass: bool) {
    && p.pid != 0 && p.pid !in m
    && if childPass then p.parent != 0 && p.parent in m else IsRoot(w, p.pid)
  }

  function Visit(w: World, m: Tracked, p: Proc, childPass: bool, pool: Pool): Tracked {
    if Candidate(w, m, p, childPass)
    then Classify(m, IsRoot(w, p.pid), p.pid, p.parent, w.image(p.pid), true, pool(p.pid))
    else m
  }

  /** The table after the first k processes of a pass. */
  function Pass(w: World, m: Tracked, procs: seq<Proc>, childPass: bool, pool: Pool, k: nat): Tracked
    requires k <= |procs|
  {
    if k == 0 then m else Visit(w, Pass(w, m, procs, childPass, pool, k - 1), procs[k - 1], childPass, pool)
  }

  function WholePass(w: World, m: Tracked, procs: seq<Proc>, childPass: bool, pool: Pool): Tracked {
    Pass(w, m, procs, childPass, pool, |procs|)
  }

  /** The number of classifications in the first k steps of a pass. */
  function Changes(w: World, m: Tracked, procs: seq<Proc>, childPass: bool, pool: Pool, k: nat): nat
    requires k <= |procs|
  {
    if k == 0 then 0
    else
      Changes(w, m, procs, childPass, pool, k - 1)
      + if Candidate(w, Pass(w, m, procs, childPass, pool, k - 1), procs[k - 1], childPass) then 1 else 0
  }

  /** The table after the root pass and n child passes; pools(0) serves the root pass. */
  function After(w: World, m: Tracked, procs: seq<Proc>, pools: nat -> Pool, n: nat): Tracked {
    if n == 0 then WholePass(w, m, procs, false, pools(0))
    else WholePass(w, After(w, m, procs, pools, n - 1), procs, true, pools(n))
  }

  // ----- the closure -----

  predicate DistinctPids(procs: seq<Proc>) {
    forall i, j :: 0 <= i < j < |procs| ==> procs[i].pid != procs[j].pid
  }

  /** The parent link of every listed process; the idle process has none. */
  function Links(procs: seq<Proc>): map<Pid, Pid> {
    if procs == [] then map[]
    else
      var last := procs[|procs| - 1];
      var rest := Links(procs[..|procs| - 1]);
      if last.pid == 0 then rest else rest[last.pid := last.parent]
  }

  lemma {:induction false} LinksAreTheList(procs: seq<Proc>)
    requires DistinctPids(procs)
    ensures forall i :: 0 <= i < |procs| && procs[i].pid != 0 ==>
      procs[i].pid in Links(procs) && Links(procs)[procs[i].pid] == procs[i].parent
    ensures forall p :: p in Links(procs) ==>
        p != 0 && exists i :: 0 <= i < |procs| && procs[i] == Proc(p, Links(procs)[p])
  {
    if procs != [] {
      LinksAreTheList(procs[..|procs| - 1]);
      assert forall i :: 0 <= i < |procs| - 1 ==> procs[..|procs| - 1][i] == procs[i];
      var last := procs[|procs| - 1];
      forall p | p in Links(procs)
        ensures p != 0 && exists i :: 0 <= i < |procs| && procs[i] == Proc(p, Links(procs)[p])
      {
        if last.pid != 0 && p == last.pid {
          assert procs[|procs| - 1] == Proc(p, Links(procs)[p]);
        } else {
          var i :| 0 <= i < |procs| - 1 && procs[..|procs| - 1][i] == Proc(p, Links(procs[..|procs| - 1])[p]);
          assert procs[i] == Proc(p, Links(procs)[p]);
        }
      }
    }
  }

  /** The nearest ancestor-or-self within k parent links whose image is under a watch root. */
  function Nearest(w: World, links: map<Pid, Pid>, pid: Pid, k: nat): Option<Pid>
    decreases k
  {
    if pid !in links then None
    else if IsRoot(w, pid) then Some(pid)
    else if k == 0 then None
    else Nearest(w, links, links[pid], k - 1)
  }

  ghost predicate Reaches(w: World, links: map<Pid, Pid>, pid: Pid) {
    exists k: nat :: Nearest(w, links, pid, k).Some?
  }

  /** The nearest root ancestor, over parent chains of any length, cyclic ones included. */
  ghost function RootOf(w: World, links: map<Pid, Pid>, pid: Pid): Pid
    requires Reaches(w, links, pid)
  {
    var k: nat :| Nearest(w, links, pid, k).Some?;
    Nearest(w, links, pid, k).value
  }

  function ExpectedEntry(w: World, links: map<Pid, Pid>, pid: Pid, root: Pid): Entry
    requires pid in links
  {
    if IsRoot(w, pid) then RootEntry(pid, links[pid], w.image(pid), true)
    else ChildEntry(pid, links[pid], root, w.image(pid), true)
  }

  /** What the snapshot is meant to produce. */
  ghost function Closure(w: World, links: map<Pid, Pid>): Tracked {
    map p | p in links && Reaches(w, links, p) :: ExpectedEntry(w, links, p, RootOf(w, links, p))
  }

  lemma {:induction false} NearestMonotone(w: World, links: map<Pid, Pid>, pid: Pid, k: nat, n: nat)
    requires k <= n && Nearest(w, links, pid, k).Some?
    ensures Nearest(w, links, pid, n) == Nearest(w, links, pid, k)
    decreases k
  {
    if !IsRoot(w, pid) {
      NearestMonotone(w, links, links[pid], k - 1, n - 1);
    }
  }

  lemma NearestIsRootOf(w: World, links: map<Pid, Pid>, pid: Pid, k: nat)
    requires Nearest(w, links, pid, k).Some?
    ensures Reaches(w, links, pid) && RootOf(w, links, pid) == Nearest(w, links, pid, k).value
  {
    var n: nat :| Nearest(w, links, pid, n).Some? && RootOf(w, links, pid) == Nearest(w, links, pid, n).value;
    if k <= n { NearestMonotone(w, links, pid, k, n); } else { NearestMonotone(w, links, pid, n, k); }
  }

  /** One link up: a process that is not a root itself has its parent's root. */
  lemma RootOfChild(w: World, links: map<Pid, Pid>, pid: Pid)
    requires pid in links && !IsRoot(w, pid)
    ensures Reaches(w, links, pid) <==> Reaches(w, links, links[pid])
    ensures Reaches(w, links, pid) ==> RootOf(w, links, pid) == RootOf(w, links, links[pid])
  {
    if Reaches(w, links, pid) {
      var k: nat :| Nearest(w, links, pid, k).Some?;
      NearestIsRootOf(w, links, pid, k);
      NearestIsRootOf(w, links, links[pid], k - 1);
    }
    if Reaches(w, links, links[pid]) {
      var k: nat :| Nearest(w, links, links[pid], k).Some?;
      NearestIsRootOf(w, links, pid, k + 1);
    }
  }

  // ----- soundness: nothing outside the closure, and every root is the nearest one -----

  ghost predicate Sound(w: World, links: map<Pid, Pid>, m: Tracked) {
    forall p :: p in m ==> p in links && Reaches(w, links, p) && m[p] == ExpectedEntry(w, links, p, RootOf(w, links, p))
  }

  lemma VisitIsSound(w: World, links: map<Pid, Pid>, m: Tracked, p: Proc, childPass: bool, pool: Pool)
    requires Sound(w, links, m)
    requires p.pid != 0 ==> p.pid in links && links[p.pid] == p.parent
    ensures Sound(w, links, Visit(w, m, p, childPass, pool))
  {
    if Candidate(w, m, p, childPass) {
      if IsRoot(w, p.pid) {
        NearestIsRootOf(w, links, p.pid, 0);
      } else {
        RootOfChild(w, links, p.pid);
        if IsRoot(w, p.parent) { NearestIsRootOf(w, links, p.parent, 0); }
      }
    }
  }

  lemma {:induction false} PassIsSound(w: World, m: Tracked, procs: seq<Proc>, childPass: bool, pool: Pool, k: nat)
    requires DistinctPids(procs) && k <= |procs| && Sound(w, Links(procs), m)
    ensures Sound(w, Links(procs), Pass(w, m, procs, childPass, pool, k))
  {
    if k > 0 {
      PassIsSound(w, m, procs, childPass, pool, k - 1);
      LinksAreTheList(procs);
      VisitIsSound(w, Links(procs), Pass(w, m, procs, childPass, pool, k - 1), procs[k - 1], childPass, pool);
    }
  }

  /** Whatever allocations fail, nothing outside the closure is tracked and every entry names its nearest root. */
  lemma {:induction false} SnapshotIsSound(w: World, procs: seq<Proc>, pools: nat -> Pool, n: nat)
    requires DistinctPids(procs)
    ensures Sound(w, Links(procs), After(w, map[], procs, pools, n))
  {
    if n == 0 {
      PassIsSound(w, map[], procs, false, pools(0), |procs|);
    } else {
      SnapshotIsSound(w, procs, pools, n - 1);
      PassIsSound(w, After(w, map[], procs, pools, n - 1), procs, true, pools(n), |procs|);
    }
  }

  // ----- completeness -----

  /** Everything within k links of a root is tracked. */
  ghost predicate CompleteTo(w: World, links: map<Pid, Pid>, m: Tracked, k: nat) {
    forall p :: p in links && Nearest(w, links, p, k).Some? ==> p in m
  }

  predicate AlwaysOk(pool: Pool, procs: seq<Proc>) {
    forall i :: 0 <= i < |procs| ==> pool(procs[i].pid)
  }

  lemma {:induction false} PassGrows(w: World, m: Tracked, procs: seq<Proc>, childPass: bool, pool: Pool, k: nat,
      n: nat)
    requires k <= n <= |procs|
    ensures Pass(w, m, procs, childPass, pool, k).Keys <= Pass(w, m, procs, childPass, pool, n).Keys
    decreases n
  {
    if k < n {
      PassGrows(w, m, procs, childPass, pool, k, n - 1);
    }
  }

  /** A process that was eligible when the pass began is tracked when it ends. */
  lemma PassCatches(w: World, m: Tracked, procs: seq<Proc>, childPass: bool, pool: Pool, i: nat)
    requires i < |procs| && AlwaysOk(pool, procs) && procs[i].pid != 0
    requires if childPass then procs[i].parent != 0 && procs[i].parent in m else IsRoot(w, procs[i].pid)
    ensures procs[i].pid in WholePass(w, m, procs, childPass, pool)
  {
    PassGrows(w, m, procs, childPass, pool, 0, i);
    assert procs[i].pid in Pass(w, m, procs, childPass, pool, i + 1);
    PassGrows(w, m, procs, childPass, pool, i + 1, |procs|);
  }

  /** Progress: the k-th child pass completes the processes at distance k. */
  lemma {:induction false} SnapshotReachesDistance(w: World, procs: seq<Proc>, pools: nat -> Pool, k: nat)
    requires DistinctPids(procs) && forall n: nat :: n <= k ==> AlwaysOk(pools(n), procs)
    ensures CompleteTo(w, Links(procs), After(w, map[], procs, pools, k), k)
  {
    var links := Links(procs);
    LinksAreTheList(procs);
    if k == 0 {
      forall p | p in links && Nearest(w, links, p, 0).Some? ensures p in After(w, map[], procs, pools, 0) {
        var i :| 0 <= i < |procs| && procs[i] == Proc(p, links[p]);
        PassCatches(w, map[], procs, false, pools(0), i);
      }
    } else {
      SnapshotReachesDistance(w, procs, pools, k - 1);
      var before := After(w, map[], procs, pools, k - 1);
      forall p | p in links && Nearest(w, links, p, k).Some? ensures p in After(w, map[], procs, pools, k) {
        if IsRoot(w, p) {
          assert Nearest(w, links, p, k - 1).Some?;
          PassGrows(w, before, procs, true, pools(k), 0, |procs|);
        } else {
          var i :| 0 <= i < |procs| && procs[i] == Proc(p, links[p]);
          assert Nearest(w, links, links[p], k - 1).Some? && links[p] in links;
          PassCatches(w, before, procs, true, pools(k), i);
        }
      }
    }
  }

  // ----- stability -----

  /** A pass with no change is the identity, and finds no eligible process anywhere. */
  lemma {:induction false} QuietPass(w: World, m: Tracked, procs: seq<Proc>, childPass: bool, pool: Pool, k: nat)
    requires k <= |procs|
    ensures Changes(w, m, procs, childPass, pool, k) == 0
      <==> forall i :: 0 <= i < k ==> !Candidate(w, m, procs[i], childPass)
    ensures Changes(w, m, procs, childPass, pool, k) == 0 ==> Pass(w, m, procs, childPass, pool, k) == m
  {
    if k > 0 {
      QuietPass(w, m, procs, childPass, pool, k - 1);
      if Changes(w, m, procs, childPass, pool, k - 1) != 0 {
        var i :| 0 <= i < k - 1 && Candidate(w, m, procs[i], childPass);
      }
    }
  }

  /** When every insertion succeeds, a pass adds exactly as many processes as it counts changes. */
  lemma {:induction false} ChangesAreInsertions(w: World, m: Tracked, procs: seq<Proc>, childPass: bool, pool: Pool,
      k: nat)
    requires k <= |procs| && AlwaysOk(pool, procs)
    ensures |Pass(w, m, procs, childPass, pool, k)| == |m| + Changes(w, m, procs, childPass, pool, k)
  {
    if k > 0 {
      ChangesAreInsertions(w, m, procs, childPass, pool, k - 1);
    }
  }

  /** No eligible process is left. */
  predicate Stable(w: World, m: Tracked, procs: seq<Proc>) {
    forall i :: 0 <= i < |procs| ==> !Candidate(w, m, procs[i], true)
  }

  lemma QuietIsStable(w: World, m: Tracked, procs: seq<Proc>, pool: Pool)
    requires Changes(w, m, procs, true, pool, |procs|) == 0
    ensures WholePass(w, m, procs, true, pool) == m && Stable(w, m, procs)
  {
    QuietPass(w, m, procs, true, pool, |procs|);
  }

  lemma {:induction false} StableIsComplete(w: World, procs: seq<Proc>, m: Tracked, k: nat)
    requires DistinctPids(procs) && CompleteTo(w, Links(procs), m, 0) && Stable(w, m, procs)
    ensures CompleteTo(w, Links(procs), m, k)
  {
    var links := Links(procs);
    LinksAreTheList(procs);
    if k > 0 {
      StableIsComplete(w, procs, m, k - 1);
      forall p | p in links && Nearest(w, links, p, k).Some? ensures p in m {
        if IsRoot(w, p) {
          assert Nearest(w, links, p, 0).Some?;
        } else {
          var i :| 0 <= i < |procs| && procs[i] == Proc(p, links[p]);
          assert Nearest(w, links, links[p], k - 1).Some? && links[p] in links;
          assert !Candidate(w, m, procs[i], true);
        }
      }
    }
  }

  lemma CompleteIsClosure(w: World, links: map<Pid, Pid>, m: Tracked)
    requires Sound(w, links, m) && forall k: nat :: CompleteTo(w, links, m, k)
    ensures m == Closure(w, links)
  {
    forall p | p in links && Reaches(w, links, p) ensures p in m {
      var k: nat :| Nearest(w, links, p, k).Some?;
      assert CompleteTo(w, links, m, k);
    }
  }

  lemma ClosureIsStable(w: World, procs: seq<Proc>)
    requires DistinctPids(procs)
    ensures Stable(w, Closure(w, Links(procs)), procs)
  {
    var links := Links(procs);
    LinksAreTheList(procs);
    forall i | 0 <= i < |procs| && procs[i].pid != 0 && procs[i].parent in Closure(w, links)
      ensures procs[i].pid in Closure(w, links)
    {
      if IsRoot(w, procs[i].pid) {
        NearestIsRootOf(w, links, procs[i].pid, 0);
      } else {
        RootOfChild(w, links, procs[i].pid);
      }
    }
  }

  // ----- the result -----

  /**
   With no allocation failure the snapshot is the closure exactly when one more child pass would
   change nothing.  The loop stops early only in that case; after the last pass it tests nothing.
   */
  lemma SnapshotIsClosureExactlyWhenStable(w: World, procs: seq<Proc>, pools: nat -> Pool, n: nat)
    requires DistinctPids(procs) && forall k: nat :: k <= n ==> AlwaysOk(pools(k), procs)
    ensures After(w, map[], procs, pools, n) == Closure(w, Links(procs)) <==>
        Stable(w, After(w, map[], procs, pools, n), procs)
  {
    var (m, links) := (After(w, map[], procs, pools, n), Links(procs));
    SnapshotIsSound(w, procs, pools, n);
    if Stable(w, m, procs) {
      SnapshotReachesDistance(w, procs, pools, n);
      CompleteAtZero(w, links, m, n);
      forall k: nat ensures CompleteTo(w, links, m, k) {
        StableIsComplete(w, procs, m, k);
      }
      CompleteIsClosure(w, links, m);
    } else {
      ClosureIsStable(w, procs);
    }
  }

  lemma CompleteAtZero(w: World, links: map<Pid, Pid>, m: Tracked, k: nat)
    requires CompleteTo(w, links, m, k)
    ensures CompleteTo(w, links, m, 0)
  {
    forall p | p in links && Nearest(w, links, p, 0).Some? ensures p in m {
      NearestMonotone(w, links, p, 0, k);
    }
  }

  /** Every process that reaches a root does so within k parent links. */
  ghost predicate Shallow(w: World, links: map<Pid, Pid>, k: nat) {
    forall p :: p in links && Reaches(w, links, p) ==> Nearest(w, links, p, k).Some?
  }

  /** A process forest no deeper than the passes is captured completely. */
  lemma ShallowSnapshotIsClosure(w: World, procs: seq<Proc>, pools: nat -> Pool, n: nat)
    requires DistinctPids(procs) && forall k: nat :: k <= n ==> AlwaysOk(pools(k), procs)
    requires Shallow(w, Links(procs), n)
    ensures After(w, map[], procs, pools, n) == Closure(w, Links(procs))
  {
    var (m, links) := (After(w, map[], procs, pools, n), Links(procs));
    SnapshotIsSound(w, procs, pools, n);
    SnapshotReachesDistance(w, procs, pools, n);
    forall k: nat ensures CompleteTo(w, links, m, k) {
      forall p | p in links && Nearest(w, links, p, k).Some? ensures p in m {
        assert Reaches(w, links, p);
      }
    }
    CompleteIsClosure(w, links, m);
  }

  /** The list order does not matter: equal parent links give equal tables. */
  lemma OrderDoesNotMatter(w: World, a: seq<Proc>, b: seq<Proc>, pools: nat -> Pool)
    requires DistinctPids(a) && DistinctPids(b) && Links(a) == Links(b)
    requires forall k: nat :: k <= MAX_CHILD_PASSES ==> AlwaysOk(pools(k), a) && AlwaysOk(pools(k), b)
    requires Stable(w, After(w, map[], a, pools, MAX_CHILD_PASSES), a)
    requires Stable(w, After(w, map[], b, pools, MAX_CHILD_PASSES), b)
    ensures After(w, map[], a, pools, MAX_CHILD_PASSES) == After(w, map[], b, pools, MAX_CHILD_PASSES)
  {
    SnapshotIsClosureExactlyWhenStable(w, a, pools, MAX_CHILD_PASSES);
    SnapshotIsClosureExactlyWhenStable(w, b, pools, MAX_CHILD_PASSES);
  }

  /** Once a pass changes nothing, no later pass does: leaving the loop early loses nothing. */
  lemma {:induction false} StableForEver(w: World, m: Tracked, procs: seq<Proc>, pools: nat -> Pool, k: nat, n: nat)
    requires k <= n && Stable(w, After(w, m, procs, pools, k), procs)
    ensures After(w, m, procs, pools, n) == After(w, m, procs, pools, k)
    decreases n
  {
    if k < n {
      StableForEver(w, m, procs, pools, k, n - 1);
      QuietPass(w, After(w, m, procs, pools, n - 1), procs, true, pools(n), |procs|);
    }
  }

  // ----- children listed first -----

  /** No process is listed after its parent. */
  predicate ChildrenFirst(procs: seq<Proc>) {
    forall i, j :: 0 <= i <= j < |procs| ==> procs[j].parent != procs[i].pid
  }

  /** Tracked: exactly the processes within k links. */
  ghost predicate Exactly(w: World, links: map<Pid, Pid>, m: Tracked, k: nat) {
    forall p :: p in m <==> p in links && Nearest(w, links, p, k).Some?
  }

  /** Against the list order a pass gains one level only: it adds nothing whose parent it has just added. */
  lemma {:induction false} SlowPass(w: World, m: Tracked, procs: seq<Proc>, pool: Pool, i: nat)
    requires DistinctPids(procs) && ChildrenFirst(procs) && i <= |procs|
    ensures forall p :: p in Pass(w, m, procs, true, pool, i) && p !in m ==>
      exists j :: 0 <= j < i && procs[j].pid == p && procs[j].parent in m
  {
    if i > 0 {
      SlowPass(w, m, procs, pool, i - 1);
    }
  }

  lemma {:induction false} RootPassIsExact(w: World, procs: seq<Proc>, pool: Pool, i: nat)
    requires i <= |procs|
    ensures forall p :: p in Pass(w, map[], procs, false, pool, i) ==> IsRoot(w, p)
  {
    if i > 0 {
      RootPassIsExact(w, procs, pool, i - 1);
    }
  }

  lemma SlowPassGainsOneLevel(w: World, before: Tracked, procs: seq<Proc>, pool: Pool, k: nat, p: Pid)
    requires DistinctPids(procs) && ChildrenFirst(procs) && Exactly(w, Links(procs), before, k)
    requires p in WholePass(w, before, procs, true, pool)
    ensures p in Links(procs) && Nearest(w, Links(procs), p, k + 1).Some?
  {
    var links := Links(procs);
    if p in before {
      NearestMonotone(w, links, p, k, k + 1);
    } else {
      SlowPass(w, before, procs, pool, |procs|);
      var j :| 0 <= j < |procs| && procs[j].pid == p && procs[j].parent in before;
      PassSkipsIdle(w, before, procs, true, pool, |procs|);
      LinksAreTheList(procs);
    }
  }

  lemma {:induction false} PassSkipsIdle(w: World, m: Tracked, procs: seq<Proc>, childPass: bool, pool: Pool, k: nat)
    requires k <= |procs|
    ensures 0 in Pass(w, m, procs, childPass, pool, k) ==> 0 in m
  {
    if k > 0 {
      PassSkipsIdle(w, m, procs, childPass, pool, k - 1);
    }
  }

  lemma {:induction false} SlowSnapshot(w: World, procs: seq<Proc>, pools: nat -> Pool, k: nat)
    requires DistinctPids(procs) && ChildrenFirst(procs) && forall n: nat :: n <= k ==> AlwaysOk(pools(n), procs)
    ensures Exactly(w, Links(procs), After(w, map[], procs, pools, k), k)
  {
    var (m, links) := (After(w, map[], procs, pools, k), Links(procs));
    SnapshotReachesDistance(w, procs, pools, k);
    if k == 0 {
      SnapshotIsSound(w, procs, pools, 0);
      RootPassIsExact(w, procs, pools(0), |procs|);
    } else {
      SlowSnapshot(w, procs, pools, k - 1);
      forall p | p in m ensures p in links && Nearest(w, links, p, k).Some? {
        SlowPassGainsOneLevel(w, After(w, map[], procs, pools, k - 1), procs, pools(k), k - 1, p);
      }
    }
  }

  /** A chain listed child first: process i has parent i + 1, up to n. */
  function Chain(n: nat): seq<Proc>
    requires n < 0x1_0000
  {
    seq(n, i requires 0 <= i < n => Proc((i + 1) as Pid, (i + 2) as Pid))
  }

  lemma {:induction false} ChainDistance(w: World, n: nat, i: nat, k: nat)
    requires n < 0x1_0000 && 1 <= i <= n && forall p :: IsRoot(w, p) <==> p as int == n
    ensures Nearest(w, Links(Chain(n)), i as Pid, k).Some? <==> i + k >= n
    decreases k
  {
    LinksAreTheList(Chain(n));
    assert Chain(n)[i - 1] == Proc(i as Pid, (i + 1) as Pid);
    if i < n && k > 0 {
      ChainDistance(w, n, i + 1, k - 1);
    }
  }

  /** A chain of more than 33 processes, the last one a root, is captured only in part. */
  lemma DeepChainIsMissed(w: World, n: nat, pools: nat -> Pool)
    requires MAX_CHILD_PASSES + 1 < n < 0x1_0000 && forall p :: IsRoot(w, p) <==> p as int == n
    requires forall k: nat :: k <= MAX_CHILD_PASSES ==> AlwaysOk(pools(k), Chain(n))
    ensures 1 !in After(w, map[], Chain(n), pools, MAX_CHILD_PASSES) && 1 in Closure(w, Links(Chain(n)))
  {
    ChainDistance(w, n, 1, n);
    ChainDistance(w, n, 1, MAX_CHILD_PASSES);
    SlowSnapshot(w, Chain(n), pools, MAX_CHILD_PASSES);
  }
}
