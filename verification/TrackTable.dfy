/**
 The tracking table itself (knFcTrack.cpp): 256 chained buckets, changed in place, that stand
 for the partial map of TrackModel; and the snapshot loops that fill it.
 A chain is kept as the sequence of its entries, head first.
 */
module TrackTable {
  import opened Options
  import opened WideText
  import Tally
  import opened TrackModel
  import opened Snapshot
  import W = WatchRoots

  const BUCKETS: nat := 256
  const TREE_IMAGE_CHARS: nat := 120

  /** knFcHashPid. */
  function HashPid(pid: Pid): (h: nat)
    ensures h < BUCKETS
  {
    var v := pid as bv64;
    var a := v ^ (v >> 16);
    var b := a * 0x9E37_79B1;
    var c := b ^ (b >> 13);
    (c & 255) as nat
  }

  /** A row of the process tree: the image keeps its trailing portion only. */
  datatype Row = Row(pid: Pid, parent: Pid, root: Pid, flags: Flags, image: WString)

  /** The row is that of process e: its fields, and the image or, of a longer one, its last 120 characters. */
  ghost predicate Shows(r: Row, e: Entry) {
    && r.pid == e.pid && r.parent == e.parent && r.root == e.root && r.flags == e.flags
    && (|e.image| <= 120 ==> r.image == e.image)
    && (|e.image| > 120 ==> |r.image| == 120 && exists skipped: WString :: e.image == skipped + r.image)
  }

  function RowOf(e: Entry): (r: Row)
    ensures Shows(r, e)
  {
    assert |e.image| > TREE_IMAGE_CHARS ==>
        e.image == e.image[..|e.image| - TREE_IMAGE_CHARS] + e.image[|e.image| - TREE_IMAGE_CHARS..];
    Row(e.pid, e.parent, e.root, e.flags,
        if |e.image| > TREE_IMAGE_CHARS then e.image[|e.image| - TREE_IMAGE_CHARS..] else e.image)
  }

  // ----- one chain -----

  /** A chain of bucket b: live entries of the map that hash to b, one per pid. */
  ghost predicate ChainOk(chain: seq<Entry>, b: nat, m: Tracked) {
    && (forall k :: 0 <= k < |chain| ==> Stored(chain[k], b, m))
    && (forall j, k :: 0 <= j < k < |chain| ==> chain[j].pid != chain[k].pid)
  }

  ghost predicate Stored(e: Entry, b: nat, m: Tracked) {
    HashPid(e.pid) == b && !e.flags.exited && e.pid in m && m[e.pid] == e
  }

  lemma ChainPush(chain: seq<Entry>, b: nat, m: Tracked, e: Entry)
    requires ChainOk(chain, b, m) && e.pid !in m && !e.flags.exited
    ensures HashPid(e.pid) == b ==> ChainOk([e] + chain, b, m[e.pid := e])
    ensures HashPid(e.pid) != b ==> ChainOk(chain, b, m[e.pid := e])
  {
    hide HashPid;
    assert forall k :: 1 <= k < |[e] + chain| ==> ([e] + chain)[k] == chain[k - 1];
  }

  lemma ChainUnlink(chain: seq<Entry>, b: nat, m: Tracked, k: nat)
    requires ChainOk(chain, b, m) && k < |chain|
    ensures ChainOk(chain[..k] + chain[k + 1..], b, m - {chain[k].pid})
    ensures forall e :: e in chain && e != chain[k] ==> e in chain[..k] + chain[k + 1..]
  {
    hide HashPid;
    var r := chain[..k] + chain[k + 1..];
    assert forall j :: 0 <= j < |r| ==> r[j] == chain[if j < k then j else j + 1];
    forall e | e in chain && e != chain[k] ensures e in r {
      var j :| 0 <= j < |chain| && chain[j] == e;
      assert r[if j < k then j else j - 1] == e;
    }
  }

  ghost function PidsOf(chain: seq<Entry>): set<Pid> {
    set e | e in chain :: e.pid
  }

  lemma NextPid(chain: seq<Entry>, b: nat, m: Tracked, k: nat)
    requires ChainOk(chain, b, m) && k < |chain|
    ensures PidsOf(chain[..k + 1]) == PidsOf(chain[..k]) + {chain[k].pid} && chain[k].pid !in PidsOf(chain[..k])
    ensures Stored(chain[k], b, m) && chain[k].pid in PidsOf(chain)
  {
    hide HashPid;
    assert chain[k] in chain;
    assert chain[..k + 1] == chain[..k] + [chain[k]];
    assert forall e :: e in chain[..k] ==> exists j :: 0 <= j < k && chain[j] == e;
  }

  lemma ChainElsewhere(chain: seq<Entry>, b: nat, m: Tracked, pid: Pid)
    requires ChainOk(chain, b, m) && HashPid(pid) != b
    ensures ChainOk(chain, b, m - {pid})
  {
    hide HashPid;
  }

  class Table {
    const buckets: array<seq<Entry>>
    var entryCount: int
    var active: bool
    /** The map the buckets stand for. */
    ghost var tracked: Tracked

    ghost predicate Valid()
      reads this, buckets
    {
      && buckets.Length == BUCKETS && entryCount == |tracked|
      && (forall b :: 0 <= b < BUCKETS ==> ChainOk(buckets[b], b, tracked))
      && (forall p :: p in tracked ==> tracked[p].pid == p && tracked[p] in buckets[HashPid(p)])
    }

    constructor ()
      ensures Valid() && fresh(buckets) && tracked == map[] && !active
    {
      buckets := new seq<Entry>[BUCKETS](_ => []);
      entryCount, active, tracked := 0, false, map[];
    }

    /** The scan of knFcTrackFindLocked: where the chain holds the pid, not exited, or its end. */
    method Locate(pid: Pid) returns (k: nat)
      requires Valid()
      ensures k <= |buckets[HashPid(pid)]|
      ensures k == |buckets[HashPid(pid)]| <==> pid !in tracked
      ensures pid in tracked ==> buckets[HashPid(pid)][k] == tracked[pid]
    {
      hide HashPid;
      var chain := buckets[HashPid(pid)];
      k := 0;
      while k < |chain| && !(chain[k].pid == pid && !chain[k].flags.exited)
        invariant k <= |chain|
        invariant forall j :: 0 <= j < k ==> chain[j].pid != pid
      {
        assert Stored(chain[k], HashPid(pid), tracked);
        k := k + 1;
      }
      if k < |chain| {
        assert Stored(chain[k], HashPid(pid), tracked);
      }
    }

    /** knFcTrackFindLocked: the first entry of the chain that has the pid and has not exited. */
    method Find(pid: Pid) returns (found: Option<Entry>)
      requires Valid()
      ensures found == if pid in tracked then Some(tracked[pid]) else None
    {
      hide HashPid, Valid;
      ValidShape();
      var k := Locate(pid);
      var chain := buckets[HashPid(pid)];
      return if k < |chain| then Some(chain[k]) else None;
    }

    lemma ValidShape()
      requires Valid()
      ensures buckets.Length == BUCKETS
    {}

    /** knFcTrackInsertLocked, for a pid that Find has not found. */
    method Insert(e: Entry, poolOk: bool) returns (ok: bool)
      requires Valid() && e.pid !in tracked && !e.flags.exited
      modifies buckets, this`entryCount, this`tracked
      ensures Valid() && ok == poolOk
      ensures tracked == if poolOk then old(tracked)[e.pid := e] else old(tracked)
    {
      hide HashPid;
      if !poolOk { return false; }
      forall b | 0 <= b < BUCKETS {
        ChainPush(buckets[b], b, tracked, e);
      }
      var h := HashPid(e.pid);
      buckets[h] := [e] + buckets[h];
      entryCount := entryCount + 1;
      tracked := tracked[e.pid := e];
      return true;
    }

    /** knFcMarkExited up to the deferred push: the entry is unlinked and its metadata handed out. */
    method MarkExited(pid: Pid) returns (gone: Option<Entry>)
      requires Valid()
      modifies buckets, this`entryCount, this`tracked
      ensures Valid() && tracked == old(tracked) - {pid}
      ensures gone == if pid in old(tracked)
          then Some(old(tracked)[pid].(flags := old(tracked)[pid].flags.(exited := true))) else None
    {
      hide HashPid, ChainOk, Stored;
      var h := HashPid(pid);
      var k := Locate(pid);
      var chain := buckets[h];
      if k == |chain| { return None; }
      var e := chain[k];
      ChainUnlink(chain, h, tracked, k);
      forall b | 0 <= b < BUCKETS && b != h {
        ChainElsewhere(buckets[b], b, tracked, pid);
      }
      buckets[h] := chain[..k] + chain[k + 1..];
      entryCount := entryCount - 1;
      tracked := tracked - {pid};
      assert tracked.Keys == old(tracked).Keys - {pid};
      return Some(e.(flags := e.flags.(exited := true)));
    }

    /** knFcTrackPurgeAllLocked. */
    method PurgeAll()
      requires Valid()
      modifies buckets, this`entryCount, this`tracked
      ensures Valid() && tracked == map[]
    {
      hide HashPid;
      for i := 0 to BUCKETS
        invariant buckets.Length == BUCKETS
        invariant forall b :: 0 <= b < i ==> buckets[b] == []
      {
        while buckets[i] != []
          invariant forall b :: 0 <= b < i ==> buckets[b] == []
          decreases |buckets[i]|
        {
          buckets[i] := buckets[i][1..];
        }
      }
      entryCount := 0;
      tracked := map[];
    }

    /** knFcTrackIsTracked. */
    method IsTracked(pid: Pid) returns (found: Option<Entry>)
      requires Valid()
      ensures found == if active && pid != 0 && pid in tracked then Some(tracked[pid]) else None
    {
      hide HashPid;
      if !active || pid == 0 { return None; }
      found := Find(pid);
    }

    /** The inner loop of knFcTrackDump: one chain, until the buffer is full. */
    method DumpChain(b: nat, max: nat, start: seq<Row>, ghost startPids: set<Pid>)
      returns (rows: seq<Row>, truncated: bool, ghost pids: set<Pid>)
      requires Valid() && b < BUCKETS
      requires |start| <= max && RowsOk(start, startPids, tracked)
      requires startPids !! PidsOf(buckets[b])
      ensures |rows| <= max && RowsOk(rows, pids, tracked)
      ensures truncated ==> |rows| == max < |tracked|
      ensures !truncated ==> pids == startPids + PidsOf(buckets[b])
    {
      hide HashPid, Valid, PidsOf, ChainOk, RowsOk;
      rows, truncated, pids := start, false, startPids;
      ValidChain(b);
      var chain := buckets[b];
      NoPids(chain);
      for k := 0 to |chain|
        invariant |rows| <= max && RowsOk(rows, pids, tracked)
        invariant pids == startPids + PidsOf(chain[..k])
      {
        var e := chain[k];
        NextPid(chain, b, tracked, k);
        if e.flags.exited { continue; }
        if |rows| >= max {
          FullBuffer(rows, pids, tracked, e.pid);
          truncated := true;
          return;
        }
        AddRow(rows, pids, tracked, e.pid);
        rows := rows + [RowOf(e)];
        pids := pids + {e.pid};
      }
      assert chain[..|chain|] == chain;
    }

    lemma ValidChain(b: nat)
      requires Valid() && b < BUCKETS
      ensures b < buckets.Length && ChainOk(buckets[b], b, tracked)
    {}

    /** A chain holds exactly the tracked processes that hash to it. */
    lemma ChainPids(b: nat)
      requires Valid() && b < BUCKETS
      ensures PidsOf(buckets[b]) == set p | p in tracked && HashPid(p) == b
    {
      hide HashPid;
      assert ChainOk(buckets[b], b, tracked);
      forall p | p in tracked && HashPid(p) == b ensures p in PidsOf(buckets[b]) {
        assert tracked[p] in buckets[b] && tracked[p].pid == p;
      }
    }

    /** knFcTrackDump: rows of distinct processes, as many as fit, and whether some did not. */
    method Dump(max: nat) returns (rows: seq<Row>, truncated: bool)
      requires Valid()
      ensures max > 0 ==> |rows| == (if |tracked| < max then |tracked| else max) && (truncated <==> |tracked| > max)
      ensures max == 0 ==> rows == [] && !truncated
      ensures forall i :: 0 <= i < |rows| ==> rows[i].pid in tracked && Shows(rows[i], tracked[rows[i].pid])
      ensures forall i, j :: 0 <= i < j < |rows| ==> rows[i].pid != rows[j].pid
    {
      hide HashPid, Valid;
      rows, truncated := [], false;
      if max == 0 { return; }
      ghost var pids: set<Pid> := {};
      for b := 0 to BUCKETS
        invariant |rows| <= max && RowsOk(rows, pids, tracked) && !truncated
        invariant pids == set p | p in tracked && HashPid(p) < b
      {
        ChainPids(b);
        rows, truncated, pids := DumpChain(b, max, rows, pids);
        if truncated { return; }
        assert pids == set p | p in tracked && HashPid(p) < b + 1;
      }
      assert pids == tracked.Keys;
    }

    /** knFcClassifyAndInsert; what is created is what the CREATED push announces. */
    method ClassifyAndInsert(pid: Pid, parent: Pid, image: WString, fromSnapshot: bool, config: W.RootList,
        poolOk: bool)
      returns (created: Option<Entry>)
      requires Valid() && config.Valid()
      modifies buckets, this`entryCount, this`tracked
      ensures Valid() && config.Valid() && config.Roots() == old(config.Roots())
      ensures tracked == Classify(old(tracked), W.UnderSomeRoot(config.up, config.Roots(), image), pid, parent,
          image, fromSnapshot, poolOk)
      ensures created == if pid !in old(tracked) && pid in tracked then Some(tracked[pid]) else None
    {
      hide HashPid, ChainOk, Stored, W.UnderSomeRoot, Shows;
      var isRoot := config.PathStartsWithAnyRoot(image);
      var present := Find(pid);
      if present.Some? { return None; }
      if isRoot {
        var e := RootEntry(pid, parent, image, fromSnapshot);
        var ok := Insert(e, poolOk);
        return if ok then Some(e) else None;
      }
      var p := Find(parent);
      if p.None? { return None; }
      var e := ChildEntry(pid, parent, p.value.root, image, fromSnapshot);
      var ok := Insert(e, poolOk);
      return if ok then Some(e) else None;
    }

    /** knFcProcessNotify: a creation carries the parent and the image, an exit nothing. */
    method ProcessNotify(pid: Pid, creation: Option<(Pid, WString)>, config: W.RootList, poolOk: bool)
      requires Valid() && config.Valid()
      modifies buckets, this`entryCount, this`tracked
      ensures Valid()
      ensures var e := if creation.Some? then Create(pid, creation.value.0, creation.value.1, false, poolOk)
          else Exit(pid);
        tracked == Step(config.up, State(old(tracked), config.Roots(), active, {}), e).tracked
    {
      hide HashPid;
      if !active { return; }
      if creation.Some? {
        var _ := ClassifyAndInsert(pid, creation.value.0, creation.value.1, false, config, poolOk);
      } else {
        var _ := MarkExited(pid);
      }
    }

    /** One step of knFcTrackSnapshotPass (lines 788-827). */
    method SnapshotVisit(p: Proc, childPass: bool, config: W.RootList, image: Pid -> WString, pool: Pool,
        ghost w: World)
      returns (changed: bool)
      requires Valid() && active && config.Valid() && w == World(config.up, config.Roots(), image)
      modifies buckets, this`entryCount, this`tracked
      ensures Valid() && config.Valid() && w == World(config.up, config.Roots(), image)
      ensures tracked == Visit(w, old(tracked), p, childPass, pool)
      ensures changed <==> Candidate(w, old(tracked), p, childPass)
    {
      hide HashPid, Valid;
      if p.pid == 0 { return false; }
      var already := IsTracked(p.pid);
      if already.Some? { return false; }
      var parentTracked := IsTracked(p.parent);
      var isRoot := config.PathStartsWithAnyRoot(image(p.pid));
      if if childPass then parentTracked.Some? else isRoot {
        var _ := ClassifyAndInsert(p.pid, p.parent, image(p.pid), true, config, pool(p.pid));
        return true;
      }
      return false;
    }

    /** knFcTrackSnapshotPass. */
    method SnapshotPass(procs: seq<Proc>, childPass: bool, config: W.RootList, image: Pid -> WString, pool: Pool,
        ghost w: World)
      returns (changes: nat)
      requires Valid() && active && config.Valid() && w == World(config.up, config.Roots(), image)
      modifies buckets, this`entryCount, this`tracked
      ensures Valid() && config.Valid() && w == World(config.up, config.Roots(), image)
      ensures tracked == WholePass(w, old(tracked), procs, childPass, pool)
      ensures changes == Changes(w, old(tracked), procs, childPass, pool, |procs|)
    {
      hide HashPid, Valid, W.RootList.Valid, Visit, Candidate;
      changes := 0;
      for k := 0 to |procs|
        invariant Valid() && config.Valid() && w == World(config.up, config.Roots(), image)
        invariant tracked == Pass(w, old(tracked), procs, childPass, pool, k)
        invariant changes == Changes(w, old(tracked), procs, childPass, pool, k)
      {
        var changed := SnapshotVisit(procs[k], childPass, config, image, pool, w);
        if changed {
          changes := changes + 1;
        }
      }
    }

    /** knFcTrackSnapshot, once the process list has been obtained. */
    method TakeSnapshot(procs: seq<Proc>, config: W.RootList, image: Pid -> WString, pools: nat -> Pool, ghost w: World)
      requires Valid() && active && config.Valid() && w == World(config.up, config.Roots(), image)
      modifies buckets, this`entryCount, this`tracked
      ensures Valid() && config.Valid() && w == World(config.up, config.Roots(), image)
      ensures tracked == After(w, old(tracked), procs, pools, MAX_CHILD_PASSES)
    {
      hide HashPid, Valid, W.RootList.Valid, WholePass, Changes;
      var changes := SnapshotPass(procs, false, config, image, pools(0), w);
      for iter := 0 to MAX_CHILD_PASSES
        invariant Valid() && config.Valid() && w == World(config.up, config.Roots(), image)
        invariant tracked == After(w, old(tracked), procs, pools, iter)
      {
        ghost var before := tracked;
        changes := SnapshotPass(procs, true, config, image, pools(iter + 1), w);
        if changes == 0 {
          QuietIsStable(w, before, procs, pools(iter + 1));
          StableForEver(w, old(tracked), procs, pools, iter, MAX_CHILD_PASSES);
          return;
        }
      }
    }

    /** knFcTrackStop. */
    method StopTracking()
      requires Valid()
      modifies this, buckets
      ensures Valid() && !active && tracked == map[]
    {
      hide HashPid;
      active := false;
      PurgeAll();
    }
  }

  /** Rows of distinct tracked processes; pids is the set of those processes. */
  ghost predicate RowsOk(rows: seq<Row>, pids: set<Pid>, m: Tracked) {
    && |pids| == |rows|
    && (forall i :: 0 <= i < |rows| ==> rows[i].pid in pids && rows[i].pid in m && rows[i] == RowOf(m[rows[i].pid]))
    && (forall i, j :: 0 <= i < j < |rows| ==> rows[i].pid != rows[j].pid)
    && pids <= m.Keys
  }

  lemma NoPids(chain: seq<Entry>)
    ensures PidsOf(chain[..0]) == {}
  {}

  lemma AddRow(rows: seq<Row>, pids: set<Pid>, m: Tracked, p: Pid)
    requires RowsOk(rows, pids, m) && p in m && p !in pids && m[p].pid == p
    ensures RowsOk(rows + [RowOf(m[p])], pids + {p}, m)
  {}

  /** A full buffer and one more process: there are more processes than rows. */
  lemma FullBuffer(rows: seq<Row>, pids: set<Pid>, m: Tracked, p: Pid)
    requires RowsOk(rows, pids, m) && p in m && p !in pids
    ensures |rows| < |m|
  {
    Tally.SubsetSize(pids + {p}, m.Keys);
  }
}
