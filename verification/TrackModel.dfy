/**
 Process tracking as a partial map (knFcTrack.cpp): classification of one process, and lineage
 over whole runs of create, exit, watch-root and start/stop events.
 */
module TrackModel {
  import opened Options
  import opened WideText
  import W = WatchRoots

  newtype Pid = x: int | 0 <= x < 0x1_0000_0000_0000_0000

  datatype Flags = Flags(isRoot: bool, isChild: bool, exited: bool, fromSnapshot: bool)

  datatype Entry = Entry(pid: Pid, parent: Pid, root: Pid, flags: Flags, image: WString)

  type Tracked = map<Pid, Entry>

  function RootEntry(pid: Pid, parent: Pid, image: WString, fromSnapshot: bool): Entry {
    Entry(pid, parent, pid, Flags(true, false, false, fromSnapshot), image)
  }

  function ChildEntry(pid: Pid, parent: Pid, root: Pid, image: WString, fromSnapshot: bool): Entry {
    Entry(pid, parent, root, Flags(false, true, false, fromSnapshot), image)
  }

  /** knFcClassifyAndInsert on the map; poolOk is the outcome of the allocations. */
  function Classify(m: Tracked, isRoot: bool, pid: Pid, parent: Pid, image: WString, fromSnapshot: bool,
      poolOk: bool): Tracked {
    if pid in m || !poolOk then m
    else if isRoot then m[pid := RootEntry(pid, parent, image, fromSnapshot)]
    else if parent in m then m[pid := ChildEntry(pid, parent, m[parent].root, image, fromSnapshot)]
    else m
  }

  // ----- runs -----

  datatype Event =
    | Create(pid: Pid, parent: Pid, image: WString, fromSnapshot: bool, poolOk: bool)
    | Exit(pid: Pid)
    | AddRoot(path: WString, poolOk: bool)
    | ClearRoots
    | Start
    | Stop

  /** everRoot: the processes classified ROOT since tracking last started with an empty table. */
  datatype State = State(tracked: Tracked, roots: seq<WString>, active: bool, everRoot: set<Pid>)

  function Step(up: CaseMap, s: State, e: Event): State {
    match e
    case Create(pid, parent, image, fromSnapshot, poolOk) =>
      if !s.active then s
      else
        var isRoot := W.UnderSomeRoot(up, s.roots, image);
        var t := Classify(s.tracked, isRoot, pid, parent, image, fromSnapshot, poolOk);
        s.(tracked := t, everRoot := if isRoot && pid !in s.tracked && pid in t then s.everRoot + {pid} else s.everRoot)
    case Exit(pid) =>
      if !s.active then s else s.(tracked := s.tracked - {pid})
    case AddRoot(path, poolOk) =>
      if W.AddStatus(|s.roots|, path, poolOk).Success? then s.(roots := s.roots + [path]) else s
    case ClearRoots => s.(roots := [])
    case Start => s.(active := true)
    case Stop => s.(active := false, tracked := map[], everRoot := {})
  }

  function Run(up: CaseMap, events: seq<Event>): State {
    if events == [] then State(map[], [], false, {})
    else Step(up, Run(up, events[..|events| - 1]), events[|events| - 1])
  }

  // ----- the switch and the roots -----

  /** Tracking was started by some event and not stopped since. */
  ghost predicate Started(events: seq<Event>) {
    exists i :: 0 <= i < |events| && events[i].Start? && forall j :: i < j < |events| ==> !events[j].Stop?
  }

  lemma StartedStep(events: seq<Event>, e: Event)
    ensures Started(events + [e]) <==> e.Start? || (Started(events) && !e.Stop?)
  {
    var longer := events + [e];
    assert forall j :: 0 <= j < |events| ==> longer[j] == events[j];
    assert longer[|events|] == e;
    if Started(longer) && !e.Start? {
      var i :| 0 <= i < |longer| && longer[i].Start? && forall j :: i < j < |longer| ==> !longer[j].Stop?;
      assert events[i].Start? && !longer[|events|].Stop?;
    }
    if Started(events) && !e.Stop? {
      var i :| 0 <= i < |events| && events[i].Start? && forall j :: i < j < |events| ==> !events[j].Stop?;
      assert longer[i].Start?;
    }
  }

  lemma {:induction false} ActiveExactlySinceStart(up: CaseMap, events: seq<Event>)
    ensures Run(up, events).active <==> Started(events)
  {
    if events != [] {
      var front, e := events[..|events| - 1], events[|events| - 1];
      assert front + [e] == events;
      ActiveExactlySinceStart(up, front);
      StartedStep(front, e);
      hide Started;
    }
  }

  /** Event i adds root path: a path of an allowed length, with memory, while the list has room. */
  predicate Adds(up: CaseMap, events: seq<Event>, i: nat, path: WString)
    requires i < |events|
  {
    var e := events[i];
    e.AddRoot? && e.path == path && e.poolOk && 0 < |path| <= W.MAX_PATH_CHARS
    && |Run(up, events[..i]).roots| < W.MAX_ROOTS
  }

  ghost predicate Unbroken(events: seq<Event>, i: nat) {
    forall j :: i < j < |events| ==> !events[j].ClearRoots?
  }

  ghost predicate StillSet(up: CaseMap, events: seq<Event>, path: WString) {
    exists i :: 0 <= i < |events| && Adds(up, events, i, path) && Unbroken(events, i)
  }

  lemma StillSetStep(up: CaseMap, events: seq<Event>, e: Event, path: WString)
    ensures StillSet(up, events + [e], path) <==>
      Adds(up, events + [e], |events|, path) || (StillSet(up, events, path) && !e.ClearRoots?)
  {
    var longer := events + [e];
    assert forall j :: 0 <= j < |events| ==> longer[j] == events[j];
    assert forall i :: 0 <= i <= |events| ==> longer[..i] == events[..i];
    assert longer[|events|] == e;
    hide Run;
    if StillSet(up, events, path) && !e.ClearRoots? {
      var i :| 0 <= i < |events| && Adds(up, events, i, path) && Unbroken(events, i);
      assert Adds(up, longer, i, path);
    }
    if StillSet(up, longer, path) && !Adds(up, longer, |events|, path) {
      var i :| 0 <= i < |longer| && Adds(up, longer, i, path) && Unbroken(longer, i);
      assert Adds(up, events, i, path) && !longer[|events|].ClearRoots?;
    }
  }

  /** The watch roots are exactly the paths that were accepted since the list was last cleared. */
  lemma {:induction false} RootsAreTheAdded(up: CaseMap, events: seq<Event>, path: WString)
    ensures path in Run(up, events).roots <==> StillSet(up, events, path)
  {
    if events != [] {
      var front, e := events[..|events| - 1], events[|events| - 1];
      assert front + [e] == events;
      RootsAreTheAdded(up, front, path);
      StillSetStep(up, front, e, path);
      assert events[..|front|] == front;
      hide StillSet;
    }
  }

  // ----- lineage -----

  /** One entry: either a ROOT that is its own root, or a CHILD whose root was classified ROOT in this run. */
  predicate WellBorn(e: Entry, pid: Pid, everRoot: set<Pid>) {
    && e.pid == pid && !e.flags.exited
    && (e.flags.isRoot <==> !e.flags.isChild)
    && (e.flags.isRoot ==> e.root == pid)
    && e.root in everRoot
  }

  ghost predicate Lineage(s: State) {
    && (forall p :: p in s.tracked ==> WellBorn(s.tracked[p], p, s.everRoot))
    && (!s.active ==> s.tracked == map[])
  }

  lemma StepKeepsLineage(up: CaseMap, s: State, e: Event)
    requires Lineage(s)
    ensures Lineage(Step(up, s, e))
  {
    if e.Create? && e.parent in s.tracked {
      assert WellBorn(s.tracked[e.parent], e.parent, s.everRoot);
    }
  }

  /** Lineage survives any order of creations, exits (of the parent, of the root), pid reuse and watch-root edits. */
  lemma {:induction false} LineageHolds(up: CaseMap, events: seq<Event>)
    ensures Lineage(Run(up, events))
  {
    if events != [] {
      LineageHolds(up, events[..|events| - 1]);
      StepKeepsLineage(up, Run(up, events[..|events| - 1]), events[|events| - 1]);
    }
  }

  /** Entry x says what creation e announced, and its kind and root are those that state s called for. */
  predicate Records(up: CaseMap, s: State, e: Event, x: Entry)
    requires e.Create?
  {
    && x.pid == e.pid && x.parent == e.parent && x.image == e.image
    && x.flags.fromSnapshot == e.fromSnapshot && !x.flags.exited
    && (if W.UnderSomeRoot(up, s.roots, e.image)
        then x.flags.isRoot && !x.flags.isChild && x.root == e.pid
        else !x.flags.isRoot && x.flags.isChild && e.parent in s.tracked && x.root == s.tracked[e.parent].root)
  }

  /** Entry x of process p was made by event i, which found no other, and p has not been expelled since. */
  ghost predicate MadeBy(up: CaseMap, events: seq<Event>, i: nat, p: Pid, x: Entry) {
    && i < |events| && Admits(up, events, i, p) && p !in Run(up, events[..i]).tracked
    && Records(up, Run(up, events[..i]), events[i], x) && forall j :: i < j < |events| ==> !Expels(events[j], p)
  }

  lemma MadeByGrows(up: CaseMap, events: seq<Event>, e: Event, i: nat, p: Pid, x: Entry)
    requires MadeBy(up, events, i, p, x) && !Expels(e, p)
    ensures MadeBy(up, events + [e], i, p, x)
  {
    var longer := events + [e];
    assert longer[..i] == events[..i] && longer[i] == events[i];
    assert forall j :: i < j < |longer| ==> longer[j] == if j < |events| then events[j] else e;
    hide Run;
  }

  /**
   Over any run every live entry is the one its admission made, untouched since: a ROOT of its own if
   the image was under a watch root then, otherwise a CHILD with the root its parent had then.
   */
  lemma {:induction false} EntryIsFromAdmission(up: CaseMap, events: seq<Event>, p: Pid)
    requires p in Run(up, events).tracked
    ensures exists i :: MadeBy(up, events, i, p, Run(up, events).tracked[p])
  {
    var front, e := events[..|events| - 1], events[|events| - 1];
    var s := Run(up, front);
    assert front + [e] == events;
    LineageHolds(up, front);
    if p in s.tracked {
      EntryIsFromAdmission(up, front, p);
      var i :| MadeBy(up, front, i, p, s.tracked[p]);
      assert !Expels(e, p) && Run(up, events).tracked[p] == s.tracked[p];
      MadeByGrows(up, front, e, i, p, s.tracked[p]);
    } else {
      assert MadeBy(up, events, |front|, p, Run(up, events).tracked[p]);
    }
  }

  /**
   While tracking, a process created under a tracked parent is tracked, and inherits the parent's
   root unless it is one itself.
   */
  lemma ChildOfTrackedIsTracked(up: CaseMap, events: seq<Event>, e: Event)
    requires e.Create? && e.poolOk && Run(up, events).active
    requires e.parent in Run(up, events).tracked || W.UnderSomeRoot(up, Run(up, events).roots, e.image)
    ensures var (s, t) := (Run(up, events), Run(up, events + [e]));
      && e.pid in t.tracked
      && (e.pid !in s.tracked ==>
            t.tracked[e.pid].root
                == (if W.UnderSomeRoot(up, s.roots, e.image) then e.pid else s.tracked[e.parent].root))
      && (forall p :: p in s.tracked ==> p in t.tracked && t.tracked[p] == s.tracked[p])
  {
    assert (events + [e])[..|events|] == events;
  }

  /** Event i lets process p in: a creation while tracking, with memory, under a root or a tracked parent. */
  predicate Admits(up: CaseMap, events: seq<Event>, i: nat, p: Pid)
    requires i < |events|
  {
    var (s, e) := (Run(up, events[..i]), events[i]);
    e.Create? && e.pid == p && e.poolOk && s.active && (W.UnderSomeRoot(up, s.roots, e.image) || e.parent in s.tracked)
  }

  predicate Expels(e: Event, p: Pid) { e.Stop? || e == Exit(p) }

  /** Process p was let in by some event and not expelled since. */
  ghost predicate StillIn(up: CaseMap, events: seq<Event>, p: Pid) {
    exists i :: 0 <= i < |events| && Admits(up, events, i, p) && forall j :: i < j < |events| ==> !Expels(events[j], p)
  }

  lemma StillInStep(up: CaseMap, events: seq<Event>, e: Event, p: Pid)
    ensures StillIn(up, events + [e], p) <==>
      Admits(up, events + [e], |events|, p) || (StillIn(up, events, p) && !Expels(e, p))
  {
    var longer := events + [e];
    assert forall j :: 0 <= j < |events| ==> longer[j] == events[j];
    assert forall i :: 0 <= i <= |events| ==> longer[..i] == events[..i];
    if StillIn(up, events, p) && !Expels(e, p) {
      var i :| 0 <= i < |events| && Admits(up, events, i, p) && forall j :: i < j < |events| ==> !Expels(events[j], p);
      assert Admits(up, longer, i, p);
    }
    if Admits(up, longer, |events|, p) {
      assert longer[|events|] == e && |longer| == |events| + 1;
    }
    if StillIn(up, longer, p) && !Admits(up, longer, |events|, p) {
      var i :| 0 <= i < |longer| && Admits(up, longer, i, p) && forall j :: i < j < |longer| ==> !Expels(longer[j], p);
      assert Admits(up, events, i, p) && !Expels(longer[|events|], p);
    }
  }

  /**
   A process is tracked exactly when some event of the run let it in and it has neither exited nor
   the tracking stopped since: no stranger is ever tracked, and nobody is forgotten.
   */
  lemma {:induction false} TrackedExactlyByAdmission(up: CaseMap, events: seq<Event>, p: Pid)
    ensures p in Run(up, events).tracked <==> StillIn(up, events, p)
  {
    if events != [] {
      var front, e := events[..|events| - 1], events[|events| - 1];
      TrackedExactlyByAdmission(up, front, p);
      LineageHolds(up, front);
      StillInStep(up, front, e, p);
      assert front + [e] == events;
      assert events[..|front|] == front;
      hide StillIn, WellBorn;
    }
  }
}
