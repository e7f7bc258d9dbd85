/**
 The user-mode exclude commands and the guards that keep the backup out of its own input
 (MainViewModel.cs lines 83-130, 161-213, 345-408; DriverClient.cs lines 58-62).
 */
module SelfExcludes {
  import opened WideText
  import E = ExcludeList

  /**
   What becomes of one AddExclude message: it reaches the driver, whose allocations may fail, or the
   port refuses it with an error code, or the call throws (there is no port).
   */
  datatype Delivery = Sent(poolOk: bool) | Refused | Thrown

  /** The delivery of the k-th AddExclude message of a command. */
  type Wire = nat -> Delivery

  /** What the caller of DriverClient.AddExclude sees: code 0, another code, or an exception. */
  datatype Outcome = Accepted | Rejected | Threw

  const MANIFEST: WString := Wide("\\manifest.jsonl")

  /** DosToNtSubstring: the tail of a drive path, ended by a backslash. */
  function DosToNtSubstring(dos: WString): WString {
    if |dos| < 2 || dos[1] != COLON then []
    else
      var tail := dos[2..];
      if tail != [] && tail[|tail| - 1] == BACKSLASH then tail else tail + [BACKSLASH]
  }

  // ----- the commands on values -----

  /** The outcome for a driver list of count patterns; an empty pattern is rejected before it is sent. */
  function AddOutcome(count: nat, pattern: WString, d: Delivery): Outcome {
    if pattern == [] then Rejected
    else
      match d
      case Thrown => Threw
      case Refused => Rejected
      case Sent(poolOk) => if E.AddStatus(count, pattern, poolOk).Success? then Accepted else Rejected
  }

  function DriverAdd(list: seq<WString>, pattern: WString, d: Delivery): seq<WString> {
    if AddOutcome(|list|, pattern, d).Accepted? then list + [pattern] else list
  }

  /** An exception skips what is left and is swallowed. */
  function Register(list: seq<WString>, root: WString, wire: Wire): seq<WString> {
    var first := DriverAdd(list, MANIFEST, wire(0));
    var tail := DosToNtSubstring(root);
    if AddOutcome(|list|, MANIFEST, wire(0)).Threw? || tail == [] then first else DriverAdd(first, tail, wire(1))
  }

  /** The user's patterns added again, from position k on; an exception ends the command. */
  function Republish(list: seq<WString>, excludes: seq<WString>, wire: Wire, k: nat): seq<WString>
    requires k <= |excludes|
    decreases |excludes| - k
  {
    if k == |excludes| || AddOutcome(|list|, excludes[k], wire(k + 2)).Threw? then list
    else Republish(DriverAdd(list, excludes[k], wire(k + 2)), excludes, wire, k + 1)
  }

  function WithoutFirst(s: seq<WString>, x: WString): seq<WString> {
    if s == [] then [] else if s[0] == x then s[1..] else [s[0]] + WithoutFirst(s[1..], x)
  }

  /** sendOk: the ClearExcludes message got through. */
  datatype Command =
    | AddPattern(pattern: WString, wire: Wire)
    | ClearAll(sendOk: bool, wire: Wire)
    | RemovePattern(pattern: WString, sendOk: bool, wire: Wire)

  /** The driver's list, the user's list, and whether a session is open. */
  datatype Lists = Lists(driver: seq<WString>, user: seq<WString>, sessionOpen: bool)

  function Apply(l: Lists, root: WString, c: Command): Lists {
    match c
    case AddPattern(p, wire) =>
      if !AddOutcome(|l.driver|, p, wire(0)).Accepted? then l
      else l.(driver := l.driver + [p], user := if p in l.user then l.user else l.user + [p])
    case ClearAll(sendOk, wire) =>
      if !sendOk then l
      else l.(driver := if l.sessionOpen then Register([], root, wire) else [], user := [])
    case RemovePattern(p, sendOk, wire) =>
      if p == [] || p !in l.user || !sendOk then l
      else
        var user := WithoutFirst(l.user, p);
        var base := if l.sessionOpen then Register([], root, wire) else [];
        l.(driver := Republish(base, user, wire, 0), user := user)
  }

  // ----- the guards -----

  predicate Guarded(list: seq<WString>, root: WString) {
    MANIFEST in list && DosToNtSubstring(root) in list
  }

  /** The tail fits the driver's limit. */
  predicate FittingRoot(root: WString) {
    0 < |DosToNtSubstring(root)| <= E.MAX_PATTERN_CHARS
  }

  lemma TailIsNotManifest(root: WString)
    ensures DosToNtSubstring(root) != MANIFEST
  {
    assert MANIFEST[|MANIFEST| - 1] == 108;
  }

  /** The first two messages reach the driver and find memory there. */
  predicate GuardsGetThrough(wire: Wire) {
    wire(0) == wire(1) == Sent(true)
  }

  /**
   Opening a session puts both guards in place exactly when both messages get through and the list
   has room for two.
   */
  lemma GuardsRegisterExactlyWhenRoom(list: seq<WString>, root: WString, wire: Wire)
    requires FittingRoot(root) && MANIFEST !in list && DosToNtSubstring(root) !in list
    ensures Guarded(Register(list, root, wire), root) <==> GuardsGetThrough(wire) && |list| + 2 <= E.MAX_PATTERNS
  {
    TailIsNotManifest(root);
  }

  lemma {:induction false} RepublishKeeps(list: seq<WString>, excludes: seq<WString>, wire: Wire, k: nat)
    requires k <= |excludes|
    ensures forall p :: p in list ==> p in Republish(list, excludes, wire, k)
    ensures forall p :: p in Republish(list, excludes, wire, k) ==> p in list || p in excludes
    decreases |excludes| - k
  {
    if k < |excludes| {
      RepublishKeeps(DriverAdd(list, excludes[k], wire(k + 2)), excludes, wire, k + 1);
    }
  }

  /** A command keeps the guards if their re-registration gets through, however it ends. */
  lemma CommandKeepsGuards(l: Lists, root: WString, c: Command)
    requires FittingRoot(root) && l.sessionOpen && Guarded(l.driver, root)
    requires c.AddPattern? || !c.sendOk || GuardsGetThrough(c.wire)
    ensures Apply(l, root, c).sessionOpen && Guarded(Apply(l, root, c).driver, root)
  {
    if !c.AddPattern? && c.sendOk {
      TailIsNotManifest(root);
      GuardsRegisterExactlyWhenRoom([], root, c.wire);
      if c.RemovePattern? {
        RepublishKeeps(Register([], root, c.wire), WithoutFirst(l.user, c.pattern), c.wire, 0);
      }
    }
  }

  /**
   Clearing the excludes loses a guard exactly when a message is lost or refused or its allocation
   fails: all of it is swallowed.
   */
  lemma ClearKeepsGuardsExactlyWhenSent(l: Lists, root: WString, wire: Wire)
    requires FittingRoot(root) && l.sessionOpen && Guarded(l.driver, root)
    ensures Guarded(Apply(l, root, ClearAll(true, wire)).driver, root) <==> GuardsGetThrough(wire)
  {
    GuardsRegisterExactlyWhenRoom([], root, wire);
  }

  /** The first occurrence goes; everything before it and after it stays in order. */
  lemma {:induction false} WithoutFirstDropsOne(before: seq<WString>, x: WString, after: seq<WString>)
    requires x !in before
    ensures WithoutFirst(before + [x] + after, x) == before + after
  {
    var s := before + [x] + after;
    if before == [] {
      assert s[1..] == after && before + after == after;
    } else {
      assert s[1..] == before[1..] + [x] + after;
      WithoutFirstDropsOne(before[1..], x, after);
      assert before + after == [before[0]] + (before[1..] + after);
    }
  }

  /** Without an occurrence nothing goes. */
  lemma {:induction false} WithoutFirstKeepsOthers(s: seq<WString>, x: WString)
    requires x !in s
    ensures WithoutFirst(s, x) == s
  {
    if s != [] {
      WithoutFirstKeepsOthers(s[1..], x);
    }
  }

  lemma {:induction false} WithoutFirstIsPart(s: seq<WString>, x: WString)
    ensures forall p :: p in WithoutFirst(s, x) ==> p in s
  {
    if s != [] {
      WithoutFirstIsPart(s[1..], x);
    }
  }

  /** The driver's list when position k of the user's list is about to be added again. */
  function ListAt(list: seq<WString>, excludes: seq<WString>, wire: Wire, k: nat): seq<WString>
    requires k <= |excludes|
  {
    if k == 0 then list
    else
      var before := ListAt(list, excludes, wire, k - 1);
      DriverAdd(before, excludes[k - 1], wire(k + 1))
  }

  function OutcomeAt(list: seq<WString>, excludes: seq<WString>, wire: Wire, k: nat): Outcome
    requires k < |excludes|
  {
    AddOutcome(|ListAt(list, excludes, wire, k)|, excludes[k], wire(k + 2))
  }

  /** The user's list holds p at a place that is reached, no earlier message having thrown, and accepted there. */
  ghost predicate PutBack(list: seq<WString>, excludes: seq<WString>, wire: Wire, p: WString) {
    PutBackFrom(list, excludes, wire, 0, p)
  }

  ghost predicate PutBackFrom(list: seq<WString>, excludes: seq<WString>, wire: Wire, k: nat, p: WString) {
    exists i :: k <= i < |excludes| && excludes[i] == p && OutcomeAt(list, excludes, wire, i).Accepted?
      && forall j :: k <= j < i ==> !OutcomeAt(list, excludes, wire, j).Threw?
  }

  lemma PutBackSplits(list: seq<WString>, excludes: seq<WString>, wire: Wire, k: nat, p: WString)
    requires k < |excludes|
    ensures var here := OutcomeAt(list, excludes, wire, k);
      PutBackFrom(list, excludes, wire, k, p) <==>
        (excludes[k] == p && here.Accepted?) || (!here.Threw? && PutBackFrom(list, excludes, wire, k + 1, p))
  {
    hide OutcomeAt;
    if PutBackFrom(list, excludes, wire, k + 1, p) && !OutcomeAt(list, excludes, wire, k).Threw? {
      var i :| k + 1 <= i < |excludes| && excludes[i] == p && OutcomeAt(list, excludes, wire, i).Accepted?
        && forall j :: k + 1 <= j < i ==> !OutcomeAt(list, excludes, wire, j).Threw?;
      assert forall j :: k <= j < i ==> !OutcomeAt(list, excludes, wire, j).Threw?;
    }
  }

  /** From position k on: what is in the list, or is put back from there. */
  lemma {:induction false} RepublishFrom(list: seq<WString>, excludes: seq<WString>, wire: Wire, k: nat, p: WString)
    requires k <= |excludes|
    ensures p in Republish(ListAt(list, excludes, wire, k), excludes, wire, k) <==>
      p in ListAt(list, excludes, wire, k) || PutBackFrom(list, excludes, wire, k, p)
    decreases |excludes| - k
  {
    if k < |excludes| {
      RepublishFrom(list, excludes, wire, k + 1, p);
      PutBackSplits(list, excludes, wire, k, p);
      hide PutBackFrom;
    }
  }

  /** The guards that are registered first: an exception in the first message skips the second. */
  lemma RegisteredFromNothing(root: WString, wire: Wire)
    requires FittingRoot(root)
    ensures MANIFEST in Register([], root, wire) <==> wire(0) == Sent(true)
    ensures DosToNtSubstring(root) in Register([], root, wire) <==> wire(1) == Sent(true) && !wire(0).Thrown?
  {
    TailIsNotManifest(root);
  }

  /**
   Removing a pattern keeps the guards exactly when each of them gets through at its registration or
   is put back from the user's own list.
   */
  lemma RemoveKeepsGuardsExactlyWhenSentOrPutBack(l: Lists, root: WString, pattern: WString, wire: Wire)
    requires FittingRoot(root) && l.sessionOpen && pattern != [] && pattern in l.user
    ensures var user, base, tail := WithoutFirst(l.user, pattern), Register([], root, wire), DosToNtSubstring(root);
      Guarded(Apply(l, root, RemovePattern(pattern, true, wire)).driver, root) <==>
        && (wire(0) == Sent(true) || PutBack(base, user, wire, MANIFEST))
        && ((wire(1) == Sent(true) && !wire(0).Thrown?) || PutBack(base, user, wire, tail))
  {
    var user, base := WithoutFirst(l.user, pattern), Register([], root, wire);
    RegisteredFromNothing(root, wire);
    RepublishFrom(base, user, wire, 0, MANIFEST);
    RepublishFrom(base, user, wire, 0, DosToNtSubstring(root));
    hide Register, DosToNtSubstring, OutcomeAt, Republish;
  }

  /** In particular, when the user's own list holds no guard, both messages must get through. */
  lemma RemoveKeepsGuardsExactlyWhenSent(l: Lists, root: WString, pattern: WString, wire: Wire)
    requires FittingRoot(root) && l.sessionOpen && Guarded(l.driver, root) && pattern != [] && pattern in l.user
    requires MANIFEST !in l.user && DosToNtSubstring(root) !in l.user
    ensures Guarded(Apply(l, root, RemovePattern(pattern, true, wire)).driver, root) <==> GuardsGetThrough(wire)
  {
    GuardsRegisterExactlyWhenRoom([], root, wire);
    WithoutFirstIsPart(l.user, pattern);
    RepublishKeeps(Register([], root, wire), WithoutFirst(l.user, pattern), wire, 0);
  }

  function ApplyAll(l: Lists, root: WString, cs: seq<Command>): Lists {
    if cs == [] then l else Apply(ApplyAll(l, root, cs[..|cs| - 1]), root, cs[|cs| - 1])
  }

  /** However the user edits the list, the guards are there after every command whose re-registration gets through. */
  lemma {:induction false} GuardsSurvive(l: Lists, root: WString, cs: seq<Command>)
    requires FittingRoot(root) && l.sessionOpen && Guarded(l.driver, root)
    requires forall i :: 0 <= i < |cs| ==> cs[i].AddPattern? || !cs[i].sendOk || GuardsGetThrough(cs[i].wire)
    ensures ApplyAll(l, root, cs).sessionOpen && Guarded(ApplyAll(l, root, cs).driver, root)
  {
    if cs != [] {
      GuardsSurvive(l, root, cs[..|cs| - 1]);
      CommandKeepsGuards(ApplyAll(l, root, cs[..|cs| - 1]), root, cs[|cs| - 1]);
    }
  }

  // ----- the view model -----

  class ViewModel {
    const driver: E.Patterns
    const backupRoot: WString
    var excludes: seq<WString>
    var sessionOpen: bool

    ghost predicate Valid()
      reads this, driver, driver.slots
    {
      driver.Valid()
    }

    ghost function State(): Lists
      reads this, driver, driver.slots
      requires Valid()
    {
      Lists(driver.List(), excludes, sessionOpen)
    }

    constructor (driver: E.Patterns, backupRoot: WString)
      requires driver.Valid()
      ensures Valid() && this.driver == driver && this.backupRoot == backupRoot
      ensures State() == Lists(driver.List(), [], false)
    {
      this.driver, this.backupRoot := driver, backupRoot;
      excludes, sessionOpen := [], false;
    }

    /** DriverClient.AddExclude. */
    method AddExclude(pattern: WString, d: Delivery) returns (rc: Outcome)
      requires Valid()
      modifies driver`count, driver.slots
      ensures Valid()
      ensures rc == AddOutcome(|old(driver.List())|, pattern, d)
      ensures driver.List() == DriverAdd(old(driver.List()), pattern, d)
    {
      if pattern == [] { return Rejected; }
      if d.Thrown? { return Threw; }
      if d.Refused? { return Rejected; }
      var bytes := 2 * |pattern|;
      var buffer := E.UserBuffer(true, d.poolOk, true);
      var status := driver.HandleAddExclude(E.REQUEST_HEADER_BYTES + bytes, bytes, pattern, buffer, d.poolOk);
      assert pattern[..|pattern|] == pattern;
      rc := if status.Success? then Accepted else Rejected;
    }

    /** RegisterSelfExcludes; leaving on an exception is the catch block. */
    method RegisterSelfExcludes(wire: Wire)
      requires Valid()
      modifies driver`count, driver.slots
      ensures Valid() && driver.List() == Register(old(driver.List()), backupRoot, wire)
    {
      var rc := AddExclude(MANIFEST, wire(0));
      if rc.Threw? { return; }
      var nt := DosToNtSubstring(backupRoot);
      if nt != [] {
        rc := AddExclude(nt, wire(1));
      }
    }

    /** EnsureSessionWorker, for the part that concerns the guards. */
    method EnsureSession(directoryOk: bool, manifestOk: bool, wire: Wire) returns (ok: bool)
      requires Valid()
      modifies this`sessionOpen, driver`count, driver.slots
      ensures Valid() && excludes == old(excludes)
      ensures ok <==> old(sessionOpen) || (backupRoot != [] && directoryOk && manifestOk)
      ensures sessionOpen == ok
      ensures driver.List() == if ok && !old(sessionOpen) then Register(old(driver.List()), backupRoot, wire)
          else old(driver.List())
    {
      if sessionOpen { return true; }
      if backupRoot == [] || !directoryOk || !manifestOk { return false; }
      RegisterSelfExcludes(wire);
      sessionOpen := true;
      return true;
    }

    /** InvokeAddExclude, after trimming. */
    method InvokeAddExclude(pattern: WString, wire: Wire)
      requires Valid()
      modifies this`excludes, driver`count, driver.slots
      ensures Valid() && State() == Apply(old(State()), backupRoot, AddPattern(pattern, wire))
    {
      if pattern == [] { return; }
      var rc := AddExclude(pattern, wire(0));
      if rc.Accepted? && pattern !in excludes {
        excludes := excludes + [pattern];
      }
    }

    method InvokeClearExcludes(sendOk: bool, wire: Wire)
      requires Valid()
      modifies this`excludes, driver`count, driver.slots
      ensures Valid() && State() == Apply(old(State()), backupRoot, ClearAll(sendOk, wire))
    {
      if sendOk {
        driver.Clear();
        excludes := [];
        if sessionOpen {
          RegisterSelfExcludes(wire);
        }
      }
    }

    /** InvokeRemoveExclude; an exception while adding again leaves the command. */
    method InvokeRemoveExclude(pattern: WString, sendOk: bool, wire: Wire) returns (reAddFails: nat)
      requires Valid()
      modifies this`excludes, driver`count, driver.slots
      ensures Valid() && State() == Apply(old(State()), backupRoot, RemovePattern(pattern, sendOk, wire))
    {
      hide AddOutcome, DriverAdd, DosToNtSubstring, Register;
      reAddFails := 0;
      if pattern == [] || pattern !in excludes { return; }
      if !sendOk { return; }
      driver.Clear();
      excludes := WithoutFirst(excludes, pattern);
      if sessionOpen {
        RegisterSelfExcludes(wire);
      }
      ghost var base := driver.List();
      for i := 0 to |excludes|
        invariant Valid() && excludes == WithoutFirst(old(excludes), pattern) && sessionOpen == old(sessionOpen)
        invariant Republish(base, excludes, wire, 0) == Republish(driver.List(), excludes, wire, i)
      {
        ghost var before := driver.List();
        var rc := AddExclude(excludes[i], wire(i + 2));
        if rc.Threw? {
          assert driver.List() == before by { ThrownAddsNothing(before, excludes[i], wire(i + 2)); }
          return;
        }
        if rc.Rejected? { reAddFails := reAddFails + 1; }
      }
    }
  }

  lemma ThrownAddsNothing(list: seq<WString>, pattern: WString, d: Delivery)
    requires AddOutcome(|list|, pattern, d).Threw?
    ensures DriverAdd(list, pattern, d) == list
  {}
}
