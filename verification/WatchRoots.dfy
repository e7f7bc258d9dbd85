/** The watch-root list and its boundary-aware prefix match (knFcConfig.cpp). */
module WatchRoots {
  import opened WideText

  const MAX_ROOTS: nat := 16
  const MAX_PATH_CHARS: nat := 520

  datatype Status = Success | InvalidParameter | NameTooLong | InsufficientResources | QuotaExceeded

  // ----- the meaning of a match: path components -----

  /** The components of a path: the pieces between backslashes. */
  function Components(s: WString): (r: seq<WString>)
    ensures |r| >= 1
  {
    if s == [] then [[]]
    else if s[0] == BACKSLASH then [[]] + Components(s[1..])
    else
      var rest := Components(s[1..]);
      [[s[0]] + rest[0]] + rest[1..]
  }

  /**
   root names an ancestor of path, or path itself; a root written with a final backslash names strict
   descendants only.
   */
  predicate Covers(up: CaseMap, root: WString, path: WString) {
    var (r, p) := (Upcase(up, root), Upcase(up, path));
    if r != [] && r[|r| - 1] == BACKSLASH then Components(r[..|r| - 1]) < Components(p)
    else Components(r) <= Components(p)
  }

  predicate UnderSomeRoot(up: CaseMap, roots: seq<WString>, path: WString) {
    path != [] && exists i :: 0 <= i < |roots| && Covers(up, roots[i], path)
  }

  // ----- components and characters -----

  lemma {:induction false} ComponentsPrefix(a: WString, b: WString)
    ensures Components(a) <= Components(b) <==> a <= b && (|a| == |b| || b[|a|] == BACKSLASH)
  {
    var (ca, cb) := (Components(a), Components(b));
    if a == [] {
      assert ca <= cb <==> cb[0] == [];
    } else if b == [] {
      assert ca <= cb ==> ca == [[]];
    } else {
      ComponentsPrefix(a[1..], b[1..]);
      var (ta, tb) := (Components(a[1..]), Components(b[1..]));
      assert a <= b <==> a[0] == b[0] && a[1..] <= b[1..];
      if a[0] == BACKSLASH && b[0] == BACKSLASH {
        assert ca[1..] == ta && cb[1..] == tb;
        assert ca <= cb <==> ta <= tb;
      } else if a[0] != BACKSLASH && b[0] != BACKSLASH {
        assert ca[0][1..] == ta[0] && cb[0][1..] == tb[0];
        assert ca[1..] == ta[1..] && cb[1..] == tb[1..];
        assert ca <= cb <==> ca[0] == cb[0] && ca[1..] <= cb[1..];
        assert ta <= tb <==> ta[0] == tb[0] && ta[1..] <= tb[1..];
      }
    }
  }

  lemma {:induction false} ComponentsCount(a: WString, b: WString)
    ensures |Components(a + [BACKSLASH] + b)| > |Components(a)|
  {
    if a == [] {
      assert (a + [BACKSLASH] + b)[1..] == b;
    } else {
      ComponentsCount(a[1..], b);
      assert (a + [BACKSLASH] + b)[1..] == a[1..] + [BACKSLASH] + b;
    }
  }

  lemma StrictPrefix(a: WString, b: WString)
    ensures Components(a) < Components(b) <==> a + [BACKSLASH] <= b
  {
    ComponentsPrefix(a, b);
    assert a + [BACKSLASH] <= b <==> a <= b && |a| < |b| && b[|a|] == BACKSLASH;
    if a <= b && |a| < |b| && b[|a|] == BACKSLASH {
      assert b == a + [BACKSLASH] + b[|a| + 1..];
      ComponentsCount(a, b[|a| + 1..]);
    }
    if a <= b && |a| == |b| {
      assert a == b;
    }
  }

  /** The test of lines 144-180 on one root. */
  predicate BoundaryMatch(up: CaseMap, root: WString, path: WString) {
    && root != [] && |root| <= |path|
    && Upcase(up, root) <= Upcase(up, path)
    && (root[|root| - 1] == BACKSLASH || |path| == |root| || path[|root|] == BACKSLASH)
  }

  lemma BoundaryMatchIsCovers(up: CaseMap, root: WString, path: WString)
    requires KeepsSeparator(up) && root != []
    ensures BoundaryMatch(up, root, path) <==> Covers(up, root, path)
  {
    var (r, p) := (Upcase(up, root), Upcase(up, path));
    if r[|r| - 1] == BACKSLASH {
      StrictPrefix(r[..|r| - 1], p);
      assert r[..|r| - 1] + [BACKSLASH] == r;
    } else {
      ComponentsPrefix(r, p);
    }
  }

  /** Case does not matter, and a sibling that merely shares the prefix is not covered. */
  lemma SiblingIsNotCovered(up: CaseMap, root: WString, tail: WString)
    requires KeepsSeparator(up) && root != [] && root[|root| - 1] != BACKSLASH
    requires tail != [] && tail[0] != BACKSLASH
    ensures !Covers(up, root, root + tail)
    ensures Covers(up, root, root + [BACKSLASH] + tail)
  {
    UpcaseConcat(up, root, tail);
    UpcaseConcat(up, root + [BACKSLASH], tail);
    UpcaseConcat(up, root, [BACKSLASH]);
    BoundaryMatchIsCovers(up, root, root + tail);
    BoundaryMatchIsCovers(up, root, root + [BACKSLASH] + tail);
  }

  // ----- the list -----

  /** What adding a root to a list of count roots answers: the first test that fails. */
  function AddStatus(count: nat, path: WString, poolOk: bool): Status {
    if path == [] then InvalidParameter
    else if |path| > MAX_PATH_CHARS then NameTooLong
    else if !poolOk then InsufficientResources
    else if count >= MAX_ROOTS then QuotaExceeded
    else Success
  }

  class RootList {
    const up: CaseMap
    const slots: array<WString>
    var rootCount: nat

    ghost predicate Valid()
      reads this, slots
    {
      && slots.Length == MAX_ROOTS && rootCount <= MAX_ROOTS && KeepsSeparator(up)
      && forall i :: 0 <= i < rootCount ==> 0 < |slots[i]| <= MAX_PATH_CHARS
    }

    ghost function Roots(): seq<WString>
      reads this, slots
      requires Valid()
    {
      slots[..rootCount]
    }

    constructor (up: CaseMap)
      requires KeepsSeparator(up)
      ensures Valid() && fresh(slots) && Roots() == [] && this.up == up
    {
      this.up := up;
      slots := new WString[MAX_ROOTS](_ => []);
      rootCount := 0;
    }

    /** knFcConfigAddRoot; poolOk is the outcome of the allocation. */
    method AddRoot(path: WString, poolOk: bool) returns (status: Status)
      requires Valid()
      modifies this`rootCount, slots
      ensures Valid()
      ensures status == AddStatus(|old(Roots())|, path, poolOk)
      ensures Roots() == if status.Success? then old(Roots()) + [path] else old(Roots())
    {
      if path == [] { return InvalidParameter; }
      if |path| > MAX_PATH_CHARS { return NameTooLong; }
      if !poolOk { return InsufficientResources; }
      if rootCount >= MAX_ROOTS { return QuotaExceeded; }
      slots[rootCount] := path;
      rootCount := rootCount + 1;
      return Success;
    }

    method ClearRoots()
      requires Valid()
      modifies this`rootCount, slots
      ensures Valid() && Roots() == []
    {
      for i := 0 to rootCount
      {
        slots[i] := [];
      }
      rootCount := 0;
    }

    /** knFcConfigPathStartsWithAnyRoot. */
    method PathStartsWithAnyRoot(path: WString) returns (result: bool)
      requires Valid()
      ensures result <==> UnderSomeRoot(up, Roots(), path)
    {
      result := false;
      if path == [] { return; }
      var i := 0;
      while i < rootCount
        invariant i <= rootCount && !result
        invariant forall j :: 0 <= j < i ==> !Covers(up, slots[j], path)
      {
        var root := slots[i];
        BoundaryMatchIsCovers(up, root, path);
        if |path| >= |root| && Upcase(up, root) <= Upcase(up, path) {
          if root[|root| - 1] == BACKSLASH || |path| == |root| || path[|root|] == BACKSLASH {
            result := true;
            assert Roots()[i] == root;
            return;
          }
        }
        i := i + 1;
      }
    }
  }
}
