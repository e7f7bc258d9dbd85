/** The files a session writes are never taken for new input: destinations against the self-excludes. */
module FeedbackGuard {
  import opened WideText
  import E = ExcludeList
  import S = SelfExcludes
  import M = MirrorDestination

  /** A drive-absolute root with canonical separators. */
  predicate CanonicalRoot(root: WString) {
    |root| >= 3 && root[1] == COLON && root[2] == BACKSLASH && SLASH !in root && COLON !in root[2..]
  }

  /** The session directory: session_ and a time stamp under the root. */
  function SessionDir(root: WString, stamp: WString): WString {
    M.Combine(root, Wide("session_") + stamp)
  }

  /** A time stamp is digits and letters. */
  predicate Stamp(s: WString) {
    forall i :: 0 <= i < |s| ==> s[i] != BACKSLASH && s[i] != SLASH && s[i] != COLON
  }

  /** The kernel's name of a drive path: the volume in place of the drive prefix. */
  function NtName(volume: WString, dos: WString): WString
    requires |dos| >= 2
  {
    volume + dos[2..]
  }

  lemma SessionDirHoldsTail(root: WString, stamp: WString)
    requires CanonicalRoot(root) && Stamp(stamp)
    ensures var d := SessionDir(root, stamp);
      |d| >= 3 && d[1] == COLON && !M.IsSeparator(d[|d| - 1]) && d[|d| - 1] != COLON
      && S.DosToNtSubstring(root) <= d[2..]
  {
    var name := Wide("session_") + stamp;
    assert name[0] == 115 && name[1] == 101;
    assert !M.Rooted(name);
    assert SessionDir(root, stamp)[2..] == S.DosToNtSubstring(root) + name;
  }

  lemma CombineUnrooted(dir: WString, rel: WString)
    requires dir != [] && !M.IsSeparator(dir[|dir| - 1]) && dir[|dir| - 1] != COLON
    requires !M.Rooted(rel)
    ensures dir <= M.Combine(dir, rel)
  {}

  /** A backup lands under its session directory exactly when the sanitised source does not start with a separator. */
  lemma StaysInSessionExactlyWhenUnrooted(dir: WString, src: WString)
    requires |dir| >= 3 && dir[1] == COLON && !M.IsSeparator(dir[|dir| - 1]) && dir[|dir| - 1] != COLON
    ensures dir <= M.PlainName(dir, src) <==> !M.Rooted(M.Sanitized(src))
  {
    var rel := M.Sanitized(src);
    assert COLON !in rel;
    if !M.Rooted(rel) {
      CombineUnrooted(dir, rel);
    } else {
      assert M.PlainName(dir, src) == rel;
      assert |rel| >= 2 ==> rel[1] in rel;
    }
  }

  // ----- what the guard on the root excludes -----

  /** With its drive in front the pattern is the root itself, ended by exactly one backslash if it was not. */
  lemma GuardSpellsRoot(root: WString)
    requires |root| >= 2 && root[1] == COLON
    ensures root[..2] + S.DosToNtSubstring(root)
      == if root[|root| - 1] == BACKSLASH then root else root + [BACKSLASH]
  {
    assert root[..2] + root[2..] == root;
  }

  /** From k on the path continues, caselessly, with the root's tail, and there a component ends. */
  predicate BelowAt(up: CaseMap, path: WString, root: WString, k: nat)
    requires CanonicalRoot(root)
  {
    var end := k + |root| - 2;
    && end <= |path| && Upcase(up, path[k..end]) == Upcase(up, root[2..])
    && (root[|root| - 1] == BACKSLASH || (end < |path| && path[end] == BACKSLASH))
  }

  lemma SameEnded(up: CaseMap, a: WString, c: WChar, b: WString)
    requires KeepsSeparator(up) && |a| == |b|
    ensures Upcase(up, a + [c]) == Upcase(up, b + [BACKSLASH]) <==> Upcase(up, a) == Upcase(up, b) && c == BACKSLASH
  {
    UpcaseConcat(up, a, [c]);
    UpcaseConcat(up, b, [BACKSLASH]);
    assert Upcase(up, [c]) == [up(c)] && Upcase(up, [BACKSLASH]) == [BACKSLASH];
    hide Upcase, KeepsSeparator;
    assert Upcase(up, a + [c])[..|a|] == Upcase(up, a) && Upcase(up, b + [BACKSLASH])[..|b|] == Upcase(up, b);
    assert Upcase(up, a + [c])[|a|] == up(c) && Upcase(up, b + [BACKSLASH])[|b|] == BACKSLASH;
  }

  lemma WindowIsBelow(up: CaseMap, path: WString, root: WString, k: nat)
    requires KeepsSeparator(up) && CanonicalRoot(root)
    ensures var tail := S.DosToNtSubstring(root);
      BelowAt(up, path, root, k) <==> k + |tail| <= |path| && E.WindowEquals(up, path, tail, k)
  {
    var tail, end := S.DosToNtSubstring(root), k + |root| - 2;
    assert tail == if root[|root| - 1] == BACKSLASH then root[2..] else root[2..] + [BACKSLASH];
    if root[|root| - 1] != BACKSLASH && end < |path| {
      assert path[k..end + 1] == path[k..end] + [path[end]];
      SameEnded(up, path[k..end], path[end], root[2..]);
    }
    hide Upcase;
  }

  /** The other half of the guard: it hits nothing but what lies below the root's tail. */
  lemma GuardHitsExactlyBelow(up: CaseMap, root: WString, path: WString)
    requires KeepsSeparator(up) && CanonicalRoot(root)
    ensures E.Hits(up, S.DosToNtSubstring(root), path) <==> exists k: nat :: BelowAt(up, path, root, k)
  {
    var tail := S.DosToNtSubstring(root);
    if E.Hits(up, tail, path) {
      var k := E.ContainsSomewhere(up, path, tail);
      WindowIsBelow(up, path, root, k);
    }
    if k: nat :| BelowAt(up, path, root, k) {
      WindowIsBelow(up, path, root, k);
      E.ContainsAt(up, path, tail, k);
    }
  }

  /** Together the guards exclude the journals and what lies below the root, and nothing else. */
  lemma GuardsExcludeExactly(up: CaseMap, root: WString, path: WString)
    requires KeepsSeparator(up) && CanonicalRoot(root)
    ensures E.Excluded(up, [S.MANIFEST, S.DosToNtSubstring(root)], path) <==>
        E.ContainsFolded(up, path, Wide("\\manifest.jsonl")) || exists k: nat :: BelowAt(up, path, root, k)
  {
    GuardHitsExactlyBelow(up, root, path);
    var both := [S.MANIFEST, S.DosToNtSubstring(root)];
    assert both[0] == S.MANIFEST && S.MANIFEST[0] == BACKSLASH;
    assert both[1] == S.DosToNtSubstring(root);
    if E.ContainsFolded(up, path, S.MANIFEST) {
      var k := E.ContainsSomewhere(up, path, S.MANIFEST);
    }
  }

  /** A sibling's own name, the root continued without a separator, is no occurrence. */
  lemma SiblingIsNotBelow(up: CaseMap, root: WString, volume: WString, more: WString)
    requires CanonicalRoot(root) && root[|root| - 1] != BACKSLASH && (more == [] || more[0] != BACKSLASH)
    ensures !BelowAt(up, NtName(volume, root + more), root, |volume|)
  {
    assert (root + more)[2..] == root[2..] + more;
    var end := |volume| + |root| - 2;
    if more != [] { assert NtName(volume, root + more)[end] == more[0]; }
  }

  lemma BelowIsSeparated(up: CaseMap, path: WString, root: WString, k: nat)
    requires KeepsSeparator(up) && CanonicalRoot(root) && root[|root| - 1] != BACKSLASH && BelowAt(up, path, root, k)
    ensures k + |root| - 2 < |path| && path[k] == BACKSLASH && path[k + |root| - 2] == BACKSLASH
  {
    assert Upcase(up, path[k..k + |root| - 2])[0] == Upcase(up, root[2..])[0];
  }

  lemma SiblingRoot()
    ensures var root := Wide("C:\\Backups"); CanonicalRoot(root) && |root| == 10 && root[9] != BACKSLASH
  {
    assert Wide("C:\\Backups") == [67, 58, 92, 66, 97, 99, 107, 117, 112, 115];
  }

  /** A backup root does not exclude the directory beside it. */
  lemma SiblingIsBackedUp(up: CaseMap)
    requires KeepsSeparator(up)
    ensures CanonicalRoot(Wide("C:\\Backups"))
    ensures !E.Hits(up, S.DosToNtSubstring(Wide("C:\\Backups")), Wide("\\Device\\HarddiskVolume3\\Backups2\\x"))
  {
    var root, path := Wide("C:\\Backups"), Wide("\\Device\\HarddiskVolume3\\Backups2\\x");
    SiblingRoot();
    Separators();
    GuardHitsExactlyBelow(up, root, path);
    hide KeepsSeparator, CanonicalRoot, BelowAt, Wide;
    if k: nat :| BelowAt(up, path, root, k) {
      BelowIsSeparated(up, path, root, k);
    }
  }

  lemma Separators()
    ensures var path := Wide("\\Device\\HarddiskVolume3\\Backups2\\x");
      |path| == 34 && forall k :: 0 <= k < 34 && path[k] == BACKSLASH ==> k == 0 || k == 7 || k == 23 || k == 32
  {}

  lemma ContainsMiddle(up: CaseMap, a: WString, pattern: WString, b: WString)
    ensures E.ContainsFolded(up, a + pattern + b, pattern)
  {
    UpcaseConcat(up, a + pattern, b);
    UpcaseConcat(up, a, pattern);
  }

  /** Any name that begins with the session directory is matched by the guard on the backup root. */
  lemma GuardMatches(up: CaseMap, root: WString, stamp: WString, volume: WString, name: WString)
    requires CanonicalRoot(root) && Stamp(stamp) && SessionDir(root, stamp) <= name
    ensures |name| >= 2 && E.Hits(up, S.DosToNtSubstring(root), NtName(volume, name))
  {
    SessionDirHoldsTail(root, stamp);
    var tail := S.DosToNtSubstring(root);
    var d := SessionDir(root, stamp);
    assert d[2..] <= name[2..];
    assert tail[0] == BACKSLASH;
    assert name[2..] == tail + name[2 + |tail|..];
    assert NtName(volume, name) == volume + tail + name[2 + |tail|..];
    ContainsMiddle(up, volume, tail, name[2 + |tail|..]);
  }

  /**
   No feedback: with both guards in the driver's list, every destination the worker can choose for
   a source with a single leading backslash is opened under a kernel name that the exclude scan rejects.
   */
  lemma BackupsAreNotInput(sys: M.System, list: seq<WString>, root: WString, stamp: WString, volume: WString,
                           files: M.Files, r: M.Request)
    requires CanonicalRoot(root) && Stamp(stamp) && S.Guarded(list, root)
    requires !M.Rooted(M.Sanitized(r.src))
    ensures var name := M.Denotes(sys, M.MakeLongPath(M.Destination(sys, files, SessionDir(root, stamp), r)));
      |name| >= 2 && E.Excluded(sys.up, list, NtName(volume, name))
  {
    var dir := SessionDir(root, stamp);
    var dest := M.Destination(sys, files, dir, r);
    SessionDirHoldsTail(root, stamp);
    StaysInSessionExactlyWhenUnrooted(dir, r.src);
    assert dir <= dest;
    M.LiteralIsOpened(sys, dest);
    GuardMatches(sys.up, root, stamp, volume, dest);
    assert NtName(volume, dest) != [];
  }

  /** The journal itself is guarded twice, by name and by place. */
  lemma JournalIsNotInput(up: CaseMap, list: seq<WString>, root: WString, stamp: WString, volume: WString)
    requires CanonicalRoot(root) && Stamp(stamp)
    ensures var name := SessionDir(root, stamp) + S.MANIFEST;
      |name| >= 2
      && E.Hits(up, S.MANIFEST, NtName(volume, name))
      && E.Hits(up, S.DosToNtSubstring(root), NtName(volume, name))
  {
    SessionDirHoldsTail(root, stamp);
    var d := SessionDir(root, stamp);
    GuardMatches(up, root, stamp, volume, d + S.MANIFEST);
    assert NtName(volume, d + S.MANIFEST) == volume + d[2..] + S.MANIFEST + [];
    ContainsMiddle(up, volume + d[2..], S.MANIFEST, []);
    assert S.MANIFEST[0] == BACKSLASH;
  }
}
