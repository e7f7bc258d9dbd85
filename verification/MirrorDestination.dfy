/** Where a backup is written (BackupWorker.cs lines 360-435, 437-449). */
module MirrorDestination {
  import opened WideText
  import opened Numerals

  /** What the destination code needs of the system's case map: separators and digits are caseless. */
  ghost predicate KeepsDigits(up: CaseMap) {
    forall c :: (IsDigit(c) ==> up(c) == c) && (IsDigit(up(c)) ==> IsDigit(c))
  }

  /** No case variant of the letter r is a digit, whatever the table says. */
  const RETENTION: WString := [DOT, 114]

  // ----- text -----

  function Escaped(s: WString): (r: WString)
    ensures |r| == |s|
    ensures forall i :: 0 <= i < |s| ==> r[i] == if s[i] == COLON then DOLLAR else s[i]
  {
    seq(|s|, i requires 0 <= i < |s| => if s[i] == COLON then DOLLAR else s[i])
  }

  /** One leading backslash is dropped and every colon becomes a dollar sign. */
  function Sanitized(nt: WString): WString {
    if nt != [] && nt[0] == BACKSLASH then Escaped(nt[1..]) else Escaped(nt)
  }

  /** SanitizeNt. */
  method SanitizeNt(nt: WString) returns (r: WString)
    ensures r == Sanitized(nt)
  {
    if nt == [] { return nt; }
    var start := if nt[0] == BACKSLASH then 1 else 0;
    r := [];
    for i := start to |nt|
      invariant r == Escaped(nt[start..i])
    {
      var c := nt[i];
      if c == COLON { c := DOLLAR; }
      r := r + [c];
      assert nt[start..i + 1] == nt[start..i] + [nt[i]];
    }
    assert nt[start..|nt|] == nt[start..];
    assert nt[0..] == nt;
  }

  /** Another source of the same form with the same sanitised name. */
  ghost predicate Collides(nt: WString) {
    exists other: WString :: other != nt && other != [] && other[0] == BACKSLASH && Sanitized(other) == Sanitized(nt)
  }

  /** The escape is not injective: a name shares its sanitised form exactly when it holds a colon or a dollar sign. */
  lemma SanitizedCollides(nt: WString)
    requires nt != [] && nt[0] == BACKSLASH
    ensures Collides(nt) <==> COLON in nt || DOLLAR in nt
  {
    if i: nat :| i < |nt| && (nt[i] == COLON || nt[i] == DOLLAR) {
      var twin := nt[i := if nt[i] == COLON then DOLLAR else COLON];
      assert twin[i] != nt[i];
      assert Sanitized(twin) == Sanitized(nt);
    } else {
      assert Escaped(nt[1..]) == nt[1..];
      forall other: WString | other != [] && other[0] == BACKSLASH && Sanitized(other) == Sanitized(nt)
        ensures other == nt
      {
        var (a, b) := (other[1..], nt[1..]);
        assert |Escaped(a)| == |Escaped(b)|;
        forall j | 0 <= j < |a| ensures a[j] == b[j] {
          assert Escaped(a)[j] == b[j] && b[j] == nt[j + 1];
        }
        assert other == [BACKSLASH] + a && nt == [BACKSLASH] + b;
      }
    }
  }

  predicate IsSeparator(c: WChar) { c == BACKSLASH || c == SLASH }

  /** Path.IsPathRooted: a leading separator or a drive letter with its colon. */
  predicate Rooted(p: WString) {
    (|p| >= 1 && IsSeparator(p[0]))
    || (|p| >= 2 && p[1] == COLON && (65 <= p[0] <= 90 || 97 <= p[0] <= 122))
  }

  /** Path.Combine: a rooted second part discards the first. */
  function Combine(dir: WString, rel: WString): WString {
    if rel == [] then dir
    else if dir == [] || Rooted(rel) then rel
    else if IsSeparator(dir[|dir| - 1]) || dir[|dir| - 1] == COLON then dir + rel
    else dir + [BACKSLASH] + rel
  }

  function PlainName(dir: WString, src: WString): WString {
    Combine(dir, Sanitized(src))
  }

  function RetainedName(plain: WString, id: nat): WString {
    plain + RETENTION + Decimal(id)
  }

  // ----- what a path string denotes -----

  /**
   The system's part: the case map, and what Win32 makes of a path that does not carry the verbatim
   prefix (it drops dots and spaces at the end of a name, folds dot segments, knows device names).
   */
  datatype System = System(up: CaseMap, norm: WString -> WString)

  /** Backslash, backslash, question mark, backslash. */
  const VERBATIM: WString := [BACKSLASH, BACKSLASH, 63, BACKSLASH]

  /** UNC and a backslash, after the verbatim prefix. */
  const UNC: WString := [85, 78, 67, BACKSLASH]

  predicate IsVerbatim(p: WString) { VERBATIM <= p }

  /** MakeLongPath. */
  function MakeLongPath(p: WString): WString {
    if p == [] || IsVerbatim(p) then p
    else if |p| >= 2 && p[0] == BACKSLASH && p[1] == BACKSLASH then VERBATIM + UNC + p[2..]
    else if |p| >= 2 && p[1] == COLON then VERBATIM + p
    else p
  }

  /** The name behind a verbatim path, in the spelling without the prefix. */
  function Plainly(q: WString): WString
    requires IsVerbatim(q)
  {
    if VERBATIM + UNC <= q then [BACKSLASH, BACKSLASH] + q[8..] else q[4..]
  }

  /** The name that a path string stands for: a verbatim one stands for itself. */
  function Denotes(sys: System, p: WString): WString {
    if IsVerbatim(p) then Plainly(p) else sys.norm(p)
  }

  /** The file that File.Exists looks for, and the file that CreateFile opens, with case folded away. */
  function Probed(sys: System, p: WString): WString { Upcase(sys.up, Denotes(sys, p)) }

  function Opened(sys: System, p: WString): WString { Upcase(sys.up, Denotes(sys, MakeLongPath(p))) }

  /** A drive, share or verbatim path: it is opened as it is spelt. */
  predicate IsLiteral(p: WString) {
    |p| >= 2 && ((p[0] == BACKSLASH && p[1] == BACKSLASH) || p[1] == COLON)
  }

  /** The existence test looks at another name than the one that is opened. */
  predicate Blind(sys: System, p: WString) { Probed(sys, p) != Opened(sys, p) }

  lemma LiteralIsOpened(sys: System, p: WString)
    requires IsLiteral(p)
    ensures Denotes(sys, MakeLongPath(p)) == if IsVerbatim(p) then Plainly(p) else p
  {
    if !IsVerbatim(p) {
      var q := MakeLongPath(p);
      if p[0] == BACKSLASH && p[1] == BACKSLASH {
        assert q[8..] == p[2..] && q[..8] == VERBATIM + UNC;
        assert p == [BACKSLASH, BACKSLASH] + p[2..];
      } else {
        assert q[4..] == p && q[5] == COLON && (VERBATIM + UNC)[5] == 78;
      }
    }
  }

  /** Only a literal path can be judged by another name than it is opened by. */
  lemma BlindIsLiteral(sys: System, p: WString)
    requires Blind(sys, p)
    ensures IsLiteral(p) && !IsVerbatim(p) && Upcase(sys.up, sys.norm(p)) != Upcase(sys.up, p)
  {
    if IsLiteral(p) {
      LiteralIsOpened(sys, p);
    }
  }

  // ----- the session -----

  /** One accepted request with a source that opened; created tells whether CreateFile succeeded. */
  datatype Request = Request(src: WString, id: nat, created: bool)

  /** The files that exist, by name with case folded away. */
  type Files = set<WString>

  function Destination(sys: System, files: Files, dir: WString, r: Request): WString {
    var plain := PlainName(dir, r.src);
    if Probed(sys, plain) in files then RetainedName(plain, r.id) else plain
  }

  /** The files before the request at position k. */
  function FilesBefore(sys: System, files: Files, dir: WString, reqs: seq<Request>, k: nat): Files
    requires k <= |reqs|
  {
    if k == 0 then files
    else
      var before := FilesBefore(sys, files, dir, reqs, k - 1);
      if reqs[k - 1].created then before + {Opened(sys, Destination(sys, before, dir, reqs[k - 1]))} else before
  }

  function DestinationOf(sys: System, files: Files, dir: WString, reqs: seq<Request>, k: nat): WString
    requires k < |reqs|
  {
    Destination(sys, FilesBefore(sys, files, dir, reqs, k), dir, reqs[k])
  }

  /** Request k opens a file that is there already. */
  predicate Overwrites(sys: System, files: Files, dir: WString, reqs: seq<Request>, k: nat)
    requires k < |reqs|
  {
    Opened(sys, DestinationOf(sys, files, dir, reqs, k)) in FilesBefore(sys, files, dir, reqs, k)
  }

  predicate IsRetained(sys: System, files: Files, dir: WString, reqs: seq<Request>, k: nat)
    requires k < |reqs|
  {
    Probed(sys, PlainName(dir, reqs[k].src)) in FilesBefore(sys, files, dir, reqs, k)
  }

  /** A request before position k created file f as its destination. */
  predicate MadeBefore(sys: System, files: Files, dir: WString, reqs: seq<Request>, k: nat, f: WString)
    requires k <= |reqs|
  {
    exists i :: 0 <= i < k && reqs[i].created && Opened(sys, DestinationOf(sys, files, dir, reqs, i)) == f
  }

  /** Every file there is was there at the start or was created by an earlier request. */
  lemma {:induction false} FileOrigin(sys: System, files: Files, dir: WString, reqs: seq<Request>, k: nat, f: WString)
    requires k <= |reqs|
    ensures f in FilesBefore(sys, files, dir, reqs, k) <==> f in files || MadeBefore(sys, files, dir, reqs, k, f)
  {
    if k > 0 {
      FileOrigin(sys, files, dir, reqs, k - 1, f);
    }
  }

  /**
   The destination mirrors the source below the directory, colons apart: under that very name exactly
   when no file was there at the start or made since where the existence test looks, and otherwise
   under that name with the id behind it.
   */
  lemma DestinationMirrors(sys: System, files: Files, dir: WString, reqs: seq<Request>, k: nat, tail: WString)
    requires k < |reqs| && reqs[k].src == [BACKSLASH] + tail && tail != [] && !IsSeparator(tail[0])
    requires dir != [] && !IsSeparator(dir[|dir| - 1]) && dir[|dir| - 1] != COLON
    ensures var mirrored := dir + [BACKSLASH] + Escaped(tail);
      var taken := Probed(sys, mirrored) in files || MadeBefore(sys, files, dir, reqs, k, Probed(sys, mirrored));
      && (DestinationOf(sys, files, dir, reqs, k) == mirrored <==> !taken)
      && (taken ==> DestinationOf(sys, files, dir, reqs, k) == mirrored + [DOT, 114] + Decimal(reqs[k].id))
  {
    var mirrored := dir + [BACKSLASH] + Escaped(tail);
    assert reqs[k].src[1..] == tail;
    assert !Rooted(Escaped(tail)) by { assert forall i :: 0 <= i < |tail| ==> Escaped(tail)[i] != COLON; }
    assert PlainName(dir, reqs[k].src) == mirrored;
    FileOrigin(sys, files, dir, reqs, k, Probed(sys, mirrored));
    assert RetainedName(mirrored, reqs[k].id) != mirrored by {
      assert |RetainedName(mirrored, reqs[k].id)| > |mirrored|;
    }
  }

  // ----- retained names -----

  lemma {:induction false} FoldedDigits(up: CaseMap, s: WString)
    requires KeepsDigits(up)
    ensures TrailingDigits(Upcase(up, s)) == TrailingDigits(s)
  {
    if s != [] && IsDigit(s[|s| - 1]) {
      assert Upcase(up, s)[..|s| - 1] == Upcase(up, s[..|s| - 1]);
      FoldedDigits(up, s[..|s| - 1]);
    }
  }

  lemma RetainedTail(stem: WString, id: nat)
    ensures TrailingDigits(stem + RETENTION + Decimal(id)) == Decimal(id)
  {
    TrailingDigitsAfter(stem + RETENTION, Decimal(id));
  }

  /** The file opened under a retained name spells the request id at its end. */
  predicate SpellsId(sys: System, plain: WString, id: nat) {
    TrailingDigits(Opened(sys, RetainedName(plain, id))) == Decimal(id)
  }

  /** What ends in a backslash is a prefix of the lengthened path only if it was one before. */
  lemma PrefixStays(prefix: WString, p: WString, more: WString)
    requires prefix != [] && prefix[|prefix| - 1] == BACKSLASH && BACKSLASH !in more
    ensures prefix <= p + more <==> prefix <= p
  {
    var q := p + more;
    assert forall i :: |p| <= i < |q| ==> q[i] == more[i - |p|] != BACKSLASH;
    if prefix <= q {
      assert q[|prefix| - 1] == BACKSLASH;
      assert q[..|prefix|] == p[..|prefix|];
    }
  }

  lemma PlainlyGrows(p: WString, more: WString)
    requires BACKSLASH !in more
    ensures IsVerbatim(p + more) <==> IsVerbatim(p)
    ensures IsVerbatim(p) ==> Plainly(p + more) == Plainly(p) + more
  {
    PrefixStays(VERBATIM, p, more);
    PrefixStays(VERBATIM + UNC, p, more);
    if |p| >= 4 { TailGrows(p, more, 4); }
    if |p| >= 8 {
      TailGrows(p, more, 8);
      assert [BACKSLASH, BACKSLASH] + (p[8..] + more) == ([BACKSLASH, BACKSLASH] + p[8..]) + more;
    }
  }

  lemma TailGrows(p: WString, more: WString, k: nat)
    requires k <= |p|
    ensures (p + more)[k..] == p[k..] + more
  {}

  /** A literal path keeps its way of being opened when a suffix without a backslash is added. */
  lemma LiteralGrows(sys: System, p: WString, more: WString)
    requires IsLiteral(p) && BACKSLASH !in more
    ensures Denotes(sys, MakeLongPath(p + more)) == Denotes(sys, MakeLongPath(p)) + more
  {
    assert IsLiteral(p + more);
    hide Denotes, MakeLongPath, IsVerbatim, Plainly, IsLiteral;
    LiteralIsOpened(sys, p);
    LiteralIsOpened(sys, p + more);
    PlainlyGrows(p, more);
  }

  lemma RetainedGrows(sys: System, plain: WString, id: nat)
    requires IsLiteral(plain)
    ensures Denotes(sys, MakeLongPath(RetainedName(plain, id)))
      == Denotes(sys, MakeLongPath(plain)) + RETENTION + Decimal(id)
  {
    var more := RETENTION + Decimal(id);
    LiteralGrows(sys, plain, more);
    hide Denotes, MakeLongPath, Decimal;
    assert plain + more == RetainedName(plain, id);
    var stem := Denotes(sys, MakeLongPath(plain));
    assert stem + more == stem + RETENTION + Decimal(id);
  }

  /** That is so for every literal name; for others it is up to the system. */
  lemma LiteralSpellsId(sys: System, plain: WString, id: nat)
    requires KeepsDigits(sys.up) && IsLiteral(plain)
    ensures SpellsId(sys, plain, id)
  {
    RetainedGrows(sys, plain, id);
    FoldedDigits(sys.up, Denotes(sys, MakeLongPath(RetainedName(plain, id))));
    RetainedTail(Denotes(sys, MakeLongPath(plain)), id);
    hide Denotes, MakeLongPath, RetainedName, TrailingDigits, Decimal, KeepsDigits;
  }

  lemma RetainedNamesDiffer(sys: System, p: WString, m: nat, q: WString, n: nat)
    requires SpellsId(sys, p, m) && SpellsId(sys, q, n) && m != n
    ensures Opened(sys, RetainedName(p, m)) != Opened(sys, RetainedName(q, n))
  {
    if Decimal(m) == Decimal(n) {
      DecimalInjective(m, n);
    }
  }

  // ----- when a backup is overwritten -----

  predicate DistinctIds(reqs: seq<Request>) {
    forall i, j :: 0 <= i < j < |reqs| ==> reqs[i].id != reqs[j].id
  }

  /** The session starts with no file that ends in a digit: it holds the manifest only. */
  predicate NoDigitEnding(files: Files) {
    forall f :: f in files ==> TrailingDigits(f) == []
  }

  ghost predicate AllSpellIds(sys: System, dir: WString, reqs: seq<Request>) {
    forall i :: 0 <= i < |reqs| ==> SpellsId(sys, PlainName(dir, reqs[i].src), reqs[i].id)
  }

  /** The retained name of request k is the plain destination an earlier request created. */
  predicate ShadowedByPlain(sys: System, files: Files, dir: WString, reqs: seq<Request>, k: nat)
    requires k < |reqs|
  {
    exists i :: 0 <= i < k && reqs[i].created && !IsRetained(sys, files, dir, reqs, i)
      && Opened(sys, PlainName(dir, reqs[i].src)) == Opened(sys, RetainedName(PlainName(dir, reqs[k].src), reqs[k].id))
  }

  /** The plain name of request k was there at the start, or an earlier request created it as its destination. */
  predicate Taken(sys: System, files: Files, dir: WString, reqs: seq<Request>, k: nat)
    requires k < |reqs|
  {
    var key := Opened(sys, PlainName(dir, reqs[k].src));
    key in files || MadeBefore(sys, files, dir, reqs, k, key)
  }

  /**
   A request overwrites an existing file in exactly two ways: it is retained, and its retained name
   is the plain name of a file an earlier request created; or it is not, because the existence test
   looked at another name than the one it then opens, and that one is taken.
   */
  lemma OverwritesExactlyWhenShadowedOrBlind(sys: System, files: Files, dir: WString, reqs: seq<Request>, k: nat)
    requires KeepsDigits(sys.up) && DistinctIds(reqs) && NoDigitEnding(files) && k < |reqs|
    requires AllSpellIds(sys, dir, reqs)
    ensures Overwrites(sys, files, dir, reqs, k) <==>
      if IsRetained(sys, files, dir, reqs, k) then ShadowedByPlain(sys, files, dir, reqs, k)
      else Blind(sys, PlainName(dir, reqs[k].src)) && Taken(sys, files, dir, reqs, k)
  {
    var plain := PlainName(dir, reqs[k].src);
    if IsRetained(sys, files, dir, reqs, k) {
      RetainedOverwrites(sys, files, dir, reqs, k);
    } else {
      FileOrigin(sys, files, dir, reqs, k, Opened(sys, plain));
    }
  }

  lemma RetainedOverwrites(sys: System, files: Files, dir: WString, reqs: seq<Request>, k: nat)
    requires DistinctIds(reqs) && NoDigitEnding(files) && k < |reqs| && AllSpellIds(sys, dir, reqs)
    requires IsRetained(sys, files, dir, reqs, k)
    ensures Overwrites(sys, files, dir, reqs, k) <==> ShadowedByPlain(sys, files, dir, reqs, k)
  {
    var plain := PlainName(dir, reqs[k].src);
    var kept := Opened(sys, RetainedName(plain, reqs[k].id));
    FileOrigin(sys, files, dir, reqs, k, kept);
    assert SpellsId(sys, plain, reqs[k].id);
    assert kept !in files;
    forall i | 0 <= i < k && IsRetained(sys, files, dir, reqs, i)
      ensures Opened(sys, DestinationOf(sys, files, dir, reqs, i)) != kept
    {
      RetainedNamesDiffer(sys, PlainName(dir, reqs[i].src), reqs[i].id, plain, reqs[k].id);
    }
  }

  /** No plain destination is another one followed by the retention suffix. */
  predicate NoSuffixClash(sys: System, dir: WString, reqs: seq<Request>) {
    forall i, k :: 0 <= i < |reqs| && 0 <= k < |reqs| ==>
      Opened(sys, PlainName(dir, reqs[i].src)) != Opened(sys, RetainedName(PlainName(dir, reqs[k].src), reqs[k].id))
  }

  /** The plain destination of request k opens the file of no earlier plain destination, nor one that was there. */
  ghost predicate IsNew(sys: System, files: Files, dir: WString, reqs: seq<Request>, k: nat)
    requires k < |reqs|
  {
    var key := Opened(sys, PlainName(dir, reqs[k].src));
    key !in files && forall i :: 0 <= i < k ==> Opened(sys, PlainName(dir, reqs[i].src)) != key
  }

  /** Every plain destination that the existence test misjudges is new. */
  ghost predicate NoBlindRepeat(sys: System, files: Files, dir: WString, reqs: seq<Request>) {
    forall k :: 0 <= k < |reqs| && Blind(sys, PlainName(dir, reqs[k].src)) ==> IsNew(sys, files, dir, reqs, k)
  }

  /** Without either, every destination opened in the session is fresh. */
  lemma NoSilentOverwrite(sys: System, files: Files, dir: WString, reqs: seq<Request>, k: nat)
    requires KeepsDigits(sys.up) && DistinctIds(reqs) && NoDigitEnding(files) && k < |reqs|
    requires AllSpellIds(sys, dir, reqs)
    requires NoSuffixClash(sys, dir, reqs) && NoBlindRepeat(sys, files, dir, reqs)
    ensures !Overwrites(sys, files, dir, reqs, k)
  {
    OverwritesExactlyWhenShadowedOrBlind(sys, files, dir, reqs, k);
  }

  // ----- names that end in a dot or a space -----

  predicate EndsLoose(p: WString) { p != [] && (p[|p| - 1] == DOT || p[|p| - 1] == SPACE) }

  /** Dots and spaces at the end of a path, dropped. */
  function Trimmed(p: WString): (t: WString)
    ensures |t| <= |p| && (|t| < |p| <==> EndsLoose(p)) && !EndsLoose(t)
  {
    if EndsLoose(p) then Trimmed(p[..|p| - 1]) else p
  }

  /** A system that does nothing to a path but that. */
  ghost predicate OnlyTrims(sys: System) {
    forall p :: sys.norm(p) == Trimmed(p)
  }

  /** Then the existence test misjudges exactly the drive and share paths that end in a dot or a space. */
  lemma BlindExactlyWhenLoose(sys: System, p: WString)
    requires OnlyTrims(sys)
    ensures Blind(sys, p) <==> IsLiteral(p) && !IsVerbatim(p) && EndsLoose(p)
  {
    if IsLiteral(p) && !IsVerbatim(p) {
      LiteralIsOpened(sys, p);
      if EndsLoose(p) {
        assert |Probed(sys, p)| == |Trimmed(p)|;
        assert |Opened(sys, p)| == |p|;
      }
    } else if Blind(sys, p) {
      BlindIsLiteral(sys, p);
    }
  }

  /** With a drive-absolute session directory and unrooted sources every destination is literal. */
  lemma InSessionIsLiteral(dir: WString, src: WString)
    requires |dir| >= 2 && dir[1] == COLON && !Rooted(Sanitized(src))
    ensures IsLiteral(PlainName(dir, src)) && !IsVerbatim(PlainName(dir, src))
  {
    assert dir <= PlainName(dir, src);
  }

  /** One source backed up twice loses the first backup exactly when the existence test misjudges its destination. */
  lemma SecondBackupIsLostExactlyWhenBlind(sys: System, dir: WString, src: WString, m: nat, n: nat)
    requires KeepsDigits(sys.up) && m != n && IsLiteral(PlainName(dir, src))
    ensures Overwrites(sys, {}, dir, [Request(src, m, true), Request(src, n, true)], 1)
      <==> Blind(sys, PlainName(dir, src))
  {
    var plain := PlainName(dir, src);
    var reqs := [Request(src, m, true), Request(src, n, true)];
    hide PlainName, Denotes, MakeLongPath;
    assert FilesBefore(sys, {}, dir, reqs, 1) == {Opened(sys, plain)} by { FirstBackup(sys, dir, reqs); }
    if !Blind(sys, plain) {
      RetainedIsAnother(sys, plain, n);
    }
  }

  lemma FirstBackup(sys: System, dir: WString, reqs: seq<Request>)
    requires |reqs| > 0 && reqs[0].created
    ensures FilesBefore(sys, {}, dir, reqs, 1) == {Opened(sys, PlainName(dir, reqs[0].src))}
  {
    assert FilesBefore(sys, {}, dir, reqs, 0) == {};
  }

  lemma RetainedIsAnother(sys: System, plain: WString, id: nat)
    requires IsLiteral(plain)
    ensures Opened(sys, RetainedName(plain, id)) != Opened(sys, plain)
  {
    RetainedGrows(sys, plain, id);
    hide Denotes, MakeLongPath, RetainedName, Decimal;
    assert |Opened(sys, RetainedName(plain, id))| > |Opened(sys, plain)|;
  }

  /**
   Under a drive-absolute session directory, two backups of one source leave one exactly when its
   name ends in a dot or a space.
   */
  lemma SecondBackupIsLostExactlyWhenLoose(sys: System, dir: WString, name: WString, m: nat, n: nat)
    requires KeepsDigits(sys.up) && OnlyTrims(sys) && m != n && |dir| >= 2 && dir[1] == COLON
    requires name != [] && !Rooted(name) && COLON !in name
    ensures Overwrites(sys, {}, dir, [Request([BACKSLASH] + name, m, true), Request([BACKSLASH] + name, n, true)], 1)
      <==> EndsLoose(name)
  {
    PlainEnding(dir, name);
    hide *;
    BlindExactlyWhenLoose(sys, PlainName(dir, [BACKSLASH] + name));
    SecondBackupIsLostExactlyWhenBlind(sys, dir, [BACKSLASH] + name, m, n);
  }

  lemma PlainEnding(dir: WString, name: WString)
    requires |dir| >= 2 && dir[1] == COLON && name != [] && !Rooted(name) && COLON !in name
    ensures var plain := PlainName(dir, [BACKSLASH] + name);
      IsLiteral(plain) && !IsVerbatim(plain) && (EndsLoose(plain) <==> EndsLoose(name))
  {
    var plain := PlainName(dir, [BACKSLASH] + name);
    SanitizedPlain(name);
    InSessionIsLiteral(dir, [BACKSLASH] + name);
    assert plain[|plain| - 1] == name[|name| - 1];
  }

  /** The source foo. under any drive-absolute session directory: backed up twice, the first backup is gone. */
  lemma TrailingDotIsLost(sys: System, dir: WString, m: nat, n: nat)
    requires KeepsDigits(sys.up) && OnlyTrims(sys) && m != n && |dir| >= 2 && dir[1] == COLON
    ensures var src := [BACKSLASH] + Wide("Device\\HarddiskVolume3\\w\\foo.");
      Overwrites(sys, {}, dir, [Request(src, m, true), Request(src, n, true)], 1)
  {
    var name := Wide("Device\\HarddiskVolume3\\w\\foo.");
    assert name[0] == 68 && name[1] == 101 && name[|name| - 1] == DOT;
    hide Overwrites;
    SecondBackupIsLostExactlyWhenLoose(sys, dir, name, m, n);
  }

  // ----- names that look retained -----

  /** With a suffix clash, an earlier backup is lost: back up name.rN, then name twice, the second time with id N. */
  lemma ClashOverwrites(sys: System, dir: WString, name: WString, n: nat, m: nat, l: nat)
    requires KeepsDigits(sys.up) && name != [] && !Rooted(name) && COLON !in name
    requires |dir| >= 2 && dir[1] == COLON && n != m && m != l && n != l
    requires !Blind(sys, PlainName(dir, [BACKSLASH] + name))
    requires !Blind(sys, PlainName(dir, [BACKSLASH] + name + RETENTION + Decimal(n)))
    ensures var reqs := [Request([BACKSLASH] + name + RETENTION + Decimal(n), m, true),
                         Request([BACKSLASH] + name, l, true), Request([BACKSLASH] + name, n, true)];
      Overwrites(sys, {}, dir, reqs, 2)
  {
    var long := [BACKSLASH] + name + RETENTION + Decimal(n);
    var reqs := [Request(long, m, true), Request([BACKSLASH] + name, l, true), Request([BACKSLASH] + name, n, true)];
    var plain := PlainName(dir, [BACKSLASH] + name);
    LongName(dir, name, n);
    SanitizedPlain(name);
    InSessionIsLiteral(dir, [BACKSLASH] + name);
    RetainedIsAnother(sys, plain, n);
    hide Sanitized, PlainName, Decimal, KeepsDigits, Rooted, RetainedName, Opened, Probed;
    FirstBackup(sys, dir, reqs);
    assert Probed(sys, plain) == Opened(sys, plain) by { assert !Blind(sys, plain); }
    assert FilesBefore(sys, {}, dir, reqs, 2) == {Opened(sys, RetainedName(plain, n)), Opened(sys, plain)};
  }

  /** A plain name that looks like a retained one. */
  lemma LongName(dir: WString, name: WString, n: nat)
    requires name != [] && !Rooted(name) && dir != [] && COLON !in name
    ensures PlainName(dir, [BACKSLASH] + name + RETENTION + Decimal(n))
        == RetainedName(PlainName(dir, [BACKSLASH] + name), n)
  {
    var more := RETENTION + Decimal(n);
    LongTail(name, n);
    SanitizedPlain(name + more);
    SanitizedPlain(name);
    CombineTail(dir, name, more);
    Regroup([BACKSLASH], name, RETENTION, Decimal(n));
    Regroup(dir, Combine(dir, name), RETENTION, Decimal(n));
    hide Sanitized, Decimal, Combine, Rooted;
  }

  lemma Regroup(a: WString, b: WString, c: WString, d: WString)
    ensures a + b + c + d == a + (b + (c + d))
    ensures b + c + d == b + (c + d)
  {}

  lemma LongTail(name: WString, n: nat)
    requires name != [] && !Rooted(name) && COLON !in name
    ensures COLON !in name + (RETENTION + Decimal(n)) && !Rooted(name + (RETENTION + Decimal(n)))
  {
    var tail := name + (RETENTION + Decimal(n));
    assert tail[0] == name[0] && tail[1] == if |name| >= 2 then name[1] else DOT;
  }

  /** What is joined to a directory can be lengthened afterwards. */
  lemma CombineTail(dir: WString, name: WString, more: WString)
    requires name != [] && !Rooted(name) && !Rooted(name + more) && dir != []
    ensures Combine(dir, name + more) == Combine(dir, name) + more
  {
    hide Rooted;
  }

  lemma SanitizedPlain(name: WString)
    requires COLON !in name
    ensures Sanitized([BACKSLASH] + name) == name
  {
    assert ([BACKSLASH] + name)[1..] == name;
  }

  // ----- the copy -----

  class Session {
    const sys: System
    const dir: WString
    var files: Files

    constructor (sys: System, dir: WString, files: Files)
      ensures this.sys == sys && this.dir == dir && this.files == files
    {
      this.sys, this.dir, this.files := sys, dir, files;
    }

    /** DoBackup up to the byte copy, whose outcome is copyOk: it probes one path string and opens another. */
    method DoBackup(src: WString, id: nat, sourceOpens: bool, createOk: bool, copyOk: bool)
        returns (ok: bool, dest: WString)
      modifies this`files
      ensures src == [] || !sourceOpens ==> !ok && dest == [] && files == old(files)
      ensures src != [] && sourceOpens ==>
        && dest == Destination(sys, old(files), dir, Request(src, id, createOk))
        && files == (if createOk then old(files) + {Opened(sys, dest)} else old(files))
        && (ok <==> createOk && copyOk)
    {
      if src == [] || !sourceOpens { return false, []; }
      var rel := SanitizeNt(src);
      dest := Combine(dir, rel);
      if Upcase(sys.up, Denotes(sys, dest)) in files {
        dest := RetainedName(dest, id);
      }
      var destLong := MakeLongPath(dest);
      if !createOk { return false, dest; }
      files := files + {Upcase(sys.up, Denotes(sys, destLong))};
      ok := copyOk;
    }
  }
}
