/** Redelivery filter of the backup reader (BackupWorker.cs lines 63-104). */
module Redelivery {

  const CAP: nat := 4096

  /** The last CAP elements: a first-in first-out window, not a least-recently-used one. */
  function Window(history: seq<nat>): (w: seq<nat>)
    ensures |w| == if |history| < CAP then |history| else CAP
  {
    if |history| <= CAP then history else history[|history| - CAP..]
  }

  /** A zero id is never filtered; any other id is fresh unless it is in the window. */
  predicate Fresh(history: seq<nat>, id: nat) {
    id == 0 || id !in Window(history)
  }

  /** Fresh means zero, or none of the last 4096 ids that were accepted. */
  lemma FreshExactly(history: seq<nat>, id: nat)
    ensures Fresh(history, id) <==>
        id == 0 || forall i :: 0 <= i < |history| && |history| - 4096 <= i ==> history[i] != id
  {
    WindowHoldsRecent(history);
    var w := Window(history);
    var base := |history| - |w|;
    assert forall i :: 0 <= i < |w| ==> w[i] == history[base + i];
  }

  function Remembered(history: seq<nat>, id: nat): seq<nat> {
    if id != 0 && Fresh(history, id) then history + [id] else history
  }

  /** The nonzero ids accepted out of a stream of messages. */
  function Accepted(messages: seq<nat>): seq<nat> {
    if messages == [] then []
    else Remembered(Accepted(messages[..|messages| - 1]), messages[|messages| - 1])
  }

  /** Two acceptances of one id have at least CAP other acceptances between them. */
  ghost predicate FarApart(history: seq<nat>) {
    forall i, j :: 0 <= i < j < |history| && history[i] == history[j] ==> j - i > CAP
  }

  lemma WindowHoldsRecent(history: seq<nat>)
    ensures forall i :: 0 <= i < |history| && |history| - i <= CAP ==> history[i] in Window(history)
  {
    var w := Window(history);
    forall i | 0 <= i < |history| && |history| - i <= CAP ensures history[i] in w {
      assert w[i - (|history| - |w|)] == history[i];
    }
  }

  lemma RememberingKeepsFarApart(history: seq<nat>, id: nat)
    requires FarApart(history)
    ensures FarApart(Remembered(history, id))
  {
    WindowHoldsRecent(history);
  }

  lemma {:induction false} ReacceptedOnlyAfterCapOthers(messages: seq<nat>)
    ensures FarApart(Accepted(messages)) && 0 !in Accepted(messages)
  {
    if messages != [] {
      ReacceptedOnlyAfterCapOthers(messages[..|messages| - 1]);
      RememberingKeepsFarApart(Accepted(messages[..|messages| - 1]), messages[|messages| - 1]);
    }
  }

  /** The window never holds an id twice, so the set and the queue agree in size. */
  lemma WindowIsDistinct(history: seq<nat>)
    requires FarApart(history)
    ensures forall i, j :: 0 <= i < j < |Window(history)| ==> Window(history)[i] != Window(history)[j]
  {
    var w := Window(history);
    var base := |history| - |w|;
    forall i, j | 0 <= i < j < |w| ensures w[i] != w[j] {
      assert w[i] == history[base + i] && w[j] == history[base + j];
    }
  }

  function Elements(s: seq<nat>): set<nat> { set x | x in s }

  lemma {:induction false} DistinctSize(s: seq<nat>)
    requires forall i, j :: 0 <= i < j < |s| ==> s[i] != s[j]
    ensures |Elements(s)| == |s|
  {
    if s != [] {
      DistinctSize(s[1..]);
      assert Elements(s) == {s[0]} + Elements(s[1..]);
      assert s[0] !in Elements(s[1..]);
    }
  }

  /** Adding at the end and dropping the front, on the set as on the sequence. */
  lemma ElementsSlide(s: seq<nat>, id: nat)
    requires forall i, j :: 0 <= i < j < |s| ==> s[i] != s[j]
    ensures Elements(s + [id]) == Elements(s) + {id}
    ensures s != [] ==> Elements(s[1..] + [id]) == Elements(s) - {s[0]} + {id}
  {
    if s != [] {
      assert s == [s[0]] + s[1..];
      assert s[0] !in s[1..];
    }
  }

  lemma WindowSlides(history: seq<nat>, id: nat)
    ensures Window(history + [id]) == (if |history| < CAP then Window(history) else Window(history)[1..]) + [id]
  {}

  /** Accepting a fresh id: the front goes when the window is full, the id comes in at the end. */
  lemma Accept(history: seq<nat>, id: nat)
    requires FarApart(history) && 0 !in history && id != 0 && Fresh(history, id)
    ensures var w := Window(history); var kept := if |Elements(w)| >= CAP then w[1..] else w;
      && (|Elements(w)| >= CAP ==> w != [])
      && Window(history + [id]) == kept + [id]
      && Elements(Window(history + [id])) == (if |Elements(w)| >= CAP then Elements(w) - {w[0]} else Elements(w)) + {id}
    ensures FarApart(history + [id]) && 0 !in history + [id] && Remembered(history, id) == history + [id]
  {
    WindowIsDistinct(history);
    DistinctSize(Window(history));
    WindowSlides(history, id);
    RememberingKeepsFarApart(history, id);
    ElementsSlide(Window(history), id);
    hide Elements, FarApart;
  }

  class Filter {
    var seenIds: set<nat>
    var seenOrder: seq<nat>
    ghost var history: seq<nat>

    ghost predicate Valid()
      reads this
    {
      seenOrder == Window(history) && seenIds == Elements(seenOrder) && FarApart(history) && 0 !in history
    }

    constructor ()
      ensures Valid() && history == []
    {
      seenIds, seenOrder, history := {}, [], [];
    }

    /** RememberMsgId. */
    method Remember(id: nat) returns (isFresh: bool)
      requires Valid()
      modifies this
      ensures Valid()
      ensures isFresh <==>
          id == 0 || forall i :: 0 <= i < |old(history)| && |old(history)| - 4096 <= i ==> old(history)[i] != id
      ensures history == Remembered(old(history), id)
      ensures history == if id != 0 && isFresh then old(history) + [id] else old(history)
    {
      FreshExactly(history, id);
      if id == 0 { return true; }
      if id in seenIds { return false; }
      Accept(history, id);
      hide Elements, FarApart, Window;
      if |seenIds| >= CAP {
        var evict := seenOrder[0];
        seenOrder := seenOrder[1..];
        seenIds := seenIds - {evict};
      }
      seenIds := seenIds + {id};
      seenOrder := seenOrder + [id];
      history := history + [id];
      return true;
    }
  }
}
