/**
 The stream handle context as a mutable record that owns its two name buffers (knFcContexts.cpp),
 and the choice of a final name from it (knFcCallbacks.cpp lines 566-641).
 */
module HandleContext {
  import opened Options
  import opened WideText
  import opened HandleModel
  import opened HandleInvariant

  /** Non-paged pool: the blocks that are allocated and not yet freed. */
  class NonPagedPool {
    var live: set<nat>
    var next: nat

    ghost predicate Valid()
      reads this
    {
      forall b :: b in live ==> b < next
    }

    constructor ()
      ensures Valid() && live == {}
    {
      live, next := {}, 0;
    }

    method Allocate(poolOk: bool) returns (b: Option<nat>)
      requires Valid()
      modifies this
      ensures Valid() && b.Some? == poolOk
      ensures live == old(live) + (if b.Some? then {b.value} else {})
      ensures b.Some? ==> b.value !in old(live)
    {
      if !poolOk { return None; }
      b := Some(next);
      live, next := live + {next}, next + 1;
    }

    /** Only a block that is live can be freed. */
    method Free(b: nat)
      requires Valid() && b in live
      modifies this
      ensures Valid() && live == old(live) - {b}
    {
      live := live - {b};
    }
  }

  function BlockOf(b: Option<Buffer>): set<nat> {
    if b.Some? then {b.value.block} else {}
  }

  function TextOf(b: Option<Buffer>): WString {
    if b.Some? then b.value.text else []
  }

  /** The renames a captured name stands for: the last one, if any. */
  function RenamesOf(b: Option<Buffer>): seq<WString> {
    if b.Some? then [b.value.text] else []
  }

  /** What a swap leaves: no name clears, and a name without memory changes nothing. */
  function NameAfter(was: WString, name: WString, poolOk: bool): WString {
    if name != [] && !poolOk then was else name
  }

  // ----- the same swap in the handle machine -----

  /** The blocks that the machine's pool has handed out and not got back. */
  function LiveBlocks(p: Pool): set<nat> { set b | b in p.place && !p.place[b].Freed? }

  function NamesOf(c: Context): set<nat> { BlockOf(c.original) + BlockOf(c.current) }

  /** The rename callback of the machine, from the query to its release, as one step. */
  function Renamed(n: nat, f: Frame, c: Context, p: Pool, o: Answer): Effect
    requires f.pc.QueryRename?
  {
    var queried := UpdateStep(n, f, c, p, o);
    if !queried.frame.pc.Swap? then queried
    else
      var swapped := UpdateStep(n, queried.frame, queried.ctx, queried.pool, o);
      if !swapped.frame.pc.FreeOld? then swapped
      else UpdateStep(n, swapped.frame, swapped.ctx, swapped.pool, o)
  }

  /**
   The three steps of the machine do to the name and to the pool what SetCurrentName does for the
   name that was queried; without one the source does not call it.
   */
  lemma MachineSetsCurrentName(n: nat, f: Frame, c: Context, p: Pool, o: Answer)
    requires f.pc.QueryRename? && o.name.Some? && o.name.value != []
    requires (forall b :: b in p.place ==> b < p.next) && NamesOf(c) <= LiveBlocks(p)
    requires BlockOf(c.original) !! BlockOf(c.current)
    ensures var e := Renamed(n, f, c, p, o);
      && e.frame.pc.Release?
      && TextOf(e.ctx.current) == NameAfter(TextOf(c.current), o.name.value, o.poolOk)
      && e.ctx.original == c.original && NamesOf(e.ctx) <= LiveBlocks(e.pool)
      && LiveBlocks(e.pool) - NamesOf(e.ctx) == LiveBlocks(p) - NamesOf(c)
  {
    var e := Renamed(n, f, c, p, o);
    if o.poolOk {
      RenamedSwaps(n, f, c, p, o);
      hide Renamed;
      assert p.next !in LiveBlocks(p);
    }
  }

  /** With memory: the new block is in, the old one is out. */
  lemma RenamedSwaps(n: nat, f: Frame, c: Context, p: Pool, o: Answer)
    requires f.pc.QueryRename? && o.name.Some? && o.name.value != [] && o.poolOk && p.next !in p.place
    requires NamesOf(c) <= LiveBlocks(p)
    ensures var e, b := Renamed(n, f, c, p, o), Some(Buffer(p.next, o.name.value));
      && e.frame.pc.Release? && e.ctx.current == b && e.ctx.original == c.original
      && LiveBlocks(e.pool) == LiveBlocks(p) - BlockOf(c.current) + {p.next}
  {}

  class Shc {
    var originalName: Option<Buffer>
    var currentName: Option<Buffer>

    /** Both buffers are live blocks, each its own, and hold something. */
    ghost predicate Valid(pool: NonPagedPool)
      reads this, pool
    {
      && pool.Valid()
      && BlockOf(originalName) <= pool.live && BlockOf(currentName) <= pool.live
      && BlockOf(originalName) !! BlockOf(currentName)
      && (originalName.Some? ==> TextOf(originalName) != []) && (currentName.Some? ==> TextOf(currentName) != [])
    }

    /** The blocks this context owns. */
    ghost function Owns(): set<nat>
      reads this
    {
      BlockOf(originalName) + BlockOf(currentName)
    }

    constructor ()
      ensures originalName == None && currentName == None
    {
      originalName, currentName := None, None;
    }

    /** knFcShcSetOriginalName, on a context that has no name yet. */
    method SetOriginalName(name: WString, pool: NonPagedPool, poolOk: bool)
      requires Valid(pool) && originalName.None?
      modifies this`originalName, pool
      ensures Valid(pool)
      ensures TextOf(originalName) == if name != [] && poolOk then name else []
      ensures pool.live - Owns() == old(pool.live) - old(Owns())
    {
      if name == [] { return; }
      var b := pool.Allocate(poolOk);
      if b.None? { return; }
      originalName := Some(Buffer(b.value, name));
    }

    /** knFcShcSetCurrentName: no name clears, and a name that finds no memory leaves the old one in place. */
    method SetCurrentName(name: WString, pool: NonPagedPool, poolOk: bool)
      requires Valid(pool)
      modifies this`currentName, pool
      ensures Valid(pool)
      ensures TextOf(currentName) == NameAfter(old(TextOf(currentName)), name, poolOk)
      ensures pool.live - Owns() == old(pool.live) - old(Owns())
    {
      var incoming: Option<Buffer> := None;
      if name != [] {
        var b := pool.Allocate(poolOk);
        if b.None? { return; }
        incoming := Some(Buffer(b.value, name));
      }
      var was := currentName;
      currentName := incoming;
      if was.Some? {
        pool.Free(was.value.block);
      }
    }

    /** knFcShcCleanup: nothing of the context stays behind in the pool. */
    method Cleanup(pool: NonPagedPool)
      requires Valid(pool)
      modifies this, pool
      ensures Valid(pool) && originalName == currentName == None
      ensures pool.live == old(pool.live) - old(Owns())
    {
      if originalName.Some? {
        pool.Free(originalName.value.block);
        originalName := None;
      }
      if currentName.Some? {
        pool.Free(currentName.value.block);
        currentName := None;
      }
    }

    /**
     knFcResolveFinalName: the copy of the captured name, the live name, or the original one.  The
     name is the one that the handle machine reports, and the only new block is the copy.
     */
    method ResolveFinalName(query: Option<WString>, pool: NonPagedPool, poolOk: bool)
        returns (name: WString, copy: Option<nat>)
      requires Valid(pool)
      modifies pool
      ensures Valid(pool) && originalName == old(originalName) && currentName == old(currentName)
      ensures name == FinalName(Seen(false, RenamesOf(currentName), currentName.Some? && poolOk,
                                     if query.Some? then query.value else [], TextOf(originalName)))
      ensures currentName.Some? && poolOk ==> name == currentName.value.text
      ensures (currentName.None? || !poolOk) && query.Some? && query.value != [] ==> name == query.value
      ensures (currentName.None? || !poolOk) && (query.None? || query.value == []) ==> name == TextOf(originalName)
      ensures pool.live == old(pool.live) + (if copy.Some? then {copy.value} else {})
      ensures copy.Some? ==> copy.value !in old(pool.live) && copy.value !in Owns()
      ensures copy.Some? <==> currentName.Some? && poolOk
    {
      name, copy := [], None;
      if currentName.Some? {
        copy := pool.Allocate(poolOk);
        if copy.Some? {
          name := currentName.value.text;
        }
      }
      if name == [] && query.Some? {
        name := query.value;
      }
      if name == [] && originalName.Some? {
        name := originalName.value.text;
      }
    }
  }
}
