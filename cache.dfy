/**
 * Cache<T> of CoreUtils: a stored value, a validity flag and a builder.
 * Reading an invalid cache rebuilds it and marks it valid; invalidating
 * only clears the flag; clearing also drops the value.
 *
 * The builder reads game state, so it is a function of an explicit state S
 * that each call which may build is handed. `default(T)` is None.
 */
module Cache {
  import opened Wrappers

  /** What a cache holds between calls. */
  datatype State<!S, T> = State(value: Option<T>, valid: bool, build: S -> T)

  /** GetCache on a state: the stored value when valid, else a fresh build that is stored and marked valid. */
  function Get<S, T>(c: State<S, T>, world: S): (r: (State<S, T>, Option<T>))
    ensures r.0.valid && r.0.build == c.build && r.0.value == r.1
    ensures c.valid ==> r == (c, c.value)
    ensures !c.valid ==> r.1 == Some(c.build(world))
  {
    if c.valid then (c, c.value) else (State(Some(c.build(world)), true, c.build), Some(c.build(world)))
  }

  /** Once read, a cache answers every later read with the same value, whatever the game state has become. */
  lemma ReadsAreStable<S, T>(c: State<S, T>, first: S, second: S)
    ensures Get(Get(c, first).0, second) == Get(c, first)
  {
  }

  /** Successive reads: every one answers with the first read's value. */
  function Reads<S, T>(c: State<S, T>, worlds: seq<S>): (r: seq<Option<T>>)
    ensures |r| == |worlds|
    decreases |worlds|
  {
    if |worlds| == 0 then [] else [Get(c, worlds[0]).1] + Reads(Get(c, worlds[0]).0, worlds[1..])
  }

  /** Any number of reads after the first all repeat it. */
  lemma {:induction false} ReadsRepeatFirst<S, T>(c: State<S, T>, worlds: seq<S>)
    requires |worlds| > 0
    ensures forall k :: 0 <= k < |worlds| ==> Reads(c, worlds)[k] == Get(c, worlds[0]).1
    decreases |worlds|
  {
    var next := Get(c, worlds[0]).0;
    if |worlds| > 1 {
      ReadsRepeatFirst(next, worlds[1..]);
      ReadsAreStable(c, worlds[0], worlds[1]);
    }
  }

  class Cache<S, T> {
    var Value: Option<T>
    var Valid: bool
    var Build: S -> T

    function Snapshot(): State<S, T>
      reads this
    {
      State(Value, Valid, Build)
    }

    /** The constructor with a non-null builder: it builds once and starts valid. */
    constructor (build: S -> T, world: S)
      ensures Snapshot() == State(Some(build(world)), true, build)
    {
      Build := build;
      Valid := true;
      Value := Some(build(world));
    }

    /** `new Cache(buildCache)`: a null builder (None) throws ArgumentNullException before anything is built. */
    static method Create(build: Option<S -> T>, world: S) returns (r: Result<Cache<S, T>>)
      ensures build.None? ==> r == Throws(ArgumentNull)
      ensures build.Some? ==> r.Ok? && fresh(r.value) && r.value.Snapshot() == State(Some(build.value(world)), true, build.value)
    {
      if build.None? {
        return Throws(ArgumentNull);
      }
      var c := new Cache(build.value, world);
      return Ok(c);
    }

    method GetCache(world: S) returns (r: Option<T>)
      modifies this
      ensures (Snapshot(), r) == Get(old(Snapshot()), world)
    {
      if !Valid {
        RebuildCache(world);
      }
      r := Value;
    }

    /** InvalidateCache clears the flag and keeps the value. */
    method InvalidateCache()
      modifies this
      ensures Snapshot() == old(Snapshot()).(valid := false)
    {
      Valid := false;
    }

    /** RebuildCache stores a fresh build and marks the cache valid. */
    method RebuildCache(world: S)
      modifies this
      ensures Snapshot() == State(Some(old(Build)(world)), true, old(Build))
    {
      Value := Some(Build(world));
      Valid := true;
    }

    method IsCacheValid() returns (b: bool)
      ensures b == Valid
    {
      b := Valid;
    }

    /** SetBuildCache replaces the builder without rebuilding; a null builder throws and changes nothing. */
    method SetBuildCache(build: Option<S -> T>) returns (r: Result<()>)
      modifies this
      ensures build.None? ==> r == Throws(ArgumentNull) && Snapshot() == old(Snapshot())
      ensures build.Some? ==> r == Ok(()) && Snapshot() == old(Snapshot()).(build := build.value)
    {
      if build.None? {
        return Throws(ArgumentNull);
      }
      Build := build.value;
      return Ok(());
    }

    /** ClearCache drops the value to default and invalidates the cache. */
    method ClearCache()
      modifies this
      ensures Snapshot() == old(Snapshot()).(value := None, valid := false)
    {
      Value := None;
      InvalidateCache();
    }
  }
}
