/**
 * The older Cache<T> of ProfitCalculator. It differs from the CoreUtils one
 * in two ways: nothing checks the builder for null (calling a null builder
 * throws NullReferenceException), and RebuildCache never sets the flag, so
 * once invalidated the cache rebuilds on every read and stays invalid.
 *
 * As in module Cache, the builder is a function of the game state S and
 * `default(T)` is None.
 */
module LegacyCache {
  import opened Wrappers

  /** What a cache holds between calls; a null builder is None. */
  datatype State<!S, T> = State(value: Option<T>, valid: bool, build: Option<S -> T>)

  /** RebuildCache on a state: a fresh build replaces the value, the flag is left as it was. */
  function Rebuild<S, T>(c: State<S, T>, world: S): (r: Result<State<S, T>>)
    ensures c.build.None? ==> r == Throws(NullReference)
    ensures c.build.Some? ==> r == Ok(c.(value := Some(c.build.value(world))))
  {
    if c.build.None? then Throws(NullReference) else Ok(c.(value := Some(c.build.value(world))))
  }

  /** GetCache on a state: the stored value when valid, else a rebuild, returned without marking the cache valid. */
  function Get<S, T>(c: State<S, T>, world: S): (r: Result<(State<S, T>, Option<T>)>)
    ensures c.valid ==> r == Ok((c, c.value))
    ensures !c.valid && c.build.None? ==> r == Throws(NullReference)
    ensures !c.valid && c.build.Some? ==> r.Ok? && r.value.1 == Some(c.build.value(world))
    ensures r.Ok? ==> r.value.0.valid == c.valid && r.value.0.build == c.build && r.value.0.value == r.value.1
  {
    if c.valid then Ok((c, c.value))
    else
      var rebuilt :- Rebuild(c, world);
      Ok((rebuilt, rebuilt.value))
  }

  /** Successive reads, each in the game state of its turn; the first exception ends them. */
  function Reads<S, T>(c: State<S, T>, worlds: seq<S>): Result<seq<Option<T>>>
    decreases |worlds|
  {
    if |worlds| == 0 then Ok([])
    else
      var first :- Get(c, worlds[0]);
      var rest :- Reads(first.0, worlds[1..]);
      Ok([first.1] + rest)
  }

  /** An invalidated cache with a builder rebuilds on every read: each read answers with a build in its own game state. */
  lemma {:induction false} InvalidatedAlwaysRebuilds<S, T>(c: State<S, T>, worlds: seq<S>)
    requires !c.valid && c.build.Some?
    ensures Reads(c, worlds).Ok?
    ensures |Reads(c, worlds).value| == |worlds|
    ensures forall k :: 0 <= k < |worlds| ==> Reads(c, worlds).value[k] == Some(c.build.value(worlds[k]))
    decreases |worlds|
  {
    if |worlds| > 0 {
      var next := Get(c, worlds[0]).value.0;
      InvalidatedAlwaysRebuilds(next, worlds[1..]);
    }
  }

  /** A valid cache answers every read with its stored value. */
  lemma {:induction false} ValidNeverRebuilds<S, T>(c: State<S, T>, worlds: seq<S>)
    requires c.valid
    ensures Reads(c, worlds).Ok?
    ensures |Reads(c, worlds).value| == |worlds|
    ensures forall k :: 0 <= k < |worlds| ==> Reads(c, worlds).value[k] == c.value
    decreases |worlds|
  {
    if |worlds| > 0 {
      ValidNeverRebuilds(c, worlds[1..]);
    }
  }

  class Cache<S, T> {
    var Value: Option<T>
    var Valid: bool
    var Build: Option<S -> T>

    function Snapshot(): State<S, T>
      reads this
    {
      State(Value, Valid, Build)
    }

    constructor Built(build: S -> T, world: S)
      ensures Snapshot() == State(Some(build(world)), true, Some(build))
    {
      Build := Some(build);
      Valid := true;
      Value := Some(build(world));
    }

    /** `new Cache(buildCache)`: it builds once and starts valid; a null builder throws when it is called. */
    static method Create(build: Option<S -> T>, world: S) returns (r: Result<Cache<S, T>>)
      ensures build.None? ==> r == Throws(NullReference)
      ensures build.Some? ==> (r.Ok? && fresh(r.value)
                               && r.value.Snapshot() == State(Some(build.value(world)), true, build))
    {
      if build.None? {
        return Throws(NullReference);
      }
      var c := new Cache.Built(build.value, world);
      return Ok(c);
    }

    method GetCache(world: S) returns (r: Result<Option<T>>)
      modifies this
      ensures var g := Get(old(Snapshot()), world);
        && (r.Ok? <==> g.Ok?)
        && (r.Throws? ==> r.error == g.error && Snapshot() == old(Snapshot()))
        && (r.Ok? ==> Snapshot() == g.value.0 && r.value == g.value.1)
    {
      if !Valid {
        var rebuilt := RebuildCache(world);
        if rebuilt.Throws? {
          return Throws(rebuilt.error);
        }
      }
      r := Ok(Value);
    }

    method InvalidateCache()
      modifies this
      ensures Snapshot() == old(Snapshot()).(valid := false)
    {
      Valid := false;
    }

    /** RebuildCache replaces the value with a fresh build and leaves the flag alone. */
    method RebuildCache(world: S) returns (r: Result<()>)
      modifies this
      ensures var g := Rebuild(old(Snapshot()), world);
        && (r.Ok? <==> g.Ok?)
        && (r.Throws? ==> r.error == g.error && Snapshot() == old(Snapshot()))
        && (r.Ok? ==> Snapshot() == g.value)
    {
      if Build.None? {
        return Throws(NullReference);
      }
      Value := Some(Build.value(world));
      return Ok(());
    }

    method IsCacheValid() returns (b: bool)
      ensures b == Valid
    {
      b := Valid;
    }

    /** SetBuildCache replaces the builder, null included, without rebuilding. */
    method SetBuildCache(build: Option<S -> T>)
      modifies this
      ensures Snapshot() == old(Snapshot()).(build := build)
    {
      Build := build;
    }

    method ClearCache()
      modifies this
      ensures Snapshot() == old(Snapshot()).(value := None, valid := false)
    {
      Value := None;
      InvalidateCache();
    }
  }
}
