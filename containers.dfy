/**
 * The Container singleton keyed by type, in ProfitCalculator/main/Container.cs
 * and in ProfitCalculator/Container.cs (the two differ only in comments).
 * A type stands for itself by its full name; the stored objects are values
 * of V and a null instance is None. Registration never overwrites, lookup of
 * an absent type gives default (None). The lock is left out: the model is
 * sequential.
 */
module TypeContainer {
  import opened Wrappers
  import Registry

  /** A type, by its full name. */
  type TypeName = string

  class Container<V> {
    var Instances: map<TypeName, V>

    /** The singleton starts empty. */
    constructor ()
      ensures Instances == map[]
    {
      Instances := map[];
    }

    /** GetInstance<T>: the instance stored for T, or default. */
    method GetInstance(t: TypeName) returns (r: Option<V>)
      ensures r.Some? <==> t in Instances
      ensures r.Some? ==> r.value == Instances[t]
    {
      if t !in Instances {
        return None;
      }
      return Some(Instances[t]);
    }

    /** RegisterInstance<T>(instance): null throws; otherwise the first registration for T wins. */
    method RegisterInstance(t: TypeName, instance: Option<V>) returns (r: Result<()>)
      modifies this
      ensures instance.None? ==> r == Throws(ArgumentNull) && Instances == old(Instances)
      ensures instance.Some? ==> r == Ok(()) && Instances == Registry.TryAdd(old(Instances), t, instance.value)
    {
      if instance.None? {
        return Throws(ArgumentNull);
      }
      if t !in Instances {
        Instances := Instances[t := instance.value];
      }
      return Ok(());
    }

    /**
     * RegisterInstance<T>() with `new T()`: the new object `made` is built on
     * every call and stored only when T is absent.
     */
    method RegisterNew(t: TypeName, made: V)
      modifies this
      ensures Instances == Registry.TryAdd(old(Instances), t, made)
    {
      if t !in Instances {
        Instances := Instances[t := made];
      }
    }

    /** UnregisterInstance<T>: T is absent afterwards; nothing else changes. */
    method UnregisterInstance(t: TypeName)
      modifies this
      ensures Instances == old(Instances) - {t}
    {
      if t in Instances {
        Instances := Instances - {t};
      }
    }

    method Clear()
      modifies this
      ensures Instances == map[]
    {
      Instances := map[];
    }
  }
}

/**
 * The Container singleton of ProfitCalculator/main/memory/Container.cs: the
 * same registry, with every entry keyed by the type's full name and a
 * string key joined as "FullName_key".
 */
module KeyedContainer {
  import opened Wrappers
  import Registry

  type TypeName = string

  /** The dictionary key of (type, key). */
  function TypeKey(t: TypeName, key: string): (r: string)
    ensures |r| == |t| + 1 + |key|
    ensures r[..|t|] == t && r[|t|] == '_' && r[|t| + 1..] == key
  {
    t + "_" + key
  }

  /** Keys of types whose names hold no '_' never collide: distinct (type, key) pairs get distinct entries. */
  lemma TypeKeyInjective(t1: TypeName, k1: string, t2: TypeName, k2: string)
    requires '_' !in t1 && '_' !in t2
    requires TypeKey(t1, k1) == TypeKey(t2, k2)
    ensures t1 == t2 && k1 == k2
  {
    var s := TypeKey(t1, k1);
    if |t1| != |t2| {
      assert false;
    }
    assert t1 == s[..|t1|] == t2;
    assert k1 == s[|t1| + 1..] == k2;
  }

  /** With '_' in a type name the joined keys can meet: ("A_B", "C") and ("A", "B_C") share one entry. */
  lemma TypeKeysCanCollide()
    ensures TypeKey("A_B", "C") == TypeKey("A", "B_C")
  {
    assert TypeKey("A_B", "C") == "A_B_C";
    assert TypeKey("A", "B_C") == "A_B_C";
  }

  class Container<V> {
    var Instances: map<string, V>

    constructor ()
      ensures Instances == map[]
    {
      Instances := map[];
    }

    /** GetInstance<T>(key): the instance stored under "FullName_key", or default. */
    method GetInstance(t: TypeName, key: string) returns (r: Option<V>)
      ensures r.Some? <==> TypeKey(t, key) in Instances
      ensures r.Some? ==> r.value == Instances[TypeKey(t, key)]
    {
      var typeKey := t + "_" + key;
      if typeKey !in Instances {
        return None;
      }
      return Some(Instances[typeKey]);
    }

    /** RegisterInstance<T>(instance, key): null throws; otherwise the first registration under the key wins. */
    method RegisterInstance(t: TypeName, instance: Option<V>, key: string) returns (r: Result<()>)
      modifies this
      ensures instance.None? ==> r == Throws(ArgumentNull) && Instances == old(Instances)
      ensures instance.Some? ==> r == Ok(()) && Instances == Registry.TryAdd(old(Instances), TypeKey(t, key), instance.value)
    {
      var typeKey := t + "_" + key;
      if instance.None? {
        return Throws(ArgumentNull);
      }
      if typeKey !in Instances {
        Instances := Instances[typeKey := instance.value];
      }
      return Ok(());
    }

    /** RegisterInstance<T>(key) with `new T()`: `made` is built on every call and stored only when the key is absent. */
    method RegisterNew(t: TypeName, key: string, made: V)
      modifies this
      ensures Instances == Registry.TryAdd(old(Instances), TypeKey(t, key), made)
    {
      var typeKey := t + "_" + key;
      if typeKey !in Instances {
        Instances := Instances[typeKey := made];
      }
    }

    /** UnregisterInstance<T>(key): Dictionary.Remove, a no-op when absent. */
    method UnregisterInstance(t: TypeName, key: string)
      modifies this
      ensures Instances == old(Instances) - {TypeKey(t, key)}
    {
      var typeKey := t + "_" + key;
      Instances := Instances - {typeKey};
    }

    method Clear()
      modifies this
      ensures Instances == map[]
    {
      Instances := map[];
    }
  }
}
