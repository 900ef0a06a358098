/**
 * Model of `UtilitySingleton`, the base class whose static `getInstance`
 * keeps one instance per subclass in a static map from class to instance.
 *
 * Classes are abstract keys and instances abstract ids; `new this()` hands
 * out the next id of a counter, so every construction yields an instance
 * that is different from all earlier ones.
 */
module Singletons {

  /** A subclass of `UtilitySingleton`, the key of the `instances` map. */
  type ClassKey = nat

  /** An object built by `new this()`; the n-th construction builds instance n. */
  type Instance = nat

  /** The static `instances` map together with the number of instances built so far. */
  datatype Table = Table(instances: map<ClassKey, Instance>, constructed: nat)

  /** Every stored instance was built earlier, and no two classes share one. */
  ghost predicate WellFormed(t: Table) {
    && (forall k :: k in t.instances ==> t.instances[k] < t.constructed)
    && (forall k1, k2 :: k1 in t.instances && k2 in t.instances && k1 != k2 ==>
          t.instances[k1] != t.instances[k2])
  }

  /** `getInstance` called on class `k`: build and store an instance only when
    * `k` has none, then return the stored one. */
  function GetInstanceStep(t: Table, k: ClassKey): (r: (Table, Instance))
    ensures k in r.0.instances && r.1 == r.0.instances[k]
  {
    var t' := if k !in t.instances then Table(t.instances[k := t.constructed], t.constructed + 1) else t;
    (t', t'.instances[k])
  }

  /** `instances.clear()`, as the tests do between cases. Construction goes on
    * numbering from where it was. */
  function ClearStep(t: Table): (r: Table)
    ensures r.instances == map[] && r.constructed == t.constructed
  {
    t.(instances := map[])
  }

  /** A class that already has an instance gets that same one back and the table is unchanged. */
  lemma GetInstancePresent(t: Table, k: ClassKey)
    requires k in t.instances
    ensures GetInstanceStep(t, k) == (t, t.instances[k])
  {
  }

  /** A class without an instance gets exactly one new entry: a freshly built
    * instance, different from every instance stored before. */
  lemma GetInstanceAbsent(t: Table, k: ClassKey)
    requires WellFormed(t) && k !in t.instances
    ensures var (t', inst) := GetInstanceStep(t, k);
      && t'.instances == t.instances[k := inst]
      && t'.constructed == t.constructed + 1
      && inst == t.constructed
      && (forall j :: j in t.instances ==> t.instances[j] != inst)
  {
  }

  /** `getInstance(k)` never adds, removes or changes the entry of another class. */
  lemma GetInstanceOthersUnchanged(t: Table, k: ClassKey, other: ClassKey)
    requires other != k
    ensures var t' := GetInstanceStep(t, k).0;
      && (other in t'.instances <==> other in t.instances)
      && (other in t.instances ==> t'.instances[other] == t.instances[other])
  {
  }

  /** Idempotence: a second `getInstance` on the same class returns the same
    * instance and changes nothing. */
  lemma GetInstanceIdempotent(t: Table, k: ClassKey)
    ensures var (t1, i1) := GetInstanceStep(t, k);
      GetInstanceStep(t1, k) == (t1, i1)
  {
  }

  /** `getInstance` keeps the table well formed. */
  lemma GetInstanceKeepsWellFormed(t: Table, k: ClassKey)
    requires WellFormed(t)
    ensures WellFormed(GetInstanceStep(t, k).0)
  {
  }

  /** Distinct classes get distinct instances, whichever order they ask in. */
  lemma DistinctClassesDistinctInstances(t: Table, k1: ClassKey, k2: ClassKey)
    requires WellFormed(t) && k1 != k2
    ensures var (t1, i1) := GetInstanceStep(t, k1);
      var (t2, i2) := GetInstanceStep(t1, k2);
      i1 != i2 && t2.instances[k1] == i1
  {
  }

  /** After the map is cleared, the next `getInstance` builds a new instance:
    * it is numbered after every instance ever built, so in particular it
    * differs from every instance stored before the clear. */
  lemma FreshAfterClear(t: Table, k: ClassKey)
    requires WellFormed(t)
    ensures GetInstanceStep(ClearStep(t), k).1 == t.constructed
    ensures var inst := GetInstanceStep(ClearStep(t), k).1;
      forall j :: j in t.instances ==> t.instances[j] != inst
  {
  }

  /** The static side of `UtilitySingleton`: the `instances` map, held in a field. */
  class UtilitySingleton {
    var instances: map<ClassKey, Instance>
    var constructed: nat

    function Snapshot(): Table
      reads this
    {
      Table(instances, constructed)
    }

    ghost predicate Valid()
      reads this
    {
      WellFormed(Snapshot())
    }

    /** The registry as the module is loaded: an empty map. */
    constructor ()
      ensures Valid() && instances == map[] && constructed == 0
    {
      instances := map[];
      constructed := 0;
    }

    method GetInstance(k: ClassKey) returns (inst: Instance)
      requires Valid()
      modifies this
      ensures Valid()
      ensures (Snapshot(), inst) == GetInstanceStep(old(Snapshot()), k)
      ensures k in instances && inst == instances[k]
      ensures k in old(instances) ==> instances == old(instances) && inst == old(instances[k])
      ensures k !in old(instances) ==>
                instances == old(instances)[k := inst] && inst == old(constructed)
                && constructed == old(constructed) + 1
    {
      ghost var before := Snapshot();
      if k !in instances {
        instances := instances[k := constructed];
        constructed := constructed + 1;
      }
      inst := instances[k];
      GetInstanceKeepsWellFormed(before, k);
    }

    method Clear()
      modifies this
      ensures Valid()
      ensures Snapshot() == ClearStep(old(Snapshot()))
    {
      instances := map[];
    }
  }

  /** Two calls on the same class return the same instance. */
  method SameInstanceScenario() returns (first: Instance, second: Instance)
    ensures first == second
  {
    var registry := new UtilitySingleton();
    first := registry.GetInstance(0);
    second := registry.GetInstance(0);
  }

  /** Two different classes get different instances. */
  method DistinctClassesScenario() returns (mine: Instance, another: Instance)
    ensures mine != another
  {
    var registry := new UtilitySingleton();
    mine := registry.GetInstance(0);
    another := registry.GetInstance(1);
  }

  /** Clearing the map makes the next call build a new instance. */
  method ResetScenario() returns (before: Instance, after: Instance)
    ensures before != after
  {
    var registry := new UtilitySingleton();
    before := registry.GetInstance(0);
    registry.Clear();
    after := registry.GetInstance(0);
  }
}
