/**
 * The setup module registry (src/setup/setup.registry.ts): an insertion-
 * ordered map from module key to module. Registering a key again replaces
 * its module and keeps its place.
 */
module SetupRegistry {
  import opened Common
  import opened SetupTypes
  import WelcomeSetup
  import ServerStatsSetup

  /** The keys of a list of modules, in order. */
  function KeysOf(ms: seq<SetupModule>): (keys: seq<string>)
    ensures |keys| == |ms| && forall i :: 0 <= i < |ms| ==> keys[i] == ms[i].key
  {
    if |ms| == 0 then [] else KeysOf(ms[..|ms| - 1]) + [ms[|ms| - 1].key]
  }

  /** The key-to-module map after registering `ms` in order: a later module wins its key. */
  function Registered(ms: seq<SetupModule>): map<string, SetupModule>
  {
    if |ms| == 0 then map[] else Registered(ms[..|ms| - 1])[ms[|ms| - 1].key := ms[|ms| - 1]]
  }

  /** After registering `ms`, a key is present exactly when some module had it, and it holds the last such module. */
  lemma {:induction false} RegisteredIsLast(ms: seq<SetupModule>, k: string)
    ensures k in Registered(ms) <==> exists j :: 0 <= j < |ms| && ms[j].key == k
    ensures k in Registered(ms) ==>
      exists j :: 0 <= j < |ms| && ms[j] == Registered(ms)[k] && ms[j].key == k
                  && forall j' :: j < j' < |ms| ==> ms[j'].key != k
  {
    if |ms| > 0 {
      var init := ms[..|ms| - 1];
      RegisteredIsLast(init, k);
      if ms[|ms| - 1].key != k && k in Registered(ms) {
        var j :| 0 <= j < |init| && init[j] == Registered(init)[k] && init[j].key == k
                 && forall j' :: j < j' < |init| ==> init[j'].key != k;
        assert ms[j] == Registered(ms)[k];
      }
      if ms[|ms| - 1].key != k && (exists j :: 0 <= j < |ms| && ms[j].key == k) {
        var j :| 0 <= j < |ms| && ms[j].key == k;
        assert init[j].key == k;
      }
    }
  }

  /** Deduplicating `a + [x]` is deduplicating `a`, then adding `x` unless it was seen. */
  lemma {:induction false} DedupeFromSnoc<T>(a: seq<T>, x: T, seen: seq<T>)
    ensures DedupeFrom(a + [x], seen) == DedupeFrom([x], DedupeFrom(a, seen))
    decreases |a|
  {
    if |a| == 0 {
      assert a + [x] == [x];
    } else {
      assert (a + [x])[1..] == a[1..] + [x];
      if a[0] in seen {
        DedupeFromSnoc(a[1..], x, seen);
      } else {
        DedupeFromSnoc(a[1..], x, seen + [a[0]]);
      }
    }
  }

  /** Registering `ms[i]` extends the registration of `ms[..i]` to that of `ms[..i + 1]`. */
  lemma RegisterStep(ms: seq<SetupModule>, i: nat, modules0: map<string, SetupModule>, keys0: seq<string>)
    requires i < |ms|
    ensures (modules0 + Registered(ms[..i]))[ms[i].key := ms[i]] == modules0 + Registered(ms[..i + 1])
    ensures DedupeFrom([ms[i].key], DedupeFrom(KeysOf(ms[..i]), keys0)) == DedupeFrom(KeysOf(ms[..i + 1]), keys0)
  {
    assert ms[..i + 1][..i] == ms[..i];
    DedupeFromSnoc(KeysOf(ms[..i]), ms[i].key, keys0);
    assert KeysOf(ms[..i + 1]) == KeysOf(ms[..i]) + [ms[i].key];
  }

  /** The modules of `keys`, in the order of `keys`. */
  function ModulesOf(keys: seq<string>, modules: map<string, SetupModule>): (r: seq<SetupModule>)
    requires forall k :: k in keys ==> k in modules
    ensures |r| == |keys| && forall i :: 0 <= i < |keys| ==> r[i] == modules[keys[i]]
  {
    if |keys| == 0 then [] else ModulesOf(keys[..|keys| - 1], modules) + [modules[keys[|keys| - 1]]]
  }

  /** `SetupRegistry`: the Collection as its keys in insertion order and its key-to-module map. */
  class Registry {
    var keys: seq<string>
    var modules: map<string, SetupModule>

    ghost predicate Valid()
      reads this
    {
      NoDuplicates(keys)
      && (forall k :: k in modules <==> k in keys)
      && (forall k :: k in modules ==> modules[k].key == k)
    }

    constructor()
      ensures Valid() && keys == [] && modules == map[]
    {
      keys := [];
      modules := map[];
    }

    /** `register`: the module takes its key; a new key goes last, a known one keeps its place. */
    method Register(m: SetupModule)
      requires Valid()
      modifies this
      ensures Valid()
      ensures modules == old(modules)[m.key := m]
      ensures keys == DedupeFrom([m.key], old(keys))
    {
      assert [m.key][1..] == [];
      if m.key !in modules {
        keys := keys + [m.key];
      }
      modules := modules[m.key := m];
    }

    /** Registering a list of modules one after the other. */
    method RegisterAll(ms: seq<SetupModule>)
      requires Valid()
      modifies this
      ensures Valid()
      ensures modules == old(modules) + Registered(ms)
      ensures keys == DedupeFrom(KeysOf(ms), old(keys))
    {
      for i := 0 to |ms|
        invariant Valid()
        invariant modules == old(modules) + Registered(ms[..i])
        invariant keys == DedupeFrom(KeysOf(ms[..i]), old(keys))
      {
        RegisterStep(ms, i, old(modules), old(keys));
        Register(ms[i]);
      }
      assert ms[..|ms|] == ms;
    }

    /** `get`: the module registered under `key`, if any. */
    function Get(key: string): (r: Option<SetupModule>)
      reads this
      requires Valid()
      ensures r.Some? <==> key in keys
      ensures r.Some? ==> r.value.key == key
    {
      if key in modules then Some(modules[key]) else None
    }

    /** `getAll`: one module per key, in first-registration order. */
    function GetAll(): (all: seq<SetupModule>)
      reads this
      requires Valid()
      ensures |all| == |keys|
      ensures forall i :: 0 <= i < |all| ==> all[i].key == keys[i] && all[i] == modules[keys[i]]
    {
      ModulesOf(keys, modules)
    }
  }

  /** Registration order from an empty registry: the keys are the distinct keys in order of first registration. */
  lemma RegistrationOrder(ms: seq<SetupModule>)
    ensures NoDuplicates(DedupeFrom(KeysOf(ms), []))
    ensures forall k :: k in DedupeFrom(KeysOf(ms), []) <==> exists j :: 0 <= j < |ms| && ms[j].key == k
  {
    var keys := KeysOf(ms);
    DedupeFromProps(keys, []);
    var d := DedupeFrom(keys, []);
    forall k
      ensures k in d <==> exists j :: 0 <= j < |ms| && ms[j].key == k
    {
      assert k in d <==> k in keys;
      if k in keys {
        var j :| 0 <= j < |keys| && keys[j] == k;
        assert ms[j].key == k;
      }
      if exists j :: 0 <= j < |ms| && ms[j].key == k {
        var j :| 0 <= j < |ms| && ms[j].key == k;
        assert keys[j] == k;
      }
    }
  }

  /** The registry as the program loads it: the welcome module, then the server-stats module. */
  method Load() returns (registry: Registry)
    ensures fresh(registry) && registry.Valid()
    ensures registry.keys == [WelcomeSetup.Key, ServerStatsSetup.Key]
    ensures registry.GetAll() == [WelcomeSetup.Module, ServerStatsSetup.Module]
  {
    registry := new Registry();
    registry.Register(WelcomeSetup.Module);
    registry.Register(ServerStatsSetup.Module);
  }
}
