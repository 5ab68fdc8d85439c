/** The in-memory module dependency repository: for each module (keyed by type and
    name) the set of targets that depend on it. */
module ModuleDependencies {
  import opened Wrappers
  import opened Strings

  /** The name() of a ModuleType constant; a Java identifier never holds a colon. */
  type TypeName = s: string | ':' !in s

  datatype ModuleType = ModuleType(name: TypeName)

  /** keyFor(moduleName, type): the type's name, a colon, the module name. */
  function KeyFor(moduleName: string, t: ModuleType): (key: string)
    ensures |key| == |t.name| + 1 + |moduleName|
    ensures key[..|t.name|] == t.name
    ensures ':' !in key[..|t.name|] && key[|t.name|] == ':'
    ensures key[|t.name| + 1..] == moduleName
  {
    t.name + ":" + moduleName
  }

  /** Reads a key back into the type name and the module name, cutting at the first colon. */
  function SplitKey(key: string): Option<(string, string)>
  {
    match IndexOf(key, ':')
    case None => None
    case Some(i) => Some((key[..i], key[i + 1..]))
  }

  /** Every key reads back to the type and module it was made from. */
  lemma KeyForRoundTrip(moduleName: string, t: ModuleType)
    ensures SplitKey(KeyFor(moduleName, t)) == Some((t.name, moduleName))
  {
    var key := KeyFor(moduleName, t);
    assert key == t.name + [':'] + moduleName;
    IndexOfPastPrefix(t.name, ':', moduleName);
    assert key[..|t.name|] == t.name;
    assert key[|t.name| + 1..] == moduleName;
  }

  /** Distinct (type, module) pairs have distinct keys. */
  lemma KeyForInjective(n1: string, t1: ModuleType, n2: string, t2: ModuleType)
    ensures KeyFor(n1, t1) == KeyFor(n2, t2) <==> n1 == n2 && t1 == t2
  {
    KeyForRoundTrip(n1, t1);
    KeyForRoundTrip(n2, t2);
  }

  /** What the auto-creating `get` answers for `key`: its set, or an empty one. */
  function DependentsAt(m: map<string, set<string>>, key: string): set<string>
  {
    if key in m then m[key] else {}
  }

  /** The map after the auto-creating `get` of `key`. */
  function Vivified(m: map<string, set<string>>, key: string): (r: map<string, set<string>>)
    ensures key in r
    ensures r.Keys == m.Keys + {key}
    ensures forall k | k in r :: r[k] == DependentsAt(m, k)
  {
    if key in m then m else m[key := {}]
  }

  /** The map after store(key, target). */
  function Stored(m: map<string, set<string>>, key: string, target: string): (r: map<string, set<string>>)
    ensures r.Keys == m.Keys + {key}
    ensures target in r[key] && r[key] - {target} == DependentsAt(m, key) - {target}
    ensures forall k | k in m && k != key :: r[k] == m[k]
  {
    m[key := DependentsAt(m, key) + {target}]
  }

  /** The map after delete(key, target). */
  function Deleted(m: map<string, set<string>>, key: string, target: string): (r: map<string, set<string>>)
    ensures r.Keys == m.Keys + {key}
    ensures target !in r[key] && r[key] + {target} == DependentsAt(m, key) + {target}
    ensures forall k | k in m && k != key :: r[k] == m[k]
  {
    m[key := DependentsAt(m, key) - {target}]
  }

  class InMemoryModuleDependencyRepository {
    var dependencies: map<string, set<string>>

    constructor ()
      ensures dependencies == map[]
    {
      dependencies := map[];
    }

    /** The overridden HashMap.get: never null; an absent key is given a new empty set,
        which is put into the map before being returned. */
    method DependenciesGet(key: string) returns (result: set<string>)
      modifies this
      ensures key in dependencies && result == dependencies[key]
      ensures result == DependentsAt(old(dependencies), key)
      ensures dependencies == Vivified(old(dependencies), key)
    {
      if key in dependencies {
        result := dependencies[key];
      } else {
        result := {};
        dependencies := dependencies[key := result];
      }
    }

    method Store(moduleName: string, t: ModuleType, target: string)
      modifies this
      ensures dependencies == Stored(old(dependencies), KeyFor(moduleName, t), target)
    {
      var key := KeyFor(moduleName, t);
      var deps := DependenciesGet(key);
      dependencies := dependencies[key := deps + {target}];
    }

    method Delete(moduleName: string, t: ModuleType, target: string)
      modifies this
      ensures dependencies == Deleted(old(dependencies), KeyFor(moduleName, t), target)
    {
      var key := KeyFor(moduleName, t);
      var deps := DependenciesGet(key);
      dependencies := dependencies[key := deps - {target}];
    }

    method FindDependents(name: string, t: ModuleType) returns (result: set<string>)
      modifies this
      ensures result == DependentsAt(old(dependencies), KeyFor(name, t))
      ensures dependencies == Vivified(old(dependencies), KeyFor(name, t))
    {
      result := DependenciesGet(KeyFor(name, t));
    }
  }

  /** Creating an entry on a read cannot be observed through later reads. */
  lemma VivifyUnobservable(m: map<string, set<string>>, key: string, other: string)
    ensures DependentsAt(Vivified(m, key), other) == DependentsAt(m, other)
  {
  }

  /** A key never stored reads as the empty set, and reading it only adds an empty entry. */
  lemma FindNeverStored(m: map<string, set<string>>, key: string)
    requires key !in m
    ensures DependentsAt(m, key) == {}
    ensures Vivified(m, key) == m[key := {}]
  {
  }

  /** After store the target is a dependent, next to every earlier one. */
  lemma StoreThenFind(m: map<string, set<string>>, key: string, target: string)
    ensures DependentsAt(Stored(m, key, target), key) == DependentsAt(m, key) + {target}
    ensures target in DependentsAt(Stored(m, key, target), key)
  {
  }

  /** Storing the same target twice is the same as storing it once. */
  lemma StoreIdempotent(m: map<string, set<string>>, key: string, target: string)
    ensures Stored(Stored(m, key, target), key, target) == Stored(m, key, target)
  {
  }

  /** After delete the target is no dependent, and every other dependent is kept. */
  lemma DeleteThenFind(m: map<string, set<string>>, key: string, target: string)
    ensures DependentsAt(Deleted(m, key, target), key) == DependentsAt(m, key) - {target}
    ensures target !in DependentsAt(Deleted(m, key, target), key)
  {
  }

  /** Deleting a target that is not there only has the effect of a read. */
  lemma DeleteAbsentIsRead(m: map<string, set<string>>, key: string, target: string)
    requires target !in DependentsAt(m, key)
    ensures Deleted(m, key, target) == Vivified(m, key)
  {
    assert DependentsAt(m, key) - {target} == DependentsAt(m, key);
    if key in m {
      assert m[key := m[key]] == m;
    }
  }

  /** store, delete and the reading get leave the set of every other key as it was. */
  lemma OtherKeysUnchanged(m: map<string, set<string>>, key: string, other: string, target: string)
    requires other != key
    ensures other in Stored(m, key, target) <==> other in m
    ensures other in Deleted(m, key, target) <==> other in m
    ensures other in m ==>
      && Stored(m, key, target)[other] == m[other]
      && Deleted(m, key, target)[other] == m[other]
      && Vivified(m, key)[other] == m[other]
  {
  }

  /** Deleting what was just stored, when it was not there before, restores every answer. */
  lemma DeleteUndoesStore(m: map<string, set<string>>, key: string, target: string, other: string)
    requires target !in DependentsAt(m, key)
    ensures DependentsAt(Deleted(Stored(m, key, target), key, target), other) == DependentsAt(m, other)
  {
  }

  /** A repository in use: a stored target is found, the answer under the same name with
      another type is left as it was, and a delete takes the target back out. */
  method StoreAndDelete(repo: InMemoryModuleDependencyRepository, name: string, t1: ModuleType, t2: ModuleType, target: string)
    returns (afterStore: set<string>, elsewhere: set<string>, afterDelete: set<string>)
    requires t1 != t2
    modifies repo
    ensures target in afterStore
    ensures elsewhere == DependentsAt(old(repo.dependencies), KeyFor(name, t2))
    ensures target !in afterDelete
    ensures afterDelete == afterStore - {target}
  {
    repo.Store(name, t1, target);
    afterStore := repo.FindDependents(name, t1);
    KeyForInjective(name, t1, name, t2);
    elsewhere := repo.FindDependents(name, t2);
    repo.Delete(name, t1, target);
    afterDelete := repo.FindDependents(name, t1);
  }
}
