/** `Entity` (hammer/dataset/entity.py): a named set of join keys, compared
    by value, hashed through its name and its comma-joined keys, with
    read-only properties. */
module Entities {
  import opened Results
  import opened PyStrings

  datatype Entity = Entity(name: string, joinKeys: seq<string>)

  /** `Entity(name, join_keys)`: both read back as given. */
  function NewEntity(name: string, joinKeys: seq<string>): (e: Entity)
    ensures e.name == name && e.joinKeys == joinKeys
  {
    Entity(name, joinKeys)
  }

  /** The dataclass `==`: the fields compared in order. */
  predicate Equal(a: Entity, b: Entity) {
    a.name == b.name && a.joinKeys == b.joinKeys
  }

  /** What `__hash__` passes to `hash`: the name and the keys joined with
      ",". The numeric hash of that pair is Python's and is left open. */
  function HashKey(e: Entity): (k: (string, string))
    ensures k.0 == e.name
  {
    (e.name, Join(e.joinKeys, ","))
  }

  /** `hash(e)` for any hash function on the pair. */
  function Hash<H>(hash: ((string, string)) -> H, e: Entity): H {
    hash(HashKey(e))
  }

  /** The two read-only properties. */
  datatype Property = NameProperty | JoinKeysProperty

  function PropertyName(p: Property): string {
    match p
    case NameProperty => "name"
    case JoinKeysProperty => "join_keys"
  }

  /** Assigning to `name` or `join_keys` raises `AttributeError` naming the
      property, whatever the value: neither property has a setter. */
  function SetProperty<T>(e: Entity, p: Property, value: T): (r: Result<Entity>)
    ensures r.Failure? && r.error == AttributeError(PropertyName(p))
  {
    Failure(AttributeError(PropertyName(p)))
  }

  /** Equality is exactly equality of name and keys. */
  lemma EqualIffSameFields(a: Entity, b: Entity)
    ensures Equal(a, b) <==> a == b
  {
  }

  /** `__hash__` agrees with `==`: equal entities hash alike, whatever the
      hash function. */
  lemma HashAgreesWithEquality<H>(hash: ((string, string)) -> H, a: Entity, b: Entity)
    requires Equal(a, b)
    ensures Hash(hash, a) == Hash(hash, b)
  {
  }

  /** Joining loses the key boundaries: ["a,b"] and ["a", "b"] are
      different entities with the same hash key, and so are [] and [""]. */
  lemma HashKeyCollisions(name: string)
    ensures !Equal(Entity(name, ["a,b"]), Entity(name, ["a", "b"]))
    ensures HashKey(Entity(name, ["a,b"])) == HashKey(Entity(name, ["a", "b"]))
    ensures !Equal(Entity(name, []), Entity(name, [""]))
    ensures HashKey(Entity(name, [])) == HashKey(Entity(name, [""]))
  {
    var keys := ["a", "b"];
    assert keys[1..] == ["b"];
    assert Join(keys, ",") == "a" + "," + "b";
    assert "a" + "," + "b" == "a,b";
  }

  /** Without commas in the keys and with at least one key, the hash key
      determines the entity: distinct such entities never share it. */
  lemma HashKeyInjective(a: Entity, b: Entity)
    requires a.joinKeys != [] && b.joinKeys != []
    requires forall i :: 0 <= i < |a.joinKeys| ==> ',' !in a.joinKeys[i]
    requires forall i :: 0 <= i < |b.joinKeys| ==> ',' !in b.joinKeys[i]
    ensures HashKey(a) == HashKey(b) <==> Equal(a, b)
  {
    if HashKey(a) == HashKey(b) {
      SplitJoin(a.joinKeys, ',');
      SplitJoin(b.joinKeys, ',');
    }
  }
}
