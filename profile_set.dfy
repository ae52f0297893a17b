/**
 * `ProfileSet<T: PProfIdentifiable>` (profiling/src/profile/v2/profile_set.rs).
 * The trait has three implementors, `Function`, `Location` and `Mapping`
 * (profiling/src/profile/v2/mod.rs); they become the three variants of
 * `Entity`, whose `SetId` is the trait's `set_id`.
 */
module ProfileSets {
  import opened IndexSet
  import opened Pprof

  datatype Entity =
    | FunctionEntity(func: Function)
    | LocationEntity(location: Location)
    | MappingEntity(mapping: Mapping)
  {
    function Id(): nat {
      match this
      case FunctionEntity(f) => f.id
      case LocationEntity(l) => l.id
      case MappingEntity(m) => m.id
    }

    /** `set_id`: only the id changes, so the entity's identity in a set is kept. */
    function SetId(id: nat): (e: Entity)
      ensures e.Id() == id
      ensures EntityKey(e) == EntityKey(this)
    {
      match this
      case FunctionEntity(f) => FunctionEntity(f.(id := id))
      case LocationEntity(l) => LocationEntity(l.(id := id))
      case MappingEntity(m) => MappingEntity(m.(id := id))
    }
  }

  /** Entities compare as their records do: ignoring the id. */
  function EntityKey(e: Entity): Entity {
    match e
    case FunctionEntity(f) => FunctionEntity(FunctionKey(f))
    case LocationEntity(l) => LocationEntity(LocationKey(l))
    case MappingEntity(m) => MappingEntity(MappingKey(m))
  }

  class ProfileSet {
    var items: seq<Entity>

    /** No duplicates, and the element at position i carries id i + 1. */
    ghost predicate Valid()
      reads this
    {
      Distinct(items, EntityKey) && forall i :: 0 <= i < |items| ==> items[i].Id() == i + 1
    }

    constructor ()
      ensures Valid() && items == []
    {
      items := [];
    }

    /**
     * `add`: the id of `value` in the set (its position + 1). A new value is
     * stored with that id; an equal stored value keeps its own id.
     */
    method Add(value: Entity) returns (id: nat)
      requires Valid()
      modifies this
      ensures Valid()
      ensures 1 <= id <= |items| && EntityKey(items[id - 1]) == EntityKey(value) && items[id - 1].Id() == id
      ensures (exists j :: 0 <= j < |old(items)| && EntityKey(old(items)[j]) == EntityKey(value)) ==> items == old(items)
      ensures (forall j :: 0 <= j < |old(items)| ==> EntityKey(old(items)[j]) != EntityKey(value)) ==>
                items == old(items) + [value.SetId(|old(items)| + 1)] && id == |items|
    {
      var v := value.SetId(|items| + 1);
      var (s, index) := InsertFull(items, EntityKey, v);
      items := s;
      id := index + 1;
    }

    /** `export`: the elements in insertion order. */
    function Export(): (r: seq<Entity>)
      reads this
      requires Valid()
      ensures |r| == |items| && forall i :: 0 <= i < |r| ==> r[i] == items[i] && r[i].Id() == i + 1
    {
      items
    }
  }
}
