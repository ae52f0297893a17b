/** The deduplicating store of functions, locations and mappings (profiling/src/profile/v2/profile_storage.rs). */
module ProfileStorages {
  import opened IndexSet
  import opened Pprof

  /** Every id is its position + 1. */
  ghost predicate IdsArePositions<T>(s: seq<T>, id: T -> nat) {
    forall i :: 0 <= i < |s| ==> id(s[i]) == i + 1
  }

  function FunctionId(f: Function): nat { f.id }
  function LocationId(l: Location): nat { l.id }
  function MappingId(m: Mapping): nat { m.id }

  class ProfileStorage {
    var functions: seq<Function>
    var locations: seq<Location>
    var mappings: seq<Mapping>

    ghost predicate Valid()
      reads this
    {
      && Distinct(functions, FunctionKey) && IdsArePositions(functions, FunctionId)
      && Distinct(locations, LocationKey) && IdsArePositions(locations, LocationId)
      && Distinct(mappings, MappingKey) && IdsArePositions(mappings, MappingId)
    }

    constructor ()
      ensures Valid() && functions == [] && locations == [] && mappings == []
    {
      functions, locations, mappings := [], [], [];
    }

    /** `index_to_id`: pprof ids are one more than the position, so 0 stays reserved. */
    static function IndexToId(index: nat): (id: nat)
      ensures id > 0 && id - 1 == index
    {
      index + 1
    }

    /** `add`: insert into one set and return the id of the element that is there now. */
    static function Add<T, K(==)>(items: seq<T>, key: T -> K, value: T): (r: (seq<T>, nat))
      ensures 1 <= r.1 <= |r.0| && key(r.0[r.1 - 1]) == key(value)
      ensures r.0 == InsertFull(items, key, value).0
    {
      var (s, index) := InsertFull(items, key, value);
      (s, IndexToId(index))
    }

    /** Adding an element whose id is the next position keeps the set duplicate-free and ids equal to positions + 1. */
    static lemma {:induction false} AddKeepsIds<T, K>(items: seq<T>, key: T -> K, id: T -> nat, value: T)
      requires Distinct(items, key) && IdsArePositions(items, id) && id(value) == |items| + 1
      ensures Distinct(Add(items, key, value).0, key) && IdsArePositions(Add(items, key, value).0, id)
      ensures id(Add(items, key, value).0[Add(items, key, value).1 - 1]) == Add(items, key, value).1
    {
      var (s, i) := InsertFull(items, key, value);
      if s == items {
        assert id(s[i]) == i + 1;
      } else {
        assert s == items + [value] && i == |items|;
        assert forall j :: 0 <= j < |items| ==> s[j] == items[j];
      }
    }

    /** `add_function`: the function's id; an equal function keeps its id and the set its size. */
    method AddFunction(func: Function) returns (id: nat)
      requires Valid()
      modifies this`functions
      ensures Valid()
      ensures locations == old(locations) && mappings == old(mappings)
      ensures 1 <= id <= |functions| && functions[id - 1].Eq(func) && functions[id - 1].id == id
      ensures (exists j :: 0 <= j < |old(functions)| && old(functions)[j].Eq(func)) ==> functions == old(functions)
      ensures (forall j :: 0 <= j < |old(functions)| ==> !old(functions)[j].Eq(func)) ==>
                functions == old(functions) + [func.(id := id)] && id == |functions|
    {
      var f := func.(id := IndexToId(|functions|));
      AddKeepsIds(functions, FunctionKey, FunctionId, f);
      var (s, i) := Add(functions, FunctionKey, f);
      functions, id := s, i;
      assert FunctionKey(f) == FunctionKey(func);
      FunctionEqIgnoresId(functions[id - 1], func);
      forall j | 0 <= j < |old(functions)|
        ensures old(functions)[j].Eq(func) <==> FunctionKey(old(functions)[j]) == FunctionKey(f)
      {
        FunctionEqIgnoresId(old(functions)[j], func);
      }
    }

    /** `add_location`: the location's id; an equal location keeps its id and the set its size. */
    method AddLocation(location: Location) returns (id: nat)
      requires Valid()
      modifies this`locations
      ensures Valid()
      ensures functions == old(functions) && mappings == old(mappings)
      ensures 1 <= id <= |locations| && locations[id - 1].Eq(location) && locations[id - 1].id == id
      ensures (exists j :: 0 <= j < |old(locations)| && old(locations)[j].Eq(location)) ==> locations == old(locations)
      ensures (forall j :: 0 <= j < |old(locations)| ==> !old(locations)[j].Eq(location)) ==>
                locations == old(locations) + [location.(id := id)] && id == |locations|
    {
      var l := location.(id := IndexToId(|locations|));
      AddKeepsIds(locations, LocationKey, LocationId, l);
      var (s, i) := Add(locations, LocationKey, l);
      locations, id := s, i;
      assert LocationKey(l) == LocationKey(location);
      LocationEqIgnoresId(locations[id - 1], location);
      forall j | 0 <= j < |old(locations)|
        ensures old(locations)[j].Eq(location) <==> LocationKey(old(locations)[j]) == LocationKey(l)
      {
        LocationEqIgnoresId(old(locations)[j], location);
      }
    }

    /** `add_mapping`: the mapping's id; an equal mapping keeps its id and the set its size. */
    method AddMapping(mapping: Mapping) returns (id: nat)
      requires Valid()
      modifies this`mappings
      ensures Valid()
      ensures functions == old(functions) && locations == old(locations)
      ensures 1 <= id <= |mappings| && mappings[id - 1].Eq(mapping) && mappings[id - 1].id == id
      ensures (exists j :: 0 <= j < |old(mappings)| && old(mappings)[j].Eq(mapping)) ==> mappings == old(mappings)
      ensures (forall j :: 0 <= j < |old(mappings)| ==> !old(mappings)[j].Eq(mapping)) ==>
                mappings == old(mappings) + [mapping.(id := id)] && id == |mappings|
    {
      var m := mapping.(id := IndexToId(|mappings|));
      AddKeepsIds(mappings, MappingKey, MappingId, m);
      var (s, i) := Add(mappings, MappingKey, m);
      mappings, id := s, i;
      assert MappingKey(m) == MappingKey(mapping);
      MappingEqIgnoresId(mappings[id - 1], mapping);
      forall j | 0 <= j < |old(mappings)|
        ensures old(mappings)[j].Eq(mapping) <==> MappingKey(old(mappings)[j]) == MappingKey(m)
      {
        MappingEqIgnoresId(old(mappings)[j], mapping);
      }
    }

    /** `functions()`: the stored functions in insertion order, each with id = position + 1. */
    function Functions(): (r: seq<Function>)
      reads this
      requires Valid()
      ensures |r| == |functions| && forall i :: 0 <= i < |r| ==> r[i] == functions[i] && r[i].id == i + 1
    {
      functions
    }

    /** `locations()`: the stored locations in insertion order, each with id = position + 1. */
    function Locations(): (r: seq<Location>)
      reads this
      requires Valid()
      ensures |r| == |locations| && forall i :: 0 <= i < |r| ==> r[i] == locations[i] && r[i].id == i + 1
    {
      locations
    }

    /** `mappings()`: the stored mappings in insertion order, each with id = position + 1. */
    function Mappings(): (r: seq<Mapping>)
      reads this
      requires Valid()
      ensures |r| == |mappings| && forall i :: 0 <= i < |r| ==> r[i] == mappings[i] && r[i].id == i + 1
    {
      mappings
    }
  }
}
