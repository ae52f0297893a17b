/** The shared string table of the version-2 profiler (profiling/src/profile/v2/string_table.rs). */
module StringTables {
  import opened IndexSet

  /** An `IndexSet<String>` that starts out holding the empty string at index 0. */
  class StringTable {
    var items: seq<string>

    ghost predicate Valid()
      reads this
    {
      |items| > 0 && items[0] == "" && Distinct(items, Id)
    }

    constructor ()
      ensures Valid() && items == [""]
    {
      items := [""];
    }

    /**
     * The index of `s`, appending it when it is new. Afterwards `s` sits at
     * the returned index, and a string already present keeps its index.
     */
    method Intern(s: string) returns (id: nat)
      requires Valid()
      modifies this
      ensures Valid()
      ensures (items, id) == InsertFull(old(items), Id, s)
      ensures id < |items| && items[id] == s
      ensures s in old(items) ==> items == old(items) && old(items)[id] == s
      ensures s !in old(items) ==> items == old(items) + [s] && id == |old(items)|
    {
      match IndexOf(items, Id, s)
      case Some(i) =>
        id := i;
      case None =>
        DistinctAppend(items, Id, s);
        id := |items|;
        items := items + [s];
    }

    /** The entries in insertion order. */
    function Strings(): (r: seq<string>)
      reads this
      ensures |r| == |items| && forall i :: 0 <= i < |r| ==> r[i] == items[i]
    {
      items
    }
  }

  /** A new table interns the empty string at 0 and leaves itself unchanged. */
  lemma {:induction false} NewTableInternsEmptyAtZero()
    ensures InsertFull([""], Id, "") == ([""], 0)
  {
    assert Id([""][0]) == "";
  }

  /** Interning is idempotent: the second call yields the same id and changes nothing. */
  lemma {:induction false} InternIdempotent(items: seq<string>, s: string)
    ensures InsertFull(InsertFull(items, Id, s).0, Id, s) == InsertFull(items, Id, s)
  {
    InsertFullIdempotent(items, Id, s);
  }

  /** In a duplicate-free table, each entry's string interns to that entry's index. */
  lemma {:induction false} InternFindsEntry(items: seq<string>, i: nat)
    requires Distinct(items, Id) && i < |items|
    ensures InsertFull(items, Id, items[i]) == (items, i)
  {
    IndexOfDistinct(items, Id, i);
  }
}
