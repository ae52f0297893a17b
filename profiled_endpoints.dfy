/**
 * Per-endpoint sample counts (ddcommon/src/profiled_endpoints.rs): an
 * `IndexMap<String, i64>` from endpoint name to the number of times it was
 * seen, in first-seen order.
 */
module ProfiledEndpoints {
  import opened Wrappers
  import opened IndexSet

  datatype ProfiledEndpointStats = ProfiledEndpointStats(name: string, count: int)

  /** The sum of all counts. */
  function Total(m: seq<(string, int)>): int
    decreases |m|
  {
    if |m| == 0 then 0 else Total(m[..|m| - 1]) + m[|m| - 1].1
  }

  /** The map after one more sighting of `name`: a new name starts at 1, a known one goes up by 1 in place. */
  function Counted(m: seq<(string, int)>, name: string): seq<(string, int)> {
    match IndexOf(m, Fst, name)
    case None => m + [(name, 1)]
    case Some(i) => m[i := (name, m[i].1 + 1)]
  }

  /** One sighting keeps the key list, or appends a new name, and keeps the map duplicate-free. */
  lemma {:induction false} CountedKeys(m: seq<(string, int)>, name: string)
    ensures Keys(Counted(m, name)) == if name in Keys(m) then Keys(m) else Keys(m) + [name]
    ensures Distinct(m, Fst) ==> Distinct(Counted(m, name), Fst)
  {
    match IndexOf(m, Fst, name)
    case None =>
      assert Counted(m, name) == Insert(m, name, 1);
    case Some(i) =>
      assert Counted(m, name) == Insert(m, name, m[i].1 + 1);
  }

  /** Changing one count by `d` changes the total by `d`. */
  lemma {:induction false} TotalUpdate(m: seq<(string, int)>, i: nat, e: (string, int))
    requires i < |m|
    ensures Total(m[i := e]) == Total(m) - m[i].1 + e.1
    decreases |m|
  {
    var n := |m|;
    if i == n - 1 {
      assert m[i := e][..n - 1] == m[..n - 1];
    } else {
      TotalUpdate(m[..n - 1], i, e);
      assert m[i := e][..n - 1] == m[..n - 1][i := e];
    }
  }

  /** Appending an entry adds its count to the total. */
  lemma {:induction false} TotalAppend(m: seq<(string, int)>, e: (string, int))
    ensures Total(m + [e]) == Total(m) + e.1
  {
    assert (m + [e])[..|m|] == m;
  }

  /** The count a name has after one more sighting. */
  function NextCount(m: seq<(string, int)>, name: string): int {
    match Get(m, name)
    case None => 1
    case Some(c) => c + 1
  }

  /** On a duplicate-free map one sighting is an `insert` of the next count. */
  lemma {:induction false} CountedIsInsert(m: seq<(string, int)>, name: string)
    requires Distinct(m, Fst)
    ensures Counted(m, name) == Insert(m, name, NextCount(m, name))
  {
    match IndexOf(m, Fst, name)
    case None =>
      assert Get(m, name) == None;
      assert Insert(m, name, 1) == m + [(name, 1)];
    case Some(i) =>
      GetDistinct(m, i);
      assert NextCount(m, name) == m[i].1 + 1;
      assert Insert(m, name, m[i].1 + 1) == m[i := (name, m[i].1 + 1)];
  }

  /** A first sighting appends a count of 1. */
  lemma {:induction false} CountedTotalNew(m: seq<(string, int)>, name: string)
    requires IndexOf(m, Fst, name).None?
    ensures Total(Counted(m, name)) == Total(m) + 1
  {
    TotalAppend(m, (name, 1));
  }

  /** A repeated sighting raises one count by 1. */
  lemma {:induction false} CountedTotalKnown(m: seq<(string, int)>, name: string, i: nat)
    requires IndexOf(m, Fst, name) == Some(i)
    ensures Total(Counted(m, name)) == Total(m) + 1
  {
    TotalUpdate(m, i, (name, m[i].1 + 1));
  }

  /** One sighting adds one to the total. */
  lemma {:induction false} CountedTotal(m: seq<(string, int)>, name: string)
    ensures Total(Counted(m, name)) == Total(m) + 1
  {
    match IndexOf(m, Fst, name)
    case None => CountedTotalNew(m, name);
    case Some(i) => CountedTotalKnown(m, name, i);
  }

  /** One sighting: that name's count is one more (1 if new), every other name keeps its count, and the total grows by one. */
  lemma {:induction false} CountedCounts(m: seq<(string, int)>, name: string, other: string)
    requires Distinct(m, Fst)
    ensures Get(Counted(m, name), name) == Some(NextCount(m, name))
    ensures other != name ==> Get(Counted(m, name), other) == Get(m, other)
    ensures Total(Counted(m, name)) == Total(m) + 1
  {
    CountedIsInsert(m, name);
    InsertGet(m, name, NextCount(m, name), other);
    CountedTotal(m, name);
  }

  /** Inserting the stats one by one into `m`: the loop of `From<Vec<ProfiledEndpointStats>>`. */
  function InsertAll(m: seq<(string, int)>, stats: seq<ProfiledEndpointStats>): seq<(string, int)>
    decreases |stats|
  {
    if |stats| == 0 then m else InsertAll(Insert(m, stats[0].name, stats[0].count), stats[1..])
  }

  /** The count the last stat named `name` carries, if any stat does. */
  function LastCount(stats: seq<ProfiledEndpointStats>, name: string): Option<int>
    decreases |stats|
  {
    if |stats| == 0 then None
    else if LastCount(stats[1..], name).Some? then LastCount(stats[1..], name)
    else if stats[0].name == name then Some(stats[0].count)
    else None
  }

  /** After inserting the stats, a name maps to its last count; names none of them carries keep what they had. */
  lemma {:induction false} InsertAllGet(m: seq<(string, int)>, stats: seq<ProfiledEndpointStats>, name: string)
    ensures Get(InsertAll(m, stats), name) == match LastCount(stats, name) case Some(c) => Some(c) case None => Get(m, name)
    decreases |stats|
  {
    if |stats| > 0 {
      InsertAllGet(Insert(m, stats[0].name, stats[0].count), stats[1..], name);
      InsertGet(m, stats[0].name, stats[0].count, name);
    }
  }

  /**
   * The names of `stats` that `seen` does not hold, each once, at its first
   * occurrence: the keys inserting the stats appends, in order.
   */
  function NewNames(seen: seq<string>, stats: seq<ProfiledEndpointStats>): seq<string>
    decreases |stats|
  {
    if |stats| == 0 then []
    else if stats[0].name in seen then NewNames(seen, stats[1..])
    else [stats[0].name] + NewNames(seen + [stats[0].name], stats[1..])
  }

  /** The keys after the first stat, followed by the names new to them, are the keys followed by the names new to them. */
  lemma {:induction false} NewNamesStep(k: seq<string>, stats: seq<ProfiledEndpointStats>)
    requires |stats| > 0
    ensures var k' := if stats[0].name in k then k else k + [stats[0].name];
      k' + NewNames(k', stats[1..]) == k + NewNames(k, stats)
  {
    var name := stats[0].name;
    if name !in k {
      assert k + ([name] + NewNames(k + [name], stats[1..])) == (k + [name]) + NewNames(k + [name], stats[1..]);
    }
  }

  /** Inserting the stats keeps the keys already there in place and appends each new name where it first occurs. */
  lemma {:induction false} InsertAllKeys(m: seq<(string, int)>, stats: seq<ProfiledEndpointStats>)
    ensures Keys(InsertAll(m, stats)) == Keys(m) + NewNames(Keys(m), stats)
    decreases |stats|
  {
    if |stats| == 0 {
      assert Keys(m) + [] == Keys(m);
    } else {
      var m' := Insert(m, stats[0].name, stats[0].count);
      InsertAllKeys(m', stats[1..]);
      NewNamesStep(Keys(m), stats);
    }
  }

  /** A repeated name keeps its first position and takes its last count. */
  lemma {:induction false} InsertAllRepeated(stats: seq<ProfiledEndpointStats>)
    requires stats == [ProfiledEndpointStats("a", 1), ProfiledEndpointStats("b", 2), ProfiledEndpointStats("a", 3)]
    ensures Keys(InsertAll([], stats)) == ["a", "b"]
    ensures Get(InsertAll([], stats), "a") == Some(3) && Get(InsertAll([], stats), "b") == Some(2)
  {
    var s1, s2 := stats[1..], stats[2..];
    assert s1[1..] == s2 && s2[1..] == [];
    assert stats[0].name == "a" && s1[0].name == "b" && s2[0] == ProfiledEndpointStats("a", 3);
    assert NewNames(["a", "b"], s2) == [] by { assert "a" in ["a", "b"]; }
    assert NewNames(["a"], s1) == ["b"] by { assert ["a"] + ["b"] == ["a", "b"]; }
    assert NewNames([], stats) == ["a", "b"] by { assert [] + ["a"] == ["a"]; }
    InsertAllKeys([], stats);
    assert Keys<string, int>([]) == [];
    assert LastCount(s2, "a") == Some(3) && LastCount(s2, "b") == None;
    assert LastCount(s1, "a") == Some(3) && LastCount(s1, "b") == Some(2);
    InsertAllGet([], stats, "a");
    InsertAllGet([], stats, "b");
  }

  /** The entries of a map, as the stats list `From<ProfiledEndpointsStats>` produces. */
  function Entries(m: seq<(string, int)>): (r: seq<ProfiledEndpointStats>)
    ensures |r| == |m| && forall i :: 0 <= i < |m| ==> r[i].name == m[i].0 && r[i].count == m[i].1
  {
    seq(|m|, i requires 0 <= i < |m| => ProfiledEndpointStats(m[i].0, m[i].1))
  }

  /** Inserting a name the map does not hold appends it. */
  lemma {:induction false} InsertAbsent(m: seq<(string, int)>, k: string, v: int)
    requires forall j :: 0 <= j < |m| ==> m[j].0 != k
    ensures Insert(m, k, v) == m + [(k, v)]
  {
    assert IndexOf(m, Fst, k).None?;
  }

  /** In a duplicate-free map, no key before position `n` is the key at `n`. */
  lemma {:induction false} PrefixKeysDiffer(c: seq<(string, int)>, n: nat)
    requires Distinct(c, Fst) && n < |c|
    ensures forall j :: 0 <= j < n ==> c[j].0 != c[n].0
  {
    forall j | 0 <= j < n
      ensures c[j].0 != c[n].0
    {
      DistinctAt(c, Fst, j, n);
    }
  }

  /** The entries of `b` without its first are the entries of `b[1..]`. */
  lemma {:induction false} EntriesTail(b: seq<(string, int)>)
    requires |b| > 0
    ensures Entries(b)[0] == ProfiledEndpointStats(b[0].0, b[0].1)
    ensures Entries(b)[1..] == Entries(b[1..])
  {
    assert Entries(b)[1..] == Entries(b[1..]);
  }

  /** One step of re-inserting entries: the entry at `n` is new to the prefix before it, so it is appended. */
  lemma {:induction false} InsertEntriesStep(c: seq<(string, int)>, n: nat)
    requires n < |c| && forall j :: 0 <= j < n ==> c[j].0 != c[n].0
    ensures InsertAll(c[..n], Entries(c[n..])) == InsertAll(c[..n + 1], Entries(c[n + 1..]))
  {
    var a, b := c[..n], c[n..];
    assert b[0] == c[n] && b[1..] == c[n + 1..];
    EntriesTail(b);
    assert forall j :: 0 <= j < |a| ==> a[j] == c[j];
    InsertAbsent(a, c[n].0, c[n].1);
    assert a + [(c[n].0, c[n].1)] == c[..n + 1];
  }

  /** Inserting no entries leaves the map as it is. */
  lemma {:induction false} InsertAllNone(c: seq<(string, int)>)
    ensures InsertAll(c[..|c|], Entries(c[|c|..])) == c
  {
    assert c[..|c|] == c && |Entries(c[|c|..])| == 0;
  }

  /** Re-inserting the entries of a duplicate-free map after a prefix of it rebuilds the whole map. */
  lemma {:induction false} InsertAllEntries(c: seq<(string, int)>, n: nat)
    requires Distinct(c, Fst) && n <= |c|
    ensures InsertAll(c[..n], Entries(c[n..])) == c
    decreases |c| - n
  {
    if n == |c| {
      InsertAllNone(c);
    } else {
      PrefixKeysDiffer(c, n);
      InsertEntriesStep(c, n);
      InsertAllEntries(c, n + 1);
    }
  }

  /** Converting counts to a list and back gives the same counts. */
  lemma {:induction false} EntriesRoundTrip(m: seq<(string, int)>)
    requires Distinct(m, Fst)
    ensures InsertAll([], Entries(m)) == m
  {
    InsertAllEntries(m, 0);
    assert m[..0] == [] && m[0..] == m;
  }

  class ProfiledEndpointsStats {
    var count: seq<(string, int)>

    ghost predicate Valid()
      reads this
    {
      Distinct(count, Fst)
    }

    /** `Default`: no endpoint seen yet. */
    constructor ()
      ensures Valid() && count == []
    {
      count := [];
    }

    /** `From<Vec<ProfiledEndpointStats>>`: each stat inserted in order, a later one overwriting an earlier count. */
    constructor FromList(stats: seq<ProfiledEndpointStats>)
      ensures Valid() && count == InsertAll([], stats)
      ensures Keys(count) == NewNames([], stats)
      ensures forall name :: Get(count, name) == LastCount(stats, name)
    {
      var m: seq<(string, int)> := [];
      var i := 0;
      while i < |stats|
        invariant 0 <= i <= |stats|
        invariant Distinct(m, Fst)
        invariant InsertAll(m, stats[i..]) == InsertAll([], stats)
      {
        assert stats[i..][1..] == stats[i + 1..];
        m := Insert(m, stats[i].name, stats[i].count);
        i := i + 1;
      }
      assert stats[|stats|..] == [];
      InsertAllKeys([], stats);
      assert Keys<string, int>([]) == [];
      forall name
        ensures Get(m, name) == LastCount(stats, name)
      {
        InsertAllGet([], stats, name);
      }
      count := m;
    }

    /** `add_endpoint`: one more sighting of `name`. */
    method AddEndpoint(name: string)
      requires Valid()
      modifies this
      ensures Valid()
      ensures count == Counted(old(count), name)
      ensures name !in Keys(old(count)) ==> count == old(count) + [(name, 1)]
      ensures forall i :: 0 <= i < |old(count)| && old(count)[i].0 == name ==> count == old(count)[i := (name, old(count)[i].1 + 1)]
    {
      match IndexOf(count, Fst, name) {
        case None =>
          DistinctAppend(count, Fst, (name, 1));
          count := count + [(name, 1)];
        case Some(index) =>
          forall i | 0 <= i < |count| && count[i].0 == name
            ensures i == index
          {
            DistinctAt(count, Fst, i, index);
          }
          DistinctUpdate(count, Fst, index, (name, count[index].1 + 1));
          count := count[index := (name, count[index].1 + 1)];
      }
    }

    /** `is_empty`: no endpoint has a count. */
    predicate IsEmpty()
      reads this
      ensures IsEmpty() <==> forall n :: Get(count, n).None?
    {
      if |count| == 0 then true
      else
        assert Get(count, count[0].0).Some?;
        false
    }

    /** `From<ProfiledEndpointsStats> for Vec`: one stat per endpoint, in first-seen order. */
    function ToList(): (r: seq<ProfiledEndpointStats>)
      reads this
      ensures |r| == |count| && forall i :: 0 <= i < |count| ==> r[i] == ProfiledEndpointStats(count[i].0, count[i].1)
    {
      Entries(count)
    }
  }
}
