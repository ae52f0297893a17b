/**
 * Merging the values of two equal samples. Both profilers add a new sample's
 * values into the stored ones with
 * `for (a, b) in existing_values.iter_mut().zip(values) { a.add_assign(b) }`
 * (profiling/src/profile/mod.rs and profiling/src/profile/v2/mod.rs):
 * position by position, as far as the shorter of the two reaches.
 */
module SampleValues {

  /** The stored values after the merge; entries past the end of `values` stay as they were. */
  function ZipAdd(existing: seq<int>, values: seq<int>): (r: seq<int>)
    ensures |r| == |existing|
    ensures forall i :: 0 <= i < |existing| ==> r[i] == existing[i] + (if i < |values| then values[i] else 0)
    decreases |existing|
  {
    if |existing| == 0 || |values| == 0 then existing
    else [existing[0] + values[0]] + ZipAdd(existing[1..], values[1..])
  }

  /** The in-place `add_assign` loop. */
  method AddAssignZip(existing: seq<int>, values: seq<int>) returns (r: seq<int>)
    ensures r == ZipAdd(existing, values)
  {
    r := existing;
    var i := 0;
    while i < |existing| && i < |values|
      invariant 0 <= i <= |existing| && i <= |values|
      invariant |r| == |existing|
      invariant forall j :: 0 <= j < i ==> r[j] == existing[j] + values[j]
      invariant forall j :: i <= j < |existing| ==> r[j] == existing[j]
    {
      r := r[i := r[i] + values[i]];
      i := i + 1;
    }
    assert forall j :: 0 <= j < |r| ==> r[j] == ZipAdd(existing, values)[j];
  }

  /** Merging values of the matching length adds them position by position, so sums are kept. */
  lemma {:induction false} ZipAddSum(existing: seq<int>, values: seq<int>)
    requires |existing| == |values|
    ensures Sum(ZipAdd(existing, values)) == Sum(existing) + Sum(values)
    decreases |existing|
  {
    if |existing| > 0 {
      ZipAddSum(existing[1..], values[1..]);
      assert ZipAdd(existing, values) == [existing[0] + values[0]] + ZipAdd(existing[1..], values[1..]);
    }
  }

  function Sum(s: seq<int>): int
    decreases |s|
  {
    if |s| == 0 then 0 else s[0] + Sum(s[1..])
  }
}
