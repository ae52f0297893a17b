/**
 * Collections of tracer payloads (trace-utils/src/tracer_payload.rs): either
 * v0.7 payloads, each carrying trace chunks, or v0.4 traces, each a list of
 * spans. The comparator `cmp_send_data_payloads` that `merge` uses is not
 * part of this model; it becomes a parameter that orders payloads by their
 * header (everything but the chunks) and is a total preorder.
 */
module TracerPayloads {

  datatype Span = Span(
    service: string,
    name: string,
    resource: string,
    traceId: nat,
    spanId: nat,
    parentId: nat,
    start: int,
    duration: int,
    error: int)

  datatype TraceChunk = TraceChunk(priority: int, origin: string, spans: seq<Span>, droppedTrace: bool)

  datatype TracerPayload = TracerPayload(
    containerId: string,
    languageName: string,
    languageVersion: string,
    tracerVersion: string,
    runtimeId: string,
    chunks: seq<TraceChunk>,
    env: string,
    hostname: string,
    appVersion: string)

  /** A payload without its chunks: what payloads are ordered and merged by. */
  datatype PayloadHeader = PayloadHeader(
    containerId: string,
    languageName: string,
    languageVersion: string,
    tracerVersion: string,
    runtimeId: string,
    env: string,
    hostname: string,
    appVersion: string)

  function Header(p: TracerPayload): PayloadHeader {
    PayloadHeader(p.containerId, p.languageName, p.languageVersion, p.tracerVersion, p.runtimeId, p.env, p.hostname, p.appVersion)
  }

  datatype Ordering = Less | Equal | Greater

  function Flip(o: Ordering): Ordering {
    match o
    case Less => Greater
    case Equal => Equal
    case Greater => Less
  }

  /** Swapping the arguments flips the answer, and "not greater" is transitive. */
  ghost predicate TotalPreorder(cmp: (PayloadHeader, PayloadHeader) -> Ordering) {
    && (forall a, b :: cmp(b, a) == Flip(cmp(a, b)))
    && (forall a, b, c :: cmp(a, b) != Greater && cmp(b, c) != Greater ==> cmp(a, c) != Greater)
  }

  function Cmp(cmp: (PayloadHeader, PayloadHeader) -> Ordering, a: TracerPayload, b: TracerPayload): Ordering {
    cmp(Header(a), Header(b))
  }

  datatype Collection =
    | V07(payloads: seq<TracerPayload>)
    | V04(traces: seq<seq<Span>>)

  /** The number of chunks over all payloads. */
  function ChunkCount(s: seq<TracerPayload>): nat
    decreases |s|
  {
    if |s| == 0 then 0 else |s[0].chunks| + ChunkCount(s[1..])
  }

  lemma {:induction false} ChunkCountAppend(a: seq<TracerPayload>, b: seq<TracerPayload>)
    ensures ChunkCount(a + b) == ChunkCount(a) + ChunkCount(b)
    decreases |a|
  {
    if |a| == 0 {
      assert a + b == b;
    } else {
      assert (a + b)[0] == a[0] && (a + b)[1..] == a[1..] + b;
      ChunkCountAppend(a[1..], b);
    }
  }

  /** `size`: the number of chunks of a v0.7 collection, the number of traces of a v0.4 one. */
  function SizeOf(c: Collection): nat {
    match c
    case V07(payloads) => ChunkCount(payloads)
    case V04(traces) => |traces|
  }

  /**
   * `append`: `dest` and `src` after moving the elements of `src` to the end
   * of `dest`; collections of different versions are both left alone.
   */
  function Appended(dest: Collection, src: Collection): (r: (Collection, Collection))
    ensures dest.V07? && src.V07? ==> r == (V07(dest.payloads + src.payloads), V07([]))
    ensures dest.V04? && src.V04? ==> r == (V04(dest.traces + src.traces), V04([]))
    ensures dest.V07? != src.V07? ==> r == (dest, src)
  {
    match (dest, src)
    case (V07(d), V07(s)) => (V07(d + s), V07([]))
    case (V04(d), V04(s)) => (V04(d + s), V04([]))
    case _ => (dest, src)
  }

  /** Appending moves size from `src` to `dest`: the total is kept, and on matching versions all of it lands in `dest`. */
  lemma {:induction false} AppendedSize(dest: Collection, src: Collection)
    ensures SizeOf(Appended(dest, src).0) + SizeOf(Appended(dest, src).1) == SizeOf(dest) + SizeOf(src)
    ensures dest.V07? == src.V07? ==> SizeOf(Appended(dest, src).0) == SizeOf(dest) + SizeOf(src)
  {
    if dest.V07? && src.V07? {
      ChunkCountAppend(dest.payloads, src.payloads);
    }
  }

  /** Appending an empty collection of the same version changes nothing. */
  lemma {:induction false} AppendEmpty(dest: Collection)
    ensures dest.V07? ==> Appended(dest, V07([])) == (dest, V07([]))
    ensures dest.V04? ==> Appended(dest, V04([])) == (dest, V04([]))
  {
    if dest.V07? {
      assert dest.payloads + [] == dest.payloads;
    } else {
      assert dest.traces + [] == dest.traces;
    }
  }

  /** Every adjacent pair is in order. */
  ghost predicate SortedBy(s: seq<TracerPayload>, cmp: (PayloadHeader, PayloadHeader) -> Ordering) {
    forall i :: 0 <= i < |s| - 1 ==> Cmp(cmp, s[i], s[i + 1]) != Greater
  }

  function InsertSorted(x: TracerPayload, s: seq<TracerPayload>, cmp: (PayloadHeader, PayloadHeader) -> Ordering): (r: seq<TracerPayload>)
    ensures |r| == |s| + 1 && multiset(r) == multiset(s) + multiset{x}
    ensures r[0] == x || (|s| > 0 && r[0] == s[0])
    ensures ChunkCount(r) == |x.chunks| + ChunkCount(s)
    decreases |s|
  {
    if |s| == 0 then [x]
    else if Cmp(cmp, x, s[0]) != Greater then [x] + s
    else
      var t := InsertSorted(x, s[1..], cmp);
      assert s == [s[0]] + s[1..];
      [s[0]] + t
  }

  lemma {:induction false} InsertSortedSorted(x: TracerPayload, s: seq<TracerPayload>, cmp: (PayloadHeader, PayloadHeader) -> Ordering)
    requires TotalPreorder(cmp) && SortedBy(s, cmp)
    ensures SortedBy(InsertSorted(x, s, cmp), cmp)
    decreases |s|
  {
    if |s| > 0 && Cmp(cmp, x, s[0]) == Greater {
      InsertSortedSorted(x, s[1..], cmp);
      assert Cmp(cmp, s[0], x) == Less;
    }
  }

  /** The sort `sort_unstable_by` performs; any order of payloads comparing Equal would do, this one keeps input order. */
  function SortBy(s: seq<TracerPayload>, cmp: (PayloadHeader, PayloadHeader) -> Ordering): (r: seq<TracerPayload>)
    ensures multiset(r) == multiset(s) && ChunkCount(r) == ChunkCount(s)
    decreases |s|
  {
    if |s| == 0 then []
    else
      assert s == [s[0]] + s[1..];
      InsertSorted(s[0], SortBy(s[1..], cmp), cmp)
  }

  lemma {:induction false} SortBySorted(s: seq<TracerPayload>, cmp: (PayloadHeader, PayloadHeader) -> Ordering)
    requires TotalPreorder(cmp)
    ensures SortedBy(SortBy(s, cmp), cmp)
    decreases |s|
  {
    if |s| > 0 {
      SortBySorted(s[1..], cmp);
      InsertSortedSorted(s[0], SortBy(s[1..], cmp), cmp);
    }
  }

  /**
   * The `dedup_by` pass over the sorted payloads, continued from the kept
   * payloads `acc`: a payload comparing Equal to the last kept one is
   * dropped after its chunks are appended to the kept one's.
   */
  function DedupFrom(acc: seq<TracerPayload>, rest: seq<TracerPayload>, cmp: (PayloadHeader, PayloadHeader) -> Ordering): seq<TracerPayload>
    decreases |rest|
  {
    if |rest| == 0 then acc
    else if |acc| > 0 && Cmp(cmp, rest[0], acc[|acc| - 1]) == Equal then
      var kept := acc[|acc| - 1];
      DedupFrom(acc[..|acc| - 1] + [kept.(chunks := kept.chunks + rest[0].chunks)], rest[1..], cmp)
    else
      DedupFrom(acc + [rest[0]], rest[1..], cmp)
  }

  /** `merge` on v0.7 payloads. */
  function Merged(s: seq<TracerPayload>, cmp: (PayloadHeader, PayloadHeader) -> Ordering): seq<TracerPayload> {
    DedupFrom([], SortBy(s, cmp), cmp)
  }

  lemma {:induction false} DedupFromChunks(acc: seq<TracerPayload>, rest: seq<TracerPayload>, cmp: (PayloadHeader, PayloadHeader) -> Ordering)
    ensures ChunkCount(DedupFrom(acc, rest, cmp)) == ChunkCount(acc) + ChunkCount(rest)
    decreases |rest|
  {
    if |rest| > 0 {
      if |acc| > 0 && Cmp(cmp, rest[0], acc[|acc| - 1]) == Equal {
        var kept := acc[|acc| - 1];
        var acc' := acc[..|acc| - 1] + [kept.(chunks := kept.chunks + rest[0].chunks)];
        DedupFromChunks(acc', rest[1..], cmp);
        assert acc == acc[..|acc| - 1] + [kept];
        ChunkCountAppend(acc[..|acc| - 1], [kept]);
        ChunkCountAppend(acc[..|acc| - 1], [kept.(chunks := kept.chunks + rest[0].chunks)]);
      } else {
        DedupFromChunks(acc + [rest[0]], rest[1..], cmp);
        ChunkCountAppend(acc, [rest[0]]);
      }
    }
  }

  /** All chunks of the payloads, payload by payload. */
  function AllChunks(s: seq<TracerPayload>): seq<TraceChunk>
    decreases |s|
  {
    if |s| == 0 then [] else s[0].chunks + AllChunks(s[1..])
  }

  lemma {:induction false} AllChunksAppend(a: seq<TracerPayload>, b: seq<TracerPayload>)
    ensures AllChunks(a + b) == AllChunks(a) + AllChunks(b)
    decreases |a|
  {
    if |a| == 0 {
      assert a + b == b;
    } else {
      assert (a + b)[0] == a[0] && (a + b)[1..] == a[1..] + b;
      AllChunksAppend(a[1..], b);
    }
  }

  /** The chunks of the sorted payloads are those of the input, in some order. */
  lemma {:induction false} InsertSortedAllChunks(x: TracerPayload, s: seq<TracerPayload>, cmp: (PayloadHeader, PayloadHeader) -> Ordering)
    ensures multiset(AllChunks(InsertSorted(x, s, cmp))) == multiset(x.chunks) + multiset(AllChunks(s))
    decreases |s|
  {
    if |s| == 0 {
      assert AllChunks([x]) == x.chunks + AllChunks([x][1..]);
    } else if Cmp(cmp, x, s[0]) != Greater {
      assert ([x] + s)[1..] == s;
    } else {
      var t := InsertSorted(x, s[1..], cmp);
      InsertSortedAllChunks(x, s[1..], cmp);
      assert ([s[0]] + t)[1..] == t;
    }
  }

  lemma {:induction false} SortByAllChunks(s: seq<TracerPayload>, cmp: (PayloadHeader, PayloadHeader) -> Ordering)
    ensures multiset(AllChunks(SortBy(s, cmp))) == multiset(AllChunks(s))
    decreases |s|
  {
    if |s| > 0 {
      SortByAllChunks(s[1..], cmp);
      InsertSortedAllChunks(s[0], SortBy(s[1..], cmp), cmp);
    }
  }

  lemma {:induction false} AllChunksSingle(p: TracerPayload)
    ensures AllChunks([p]) == p.chunks
  {
    assert AllChunks([p]) == p.chunks + AllChunks([p][1..]);
    assert p.chunks + [] == p.chunks;
  }

  /** Appending chunks to the last payload appends them to all chunks. */
  lemma {:induction false} FoldChunks(prefix: seq<TracerPayload>, kept: TracerPayload, more: seq<TraceChunk>)
    ensures AllChunks(prefix + [kept.(chunks := kept.chunks + more)]) == AllChunks(prefix + [kept]) + more
  {
    var merged := kept.(chunks := kept.chunks + more);
    AllChunksAppend(prefix, [kept]);
    AllChunksAppend(prefix, [merged]);
    AllChunksSingle(kept);
    AllChunksSingle(merged);
  }

  /** Folding equal neighbours keeps every chunk, in the same order: a dropped payload's chunks follow the kept one's. */
  lemma {:induction false} DedupFromAllChunks(acc: seq<TracerPayload>, rest: seq<TracerPayload>, cmp: (PayloadHeader, PayloadHeader) -> Ordering)
    ensures AllChunks(DedupFrom(acc, rest, cmp)) == AllChunks(acc) + AllChunks(rest)
    decreases |rest|
  {
    if |rest| == 0 {
      assert AllChunks(acc) + [] == AllChunks(acc);
    } else if |acc| > 0 && Cmp(cmp, rest[0], acc[|acc| - 1]) == Equal {
      var kept := acc[|acc| - 1];
      var prefix := acc[..|acc| - 1];
      var acc' := prefix + [kept.(chunks := kept.chunks + rest[0].chunks)];
      assert DedupFrom(acc, rest, cmp) == DedupFrom(acc', rest[1..], cmp);
      DedupFromAllChunks(acc', rest[1..], cmp);
      FoldChunks(prefix, kept, rest[0].chunks);
      assert prefix + [kept] == acc;
      assert AllChunks(rest) == rest[0].chunks + AllChunks(rest[1..]);
    } else {
      assert DedupFrom(acc, rest, cmp) == DedupFrom(acc + [rest[0]], rest[1..], cmp);
      DedupFromAllChunks(acc + [rest[0]], rest[1..], cmp);
      AllChunksAppend(acc, [rest[0]]);
      AllChunksSingle(rest[0]);
      assert AllChunks(rest) == rest[0].chunks + AllChunks(rest[1..]);
    }
  }

  /** `merge` keeps the chunks of the payloads it folds away: the chunks after are those before, in some order. */
  lemma {:induction false} MergedAllChunks(s: seq<TracerPayload>, cmp: (PayloadHeader, PayloadHeader) -> Ordering)
    ensures multiset(AllChunks(Merged(s, cmp))) == multiset(AllChunks(s))
  {
    DedupFromAllChunks([], SortBy(s, cmp), cmp);
    assert AllChunks([]) + AllChunks(SortBy(s, cmp)) == AllChunks(SortBy(s, cmp));
    SortByAllChunks(s, cmp);
  }

  /** Every adjacent pair is strictly in order, so no two neighbours compare Equal. */
  ghost predicate StrictlySortedBy(s: seq<TracerPayload>, cmp: (PayloadHeader, PayloadHeader) -> Ordering) {
    forall i :: 0 <= i < |s| - 1 ==> Cmp(cmp, s[i], s[i + 1]) == Less
  }

  lemma {:induction false} DedupFromStrict(acc: seq<TracerPayload>, rest: seq<TracerPayload>, cmp: (PayloadHeader, PayloadHeader) -> Ordering)
    requires TotalPreorder(cmp) && StrictlySortedBy(acc, cmp) && SortedBy(rest, cmp)
    requires |acc| > 0 && |rest| > 0 ==> Cmp(cmp, acc[|acc| - 1], rest[0]) != Greater
    ensures StrictlySortedBy(DedupFrom(acc, rest, cmp), cmp)
    decreases |rest|
  {
    if |rest| > 0 {
      if |acc| > 0 && Cmp(cmp, rest[0], acc[|acc| - 1]) == Equal {
        var kept := acc[|acc| - 1];
        var acc' := acc[..|acc| - 1] + [kept.(chunks := kept.chunks + rest[0].chunks)];
        assert Header(acc'[|acc'| - 1]) == Header(kept);
        assert forall i :: 0 <= i < |acc'| ==> Header(acc'[i]) == Header(acc[i]);
        if |rest| > 1 {
          assert Cmp(cmp, rest[0], rest[1]) != Greater;
          assert Cmp(cmp, kept, rest[0]) == Equal;
        }
        DedupFromStrict(acc', rest[1..], cmp);
      } else {
        var acc' := acc + [rest[0]];
        if |acc| > 0 {
          assert Cmp(cmp, acc[|acc| - 1], rest[0]) == Less;
        }
        DedupFromStrict(acc', rest[1..], cmp);
      }
    }
  }

  /** `merge` keeps every chunk, and leaves the payloads strictly ordered: no two neighbours compare Equal. */
  lemma {:induction false} MergedProperties(s: seq<TracerPayload>, cmp: (PayloadHeader, PayloadHeader) -> Ordering)
    requires TotalPreorder(cmp)
    ensures ChunkCount(Merged(s, cmp)) == ChunkCount(s)
    ensures StrictlySortedBy(Merged(s, cmp), cmp)
    ensures forall i :: 0 <= i < |Merged(s, cmp)| - 1 ==> Cmp(cmp, Merged(s, cmp)[i], Merged(s, cmp)[i + 1]) != Equal
  {
    DedupFromChunks([], SortBy(s, cmp), cmp);
    SortBySorted(s, cmp);
    DedupFromStrict([], SortBy(s, cmp), cmp);
  }

  /** Two copies of one payload merge into one payload carrying both copies' chunks. */
  lemma {:induction false} MergeTwoEqual(p: TracerPayload, cmp: (PayloadHeader, PayloadHeader) -> Ordering)
    requires TotalPreorder(cmp)
    ensures Merged([p, p], cmp) == [p.(chunks := p.chunks + p.chunks)]
  {
    assert cmp(Header(p), Header(p)) == Flip(cmp(Header(p), Header(p)));
    assert [p][1..] == [] && [p, p][1..] == [p];
    assert SortBy([p], cmp) == InsertSorted(p, [], cmp) == [p];
    assert SortBy([p, p], cmp) == InsertSorted(p, [p], cmp) == [p, p];
    var merged := p.(chunks := p.chunks + p.chunks);
    assert DedupFrom([], [p, p], cmp) == DedupFrom([p], [p], cmp);
    assert [p][..0] + [merged] == [merged];
    assert DedupFrom([p], [p], cmp) == DedupFrom([merged], [], cmp);
  }

  class TracerPayloadCollection {
    var collection: Collection

    constructor (collection: Collection)
      ensures this.collection == collection
    {
      this.collection := collection;
    }

    /** `append`: move the elements of `other` to the end of this collection when both have the same version. */
    method Append(other: TracerPayloadCollection)
      requires other != this
      modifies this, other
      ensures (collection, other.collection) == Appended(old(collection), old(other.collection))
    {
      match collection {
        case V07(dest) =>
          if other.collection.V07? {
            collection := V07(dest + other.collection.payloads);
            other.collection := V07([]);
          }
        case V04(dest) =>
          if other.collection.V04? {
            collection := V04(dest + other.collection.traces);
            other.collection := V04([]);
          }
      }
    }

    /** `merge`: sort v0.7 payloads, then fold each run of Equal payloads into its first one; v0.4 traces stay as they are. */
    method Merge(cmp: (PayloadHeader, PayloadHeader) -> Ordering)
      modifies this
      ensures old(collection).V04? ==> collection == old(collection)
      ensures old(collection).V07? ==> collection == V07(Merged(old(collection).payloads, cmp))
    {
      if collection.V07? {
        var sorted := SortBy(collection.payloads, cmp);
        var kept: seq<TracerPayload> := [];
        var i := 0;
        while i < |sorted|
          invariant 0 <= i <= |sorted|
          invariant DedupFrom(kept, sorted[i..], cmp) == DedupFrom([], sorted, cmp)
        {
          assert sorted[i..][1..] == sorted[i + 1..];
          if |kept| > 0 && Cmp(cmp, sorted[i], kept[|kept| - 1]) == Equal {
            var last := kept[|kept| - 1];
            kept := kept[..|kept| - 1] + [last.(chunks := last.chunks + sorted[i].chunks)];
          } else {
            kept := kept + [sorted[i]];
          }
          i := i + 1;
        }
        collection := V07(kept);
      }
    }

    /** `size`. */
    function Size(): (n: nat)
      reads this
      ensures collection.V07? ==> n == ChunkCount(collection.payloads)
      ensures collection.V04? ==> n == |collection.traces|
    {
      SizeOf(collection)
    }
  }
}
