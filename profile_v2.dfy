/**
 * The version-2 profile (profiling/src/profile/v2/mod.rs): samples keyed by
 * their locations and labels, endpoint bookkeeping, and the conversion into
 * a pprof `Profile`. The string table is shared with the caller (an
 * `Arc<LockedStringTable>` in the source; the lock is not modelled).
 * Times are nanoseconds: `SystemTime` as an `int` relative to the Unix epoch,
 * `Duration` as a `nat`.
 */
module ProfileV2 {
  import opened Wrappers
  import opened IndexSet
  import opened SampleValues
  import opened StringTables
  import opened ProfileStorages
  import Pprof

  /** A sample without its values; the key of the samples map. */
  datatype Sample = Sample(locationIds: seq<nat>, labels: seq<Pprof.Label>)

  datatype ProfileError =
    | NegativeStartTime(timeNanos: int)
    | NegativeDuration(durationNanos: int)
    | SampleValueCount(expected: nat, received: nat)

  /** What `serialize` hands back; the prost encoding of `profile` is not modelled. */
  datatype EncodedProfile = EncodedProfile(start: int, end: int, profile: Pprof.Profile)

  /**
   * The endpoint label a sample receives: only the FIRST label whose key is
   * the local-root-span-id label is looked at, and its value must have an
   * endpoint recorded. This is what `into_pprof` computes.
   */
  function TraceResource(labels: seq<Pprof.Label>, spanIdLabel: int, endpointLabel: int, mappings: map<int, int>): (r: Option<Pprof.Label>)
    ensures r.Some? <==>
      exists i :: 0 <= i < |labels| && labels[i].key == spanIdLabel && labels[i].str in mappings &&
        forall j :: 0 <= j < i ==> labels[j].key != spanIdLabel
    ensures r.Some? ==>
      exists i :: 0 <= i < |labels| && labels[i].key == spanIdLabel && labels[i].str in mappings &&
        r.value == Pprof.StrLabel(endpointLabel, mappings[labels[i].str]) &&
        forall j :: 0 <= j < i ==> labels[j].key != spanIdLabel
  {
    match IndexOf(labels, Pprof.LabelKey, spanIdLabel)
    case None => None
    case Some(i) =>
      if labels[i].str in mappings then Some(Pprof.StrLabel(endpointLabel, mappings[labels[i].str])) else None
  }

  /**
   * `find_trace_resource` as written: it selects the first label whose VALUE
   * equals the span-id label and then looks that value up, so the outcome
   * depends only on whether some label's string is the span-id label.
   */
  function TraceResourceByValue(labels: seq<Pprof.Label>, spanIdLabel: int, endpointLabel: int, mappings: map<int, int>): (r: Option<Pprof.Label>)
    ensures r.Some? <==> (exists i :: 0 <= i < |labels| && labels[i].str == spanIdLabel) && spanIdLabel in mappings
    ensures r.Some? ==> r.value == Pprof.StrLabel(endpointLabel, mappings[spanIdLabel])
  {
    match IndexOf(labels, Pprof.LabelStr, spanIdLabel)
    case None => None
    case Some(i) =>
      if labels[i].str in mappings then Some(Pprof.StrLabel(endpointLabel, mappings[labels[i].str])) else None
  }

  /**
   * A sample labelled "local root span id" = S, with an endpoint E recorded
   * for S: the label-key search finds E, the search in `find_trace_resource`
   * finds nothing.
   */
  lemma {:induction false} FindTraceResourceMissesKeyedLabel()
    ensures TraceResourceByValue([Pprof.StrLabel(1, 5)], 1, 2, map[5 := 7]) == None
    ensures TraceResource([Pprof.StrLabel(1, 5)], 1, 2, map[5 := 7]) == Some(Pprof.StrLabel(2, 7))
  {
    var labels := [Pprof.StrLabel(1, 5)];
    assert Pprof.LabelKey(labels[0]) == 1;
  }

  /** The labels a sample carries in the pprof output. */
  function ExportedLabels(labels: seq<Pprof.Label>, spanIdLabel: int, endpointLabel: int, mappings: map<int, int>): seq<Pprof.Label>
  {
    match TraceResource(labels, spanIdLabel, endpointLabel, mappings)
    case None => labels
    case Some(l) => labels + [l]
  }

  /** The export keeps a sample's labels and adds at most the endpoint label, never without a recorded endpoint. */
  lemma {:induction false} ExportedLabelsExtend(labels: seq<Pprof.Label>, spanIdLabel: int, endpointLabel: int, mappings: map<int, int>)
    ensures var out := ExportedLabels(labels, spanIdLabel, endpointLabel, mappings);
      labels <= out && |out| <= |labels| + 1 &&
      (|out| == |labels| + 1 ==> out[|labels|].key == endpointLabel && out[|labels|].str in mappings.Values) &&
      (mappings == map[] ==> out == labels)
  {
    var out := ExportedLabels(labels, spanIdLabel, endpointLabel, mappings);
    if |out| == |labels| + 1 {
      var i :| 0 <= i < |labels| && labels[i].key == spanIdLabel && labels[i].str in mappings &&
        out[|labels|] == Pprof.StrLabel(endpointLabel, mappings[labels[i].str]);
      assert mappings[labels[i].str] in mappings.Values;
    }
  }

  class Endpoints {
    /** Local root span id (string index) to endpoint (string index). */
    var mappings: map<int, int>
    const localRootSpanIdLabel: int
    const endpointLabel: int

    /** `Endpoints::new`: no endpoints yet. */
    constructor (localRootSpanIdLabel: int, endpointLabel: int)
      ensures mappings == map[]
      ensures this.localRootSpanIdLabel == localRootSpanIdLabel && this.endpointLabel == endpointLabel
    {
      this.localRootSpanIdLabel := localRootSpanIdLabel;
      this.endpointLabel := endpointLabel;
      mappings := map[];
    }

    /** `is_empty`: no span has an endpoint. */
    predicate IsEmpty()
      reads this
      ensures IsEmpty() <==> forall k :: k !in mappings
    {
      assert (forall k :: k !in mappings) ==> mappings.Keys == {};
      assert |mappings| == |mappings.Keys|;
      |mappings| == 0
    }

    /** `add`: record (or overwrite) the endpoint of a span. */
    method Add(spanId: int, endpoint: int)
      modifies this
      ensures mappings == old(mappings)[spanId := endpoint]
    {
      mappings := mappings[spanId := endpoint];
    }

    /** `find_trace_resource`, loop by loop as written. */
    method FindTraceResource(labels: seq<Pprof.Label>) returns (r: Option<Pprof.Label>)
      ensures r == TraceResourceByValue(labels, localRootSpanIdLabel, endpointLabel, mappings)
    {
      var i := 0;
      while i < |labels|
        invariant 0 <= i <= |labels|
        invariant forall j :: 0 <= j < i ==> Pprof.LabelStr(labels[j]) != localRootSpanIdLabel
      {
        if labels[i].str == localRootSpanIdLabel {
          if labels[i].str in mappings {
            return Some(Pprof.StrLabel(endpointLabel, mappings[labels[i].str]));
          }
          break;
        }
        i := i + 1;
      }
      return None;
    }

    /** `add_trace_resource_label`: append what `find_trace_resource` finds, if anything. */
    method AddTraceResourceLabel(sample: Pprof.Sample) returns (r: Pprof.Sample)
      ensures r.locationIds == sample.locationIds && r.values == sample.values
      ensures TraceResourceByValue(sample.labels, localRootSpanIdLabel, endpointLabel, mappings).None? ==> r == sample
      ensures TraceResourceByValue(sample.labels, localRootSpanIdLabel, endpointLabel, mappings).Some? ==>
        r.labels == sample.labels + [TraceResourceByValue(sample.labels, localRootSpanIdLabel, endpointLabel, mappings).value]
    {
      var found := FindTraceResource(sample.labels);
      r := sample;
      if found.Some? {
        r := sample.(labels := sample.labels + [found.value]);
      }
    }
  }

  /** Where `serialize` puts the end of the profile: never before its start. */
  function ClampedEnd(start: int, endTime: int): (end: int)
    ensures end >= start && (end == start || end == endTime)
    ensures endTime >= start ==> end == endTime
  {
    if endTime < start then start else endTime
  }

  /**
   * The duration `serialize` stores, as written: an explicit duration wins
   * (saturated to `i64::MAX`); a stored duration of 0 is replaced by
   * `end_time - start`, whose `unwrap` panics (`None`) when the clock reads
   * before the start.
   */
  function SerializedDurationAsWritten(start: nat, durationNanos: nat, endTime: int, duration: Option<nat>): (r: Option<nat>)
    ensures r.None? <==> duration.None? && durationNanos == 0 && endTime < start
  {
    match duration
    case Some(d) => Some(SaturateI64(d))
    case None =>
      if durationNanos != 0 then Some(durationNanos)
      else if endTime < start then None
      else Some(SaturateI64(endTime - start))
  }

  /** The duration `serialize` evidently means to store: measured up to the clamped end. */
  function SerializedDuration(start: nat, durationNanos: nat, endTime: int, duration: Option<nat>): (r: nat)
    ensures duration.Some? ==> r <= I64_MAX && (r == duration.value <==> duration.value <= I64_MAX)
    ensures duration.None? && durationNanos != 0 ==> r == durationNanos
    ensures duration.None? && durationNanos == 0 ==>
      r <= I64_MAX && (endTime <= start ==> r == 0) && (start <= endTime <= start + I64_MAX ==> r == endTime - start)
  {
    match duration
    case Some(d) => SaturateI64(d)
    case None =>
      if durationNanos != 0 then durationNanos
      else SaturateI64(ClampedEnd(start, endTime) - start)
  }

  /** Wherever the code as written does not panic, it stores the intended duration. */
  lemma {:induction false} SerializedDurationAgrees(start: nat, durationNanos: nat, endTime: int, duration: Option<nat>)
    requires SerializedDurationAsWritten(start, durationNanos, endTime, duration).Some?
    ensures SerializedDurationAsWritten(start, durationNanos, endTime, duration).value == SerializedDuration(start, durationNanos, endTime, duration)
  {
  }

  /** A profile started at 10 with no duration, serialized with the clock at 5: the code as written panics. */
  lemma {:induction false} SerializePanicsBeforeStart()
    ensures SerializedDurationAsWritten(10, 0, 5, None) == None
    ensures SerializedDuration(10, 0, 5, None) == 0
  {
  }

  class Profile {
    const stringTable: StringTable
    const sampleTypes: seq<Pprof.ValueType>
    var samples: seq<(Sample, seq<int>)>
    const timeNanos: int
    var durationNanos: int
    const periodType: Option<Pprof.ValueType>
    const period: int
    const endpoints: Endpoints

    /** The samples map has distinct keys and both times are non-negative, as `new` checks. */
    ghost predicate Valid()
      reads this, stringTable
    {
      stringTable.Valid() && Distinct(samples, Fst) && timeNanos >= 0 && durationNanos >= 0
    }

    constructor Init(stringTable: StringTable, sampleTypes: seq<Pprof.ValueType>, samples: seq<(Sample, seq<int>)>,
                     timeNanos: int, durationNanos: int, periodType: Option<Pprof.ValueType>, period: int, endpoints: Endpoints)
      ensures this.stringTable == stringTable && this.sampleTypes == sampleTypes && this.samples == samples
      ensures this.timeNanos == timeNanos && this.durationNanos == durationNanos
      ensures this.periodType == periodType && this.period == period && this.endpoints == endpoints
    {
      this.stringTable := stringTable;
      this.sampleTypes := sampleTypes;
      this.samples := samples;
      this.timeNanos := timeNanos;
      this.durationNanos := durationNanos;
      this.periodType := periodType;
      this.period := period;
      this.endpoints := endpoints;
    }

    /**
     * `Profile::new`: rejects a negative start time, then a negative
     * duration; otherwise interns the two endpoint label names into the
     * shared table and starts with no endpoints.
     */
    static method New(stringTable: StringTable, sampleTypes: seq<Pprof.ValueType>, samples: seq<(Sample, seq<int>)>,
                      timeNanos: int, durationNanos: int, period: Option<(Pprof.ValueType, int)>)
      returns (r: Result<Profile, ProfileError>)
      requires stringTable.Valid() && Distinct(samples, Fst)
      modifies stringTable
      ensures stringTable.Valid() && old(stringTable.items) <= stringTable.items
      ensures timeNanos < 0 ==> r == Err(NegativeStartTime(timeNanos))
      ensures timeNanos >= 0 && durationNanos < 0 ==> r == Err(NegativeDuration(durationNanos))
      ensures r.Err? ==> stringTable.items == old(stringTable.items)
      ensures timeNanos >= 0 && durationNanos >= 0 ==> r.Ok?
      ensures r.Ok? ==>
        (stringTable.items, r.value.endpoints.endpointLabel) ==
        InsertFull(InsertFull(old(stringTable.items), Id, "local root span id").0, Id, "trace endpoint")
      ensures r.Ok? ==> r.value.endpoints.localRootSpanIdLabel == InsertFull(old(stringTable.items), Id, "local root span id").1
      ensures r.Ok? ==>
        && fresh(r.value) && fresh(r.value.endpoints) && r.value.Valid()
        && r.value.stringTable == stringTable && r.value.sampleTypes == sampleTypes && r.value.samples == samples
        && r.value.timeNanos == timeNanos && r.value.durationNanos == durationNanos
        && r.value.periodType == (if period.Some? then Some(period.value.0) else None)
        && r.value.period == (if period.Some? then period.value.1 else 0)
        && r.value.endpoints.mappings == map[]
        && 0 <= r.value.endpoints.localRootSpanIdLabel < |stringTable.items|
        && stringTable.items[r.value.endpoints.localRootSpanIdLabel] == "local root span id"
        && 0 <= r.value.endpoints.endpointLabel < |stringTable.items|
        && stringTable.items[r.value.endpoints.endpointLabel] == "trace endpoint"
    {
      if timeNanos < 0 {
        return Err(NegativeStartTime(timeNanos));
      } else if durationNanos < 0 {
        return Err(NegativeDuration(durationNanos));
      }
      var periodType, periodValue := None, 0;
      if period.Some? {
        periodType, periodValue := Some(period.value.0), period.value.1;
      }
      var localRootSpanIdLabel := stringTable.Intern("local root span id");
      var endpointLabel := stringTable.Intern("trace endpoint");
      var endpoints := new Endpoints(localRootSpanIdLabel, endpointLabel);
      var profile := new Profile.Init(stringTable, sampleTypes, samples, timeNanos, durationNanos, periodType, periodValue, endpoints);
      return Ok(profile);
    }

    /**
     * `add_sample`: values of the wrong length are an error and change
     * nothing; a new sample is appended with its values; a sample already
     * present has the values added into its own.
     */
    method AddSample(sample: Sample, values: seq<int>) returns (r: Result<(), ProfileError>)
      requires Valid()
      modifies this`samples
      ensures Valid()
      ensures |values| != |sampleTypes| ==> r == Err(SampleValueCount(|sampleTypes|, |values|)) && samples == old(samples)
      ensures |values| == |sampleTypes| ==> r == Ok(())
      ensures |values| == |sampleTypes| && sample !in Keys(old(samples)) ==> samples == old(samples) + [(sample, values)]
      ensures |values| == |sampleTypes| ==>
        forall i :: 0 <= i < |old(samples)| && old(samples)[i].0 == sample ==>
          samples == old(samples)[i := (sample, ZipAdd(old(samples)[i].1, values))]
    {
      if |sampleTypes| != |values| {
        return Err(SampleValueCount(|sampleTypes|, |values|));
      }
      match IndexOf(samples, Fst, sample) {
        case None =>
          DistinctAppend(samples, Fst, (sample, values));
          samples := samples + [(sample, values)];
        case Some(index) =>
          var merged := AddAssignZip(samples[index].1, values);
          DistinctUpdate(samples, Fst, index, (sample, merged));
          forall i | 0 <= i < |samples| && samples[i].0 == sample
            ensures i == index
          {
            DistinctAt(samples, Fst, i, index);
          }
          samples := samples[index := (sample, merged)];
      }
      r := Ok(());
    }

    /** `add_endpoint`: record (or overwrite) the endpoint of a local root span. */
    method AddEndpoint(localRootSpanId: int, endpoint: int)
      modifies endpoints
      ensures endpoints.mappings == old(endpoints.mappings)[localRootSpanId := endpoint]
    {
      endpoints.Add(localRootSpanId, endpoint);
    }

    /**
     * What `into_pprof` produces: the storage's tables and the string table
     * as they are, the samples in insertion order with their endpoint label
     * added where one is recorded, and the profile's own times and period.
     */
    ghost predicate Exports(p: Pprof.Profile, storage: ProfileStorage)
      reads this, stringTable, endpoints, storage
    {
      && p.sampleTypes == sampleTypes
      && p.mappings == storage.mappings && p.locations == storage.locations && p.functions == storage.functions
      && p.stringTable == stringTable.items
      && p.dropFrames == 0 && p.keepFrames == 0 && p.comment == [] && p.defaultSampleType == 0
      && p.timeNanos == timeNanos && p.durationNanos == durationNanos
      && p.periodType == periodType && p.period == period
      && |p.samples| == |samples|
      && forall i :: 0 <= i < |samples| ==>
           p.samples[i] == Pprof.Sample(samples[i].0.locationIds, samples[i].1,
             ExportedLabels(samples[i].0.labels, endpoints.localRootSpanIdLabel, endpoints.endpointLabel, endpoints.mappings))
    }

    /** `into_pprof`: the conversion, sample by sample and label by label. */
    method IntoPprof(storage: ProfileStorage) returns (p: Pprof.Profile)
      requires Valid() && storage.Valid()
      ensures Exports(p, storage)
    {
      var functions := storage.Functions();
      var locations := storage.Locations();
      var mappings := storage.Mappings();
      var strings := stringTable.Strings();
      var spanIdLabel, endpointLabel := endpoints.localRootSpanIdLabel, endpoints.endpointLabel;
      var out: seq<Pprof.Sample> := [];
      var i := 0;
      while i < |samples|
        invariant 0 <= i <= |samples| && |out| == i
        invariant forall k :: 0 <= k < i ==>
          out[k] == Pprof.Sample(samples[k].0.locationIds, samples[k].1,
            ExportedLabels(samples[k].0.labels, spanIdLabel, endpointLabel, endpoints.mappings))
      {
        var (sample, values) := samples[i];
        var labels := sample.labels;
        if !endpoints.IsEmpty() {
          var k := 0;
          while k < |sample.labels|
            invariant 0 <= k <= |sample.labels| && labels == sample.labels
            invariant forall j :: 0 <= j < k ==> Pprof.LabelKey(sample.labels[j]) != spanIdLabel
          {
            var l := sample.labels[k];
            if l.key == spanIdLabel {
              if l.str in endpoints.mappings {
                labels := labels + [Pprof.StrLabel(endpointLabel, endpoints.mappings[l.str])];
              }
              break;
            }
            k := k + 1;
          }
        }
        assert labels == ExportedLabels(sample.labels, spanIdLabel, endpointLabel, endpoints.mappings);
        out := out + [Pprof.Sample(sample.locationIds, values, labels)];
        i := i + 1;
      }
      p := Pprof.Profile(sampleTypes, out, mappings, locations, functions, strings, 0, 0,
                         timeNanos, durationNanos, periodType, period, [], 0);
    }

    /**
     * `serialize`: the start is the profile's own start time, the end is
     * the given end time but never earlier than the start, and the stored
     * duration is fixed as `SerializedDuration` says before the conversion.
     */
    method Serialize(storage: ProfileStorage, endTime: int, duration: Option<nat>) returns (e: EncodedProfile)
      requires Valid() && storage.Valid()
      modifies this`durationNanos
      ensures Valid()
      ensures durationNanos == SerializedDuration(timeNanos, old(durationNanos), endTime, duration)
      ensures e.start == timeNanos && e.end == ClampedEnd(timeNanos, endTime)
      ensures Exports(e.profile, storage)
    {
      var start := timeNanos;
      var end := if endTime < start then start else endTime;
      if duration.Some? {
        durationNanos := SaturateI64(duration.value);
      } else if durationNanos == 0 {
        durationNanos := SaturateI64(end - start);
      }
      var pprof := IntoPprof(storage);
      e := EncodedProfile(start, end, pprof);
    }
  }
}
