/**
 * The version-1 profile aggregator (profiling/src/profile/mod.rs). Samples
 * arrive in API form — strings and nested records — and are interned into
 * five insertion-ordered tables: strings, mappings, functions, locations and
 * samples. Ids handed out are position + 1 except for strings, which start at
 * 0 with the empty string.
 *
 * The pprof records of profile/pprof.rs and the API records of profile/api.rs
 * are not part of this model; the records below carry the fields mod.rs uses,
 * and the pprof ones reuse the version-2 shapes. `SystemTime` is an `int`
 * count of nanoseconds since the Unix epoch, `Duration` a `nat`.
 */
module ProfileV1 {
  import opened Wrappers
  import opened IndexSet
  import opened SampleValues
  import opened ProfiledEndpoints
  import Pprof

  /** Ids are index + 1 and kept within 32 bits, so tables stop growing at `u32::MAX - 1`. */
  const CONTAINER_MAX: nat := 0xffff_fffe

  datatype ApiValueType = ApiValueType(typ: string, unit: string)
  datatype ApiPeriod = ApiPeriod(typ: ApiValueType, value: int)
  datatype ApiMapping = ApiMapping(memoryStart: nat, memoryLimit: nat, fileOffset: nat, filename: string, buildId: string)
  datatype ApiFunction = ApiFunction(name: string, systemName: string, filename: string, startLine: int)
  datatype ApiLine = ApiLine(func: ApiFunction, line: int)
  datatype ApiLocation = ApiLocation(mapping: ApiMapping, address: nat, lines: seq<ApiLine>, isFolded: bool)
  datatype ApiLabel = ApiLabel(key: string, str: Option<string>, num: int, numUnit: Option<string>)
  datatype ApiSample = ApiSample(locations: seq<ApiLocation>, values: seq<int>, labels: seq<ApiLabel>)

  /** A mapping as stored: string fields are string-table ids; there is no id field. */
  datatype Mapping = Mapping(memoryStart: nat, memoryLimit: nat, fileOffset: nat, filename: int, buildId: int)

  /** A sample without its values: location ids and interned labels. */
  datatype Sample = Sample(locations: seq<nat>, labels: seq<Pprof.Label>)

  datatype FullError = FullError

  datatype EncodedProfile = EncodedProfile(start: int, end: int, profile: Pprof.Profile, endpointsStats: seq<(string, int)>)

  /** The four interning tables a sample's parts go into. */
  datatype Tables = Tables(strings: seq<string>, mappings: seq<Mapping>, functions: seq<Pprof.Function>, locations: seq<Pprof.Location>)

  /** Tables only ever grow by appending. */
  ghost predicate Extends(a: Tables, b: Tables) {
    a.strings <= b.strings && a.mappings <= b.mappings && a.functions <= b.functions && a.locations <= b.locations
  }

  /** The empty string is id 0 and no table holds a duplicate. */
  ghost predicate TablesValid(t: Tables) {
    && |t.strings| > 0 && t.strings[0] == ""
    && Distinct(t.strings, Id) && Distinct(t.mappings, Id) && Distinct(t.functions, Id) && Distinct(t.locations, Id)
  }

  // What it means for a stored record to be the interned form of an API record.

  predicate ResolvesString(strings: seq<string>, id: int, s: string) {
    0 <= id < |strings| && strings[id] == s
  }

  /** A missing optional string is stored as id 0. */
  predicate ResolvesOptString(strings: seq<string>, id: int, o: Option<string>) {
    match o
    case None => id == 0
    case Some(s) => ResolvesString(strings, id, s)
  }

  predicate ResolvesValueType(strings: seq<string>, v: Pprof.ValueType, a: ApiValueType) {
    ResolvesString(strings, v.typ, a.typ) && ResolvesString(strings, v.unit, a.unit)
  }

  predicate ResolvesValueTypes(strings: seq<string>, vs: seq<Pprof.ValueType>, api: seq<ApiValueType>) {
    |vs| == |api| && forall i :: 0 <= i < |api| ==> ResolvesValueType(strings, vs[i], api[i])
  }

  predicate ResolvesLabel(strings: seq<string>, l: Pprof.Label, a: ApiLabel) {
    ResolvesString(strings, l.key, a.key) && ResolvesOptString(strings, l.str, a.str) &&
    l.num == a.num && ResolvesOptString(strings, l.numUnit, a.numUnit)
  }

  predicate ResolvesMapping(strings: seq<string>, m: Mapping, a: ApiMapping) {
    m.memoryStart == a.memoryStart && m.memoryLimit == a.memoryLimit && m.fileOffset == a.fileOffset &&
    ResolvesString(strings, m.filename, a.filename) && ResolvesString(strings, m.buildId, a.buildId)
  }

  predicate ResolvesFunction(strings: seq<string>, f: Pprof.Function, a: ApiFunction) {
    f.id == 0 && ResolvesString(strings, f.name, a.name) && ResolvesString(strings, f.systemName, a.systemName) &&
    ResolvesString(strings, f.filename, a.filename) && f.startLine == a.startLine
  }

  predicate ResolvesLine(t: Tables, l: Pprof.Line, a: ApiLine) {
    1 <= l.functionId <= |t.functions| && ResolvesFunction(t.strings, t.functions[l.functionId - 1], a.func) &&
    l.lineNumber == a.line
  }

  predicate ResolvesLines(t: Tables, ls: seq<Pprof.Line>, api: seq<ApiLine>) {
    |ls| == |api| && forall k :: 0 <= k < |ls| ==> ResolvesLine(t, ls[k], api[k])
  }

  predicate ResolvesLocation(t: Tables, l: Pprof.Location, a: ApiLocation) {
    l.id == 0 && 1 <= l.mappingId <= |t.mappings| && ResolvesMapping(t.strings, t.mappings[l.mappingId - 1], a.mapping) &&
    l.address == a.address && ResolvesLines(t, l.lines, a.lines) && l.isFolded == a.isFolded
  }

  predicate ResolvesLabels(strings: seq<string>, ls: seq<Pprof.Label>, api: seq<ApiLabel>) {
    |ls| == |api| && forall k :: 0 <= k < |ls| ==> ResolvesLabel(strings, ls[k], api[k])
  }

  predicate ResolvesLocationIds(t: Tables, ids: seq<nat>, api: seq<ApiLocation>) {
    |ids| == |api| && forall k :: 0 <= k < |ids| ==> 1 <= ids[k] <= |t.locations| && ResolvesLocation(t, t.locations[ids[k] - 1], api[k])
  }

  predicate ResolvesSample(t: Tables, s: Sample, a: ApiSample) {
    ResolvesLocationIds(t, s.locations, a.locations) && ResolvesLabels(t.strings, s.labels, a.labels)
  }

  // Interning is a function of the table: an API record has at most one interned form.

  lemma {:induction false} StringUnique(strings: seq<string>, a: int, b: int, s: string)
    requires Distinct(strings, Id) && ResolvesString(strings, a, s) && ResolvesString(strings, b, s)
    ensures a == b
  {
    DistinctAt(strings, Id, a, b);
  }

  lemma {:induction false} OptStringUnique(strings: seq<string>, a: int, b: int, o: Option<string>)
    requires Distinct(strings, Id) && ResolvesOptString(strings, a, o) && ResolvesOptString(strings, b, o)
    ensures a == b
  {
    if o.Some? {
      StringUnique(strings, a, b, o.value);
    }
  }

  lemma {:induction false} LabelUnique(strings: seq<string>, x: Pprof.Label, y: Pprof.Label, a: ApiLabel)
    requires Distinct(strings, Id) && ResolvesLabel(strings, x, a) && ResolvesLabel(strings, y, a)
    ensures x == y
  {
    StringUnique(strings, x.key, y.key, a.key);
    OptStringUnique(strings, x.str, y.str, a.str);
    OptStringUnique(strings, x.numUnit, y.numUnit, a.numUnit);
  }

  lemma {:induction false} MappingUnique(strings: seq<string>, x: Mapping, y: Mapping, a: ApiMapping)
    requires Distinct(strings, Id) && ResolvesMapping(strings, x, a) && ResolvesMapping(strings, y, a)
    ensures x == y
  {
    StringUnique(strings, x.filename, y.filename, a.filename);
    StringUnique(strings, x.buildId, y.buildId, a.buildId);
  }

  lemma {:induction false} FunctionUnique(strings: seq<string>, x: Pprof.Function, y: Pprof.Function, a: ApiFunction)
    requires Distinct(strings, Id) && ResolvesFunction(strings, x, a) && ResolvesFunction(strings, y, a)
    ensures x == y
  {
    StringUnique(strings, x.name, y.name, a.name);
    StringUnique(strings, x.systemName, y.systemName, a.systemName);
    StringUnique(strings, x.filename, y.filename, a.filename);
  }

  /** In a duplicate-free sequence equal elements sit at the same position. */
  lemma {:induction false} PositionUnique<T>(s: seq<T>, i: int, j: int)
    requires Distinct(s, Id) && 0 <= i < |s| && 0 <= j < |s| && s[i] == s[j]
    ensures i == j
  {
    DistinctAt(s, Id, i, j);
  }

  lemma {:induction false} LineUnique(t: Tables, x: Pprof.Line, y: Pprof.Line, a: ApiLine)
    requires TablesValid(t) && ResolvesLine(t, x, a) && ResolvesLine(t, y, a)
    ensures x == y
  {
    FunctionUnique(t.strings, t.functions[x.functionId - 1], t.functions[y.functionId - 1], a.func);
    PositionUnique(t.functions, x.functionId - 1, y.functionId - 1);
  }

  lemma {:induction false} LinesUnique(t: Tables, x: seq<Pprof.Line>, y: seq<Pprof.Line>, a: seq<ApiLine>)
    requires TablesValid(t) && ResolvesLines(t, x, a) && ResolvesLines(t, y, a)
    ensures x == y
  {
    forall k | 0 <= k < |x| ensures x[k] == y[k] {
      LineUnique(t, x[k], y[k], a[k]);
    }
  }

  lemma {:induction false} LocationUnique(t: Tables, x: Pprof.Location, y: Pprof.Location, a: ApiLocation)
    requires TablesValid(t) && ResolvesLocation(t, x, a) && ResolvesLocation(t, y, a)
    ensures x == y
  {
    MappingUnique(t.strings, t.mappings[x.mappingId - 1], t.mappings[y.mappingId - 1], a.mapping);
    PositionUnique(t.mappings, x.mappingId - 1, y.mappingId - 1);
    LinesUnique(t, x.lines, y.lines, a.lines);
  }

  lemma {:induction false} LabelsUnique(strings: seq<string>, x: seq<Pprof.Label>, y: seq<Pprof.Label>, a: seq<ApiLabel>)
    requires Distinct(strings, Id) && ResolvesLabels(strings, x, a) && ResolvesLabels(strings, y, a)
    ensures x == y
  {
    forall k | 0 <= k < |x| ensures x[k] == y[k] {
      LabelUnique(strings, x[k], y[k], a[k]);
    }
  }

  /** Two samples interned from the same API sample into the same tables are the same sample. */
  lemma {:induction false} SampleUnique(t: Tables, x: Sample, y: Sample, a: ApiSample)
    requires TablesValid(t) && ResolvesSample(t, x, a) && ResolvesSample(t, y, a)
    ensures x == y
  {
    forall k | 0 <= k < |x.locations| ensures x.locations[k] == y.locations[k] {
      LocationUnique(t, t.locations[x.locations[k] - 1], t.locations[y.locations[k] - 1], a.locations[k]);
      PositionUnique(t.locations, x.locations[k] - 1, y.locations[k] - 1);
    }
    LabelsUnique(t.strings, x.labels, y.labels, a.labels);
  }

  // Growing the tables keeps every interned form valid.

  lemma {:induction false} PrefixAt<T>(s: seq<T>, s': seq<T>, i: int)
    requires s <= s' && 0 <= i < |s|
    ensures s'[i] == s[i]
  {
    assert s'[..|s|][i] == s'[i];
  }

  lemma {:induction false} StringMono(strings: seq<string>, strings': seq<string>, id: int, s: string)
    requires strings <= strings' && ResolvesString(strings, id, s)
    ensures ResolvesString(strings', id, s)
  {
    PrefixAt(strings, strings', id);
  }

  lemma {:induction false} ValueTypesMono(strings: seq<string>, strings': seq<string>, vs: seq<Pprof.ValueType>, api: seq<ApiValueType>)
    requires strings <= strings' && ResolvesValueTypes(strings, vs, api)
    ensures ResolvesValueTypes(strings', vs, api)
  {
    forall i | 0 <= i < |api|
      ensures ResolvesValueType(strings', vs[i], api[i])
    {
      StringMono(strings, strings', vs[i].typ, api[i].typ);
      StringMono(strings, strings', vs[i].unit, api[i].unit);
    }
  }

  lemma {:induction false} AppendResolvesValueType(strings: seq<string>, vs: seq<Pprof.ValueType>, api: seq<ApiValueType>, i: nat, v: Pprof.ValueType)
    requires i < |api| && ResolvesValueTypes(strings, vs, api[..i]) && ResolvesValueType(strings, v, api[i])
    ensures ResolvesValueTypes(strings, vs + [v], api[..i + 1])
  {
    assert api[..i + 1] == api[..i] + [api[i]];
  }

  lemma {:induction false} OptStringMono(strings: seq<string>, strings': seq<string>, id: int, o: Option<string>)
    requires strings <= strings' && ResolvesOptString(strings, id, o)
    ensures ResolvesOptString(strings', id, o)
  {
    if o.Some? {
      StringMono(strings, strings', id, o.value);
    }
  }

  lemma {:induction false} LabelMono(strings: seq<string>, strings': seq<string>, l: Pprof.Label, a: ApiLabel)
    requires strings <= strings' && ResolvesLabel(strings, l, a)
    ensures ResolvesLabel(strings', l, a)
  {
    StringMono(strings, strings', l.key, a.key);
    if a.str.Some? {
      StringMono(strings, strings', l.str, a.str.value);
    }
    if a.numUnit.Some? {
      StringMono(strings, strings', l.numUnit, a.numUnit.value);
    }
  }

  lemma {:induction false} LabelsMono(strings: seq<string>, strings': seq<string>, ls: seq<Pprof.Label>, api: seq<ApiLabel>)
    requires strings <= strings' && ResolvesLabels(strings, ls, api)
    ensures ResolvesLabels(strings', ls, api)
  {
    forall k | 0 <= k < |ls| ensures ResolvesLabel(strings', ls[k], api[k]) {
      LabelMono(strings, strings', ls[k], api[k]);
    }
  }

  lemma {:induction false} MappingMono(strings: seq<string>, strings': seq<string>, m: Mapping, a: ApiMapping)
    requires strings <= strings' && ResolvesMapping(strings, m, a)
    ensures ResolvesMapping(strings', m, a)
  {
    StringMono(strings, strings', m.filename, a.filename);
    StringMono(strings, strings', m.buildId, a.buildId);
  }

  lemma {:induction false} FunctionMono(strings: seq<string>, strings': seq<string>, f: Pprof.Function, a: ApiFunction)
    requires strings <= strings' && ResolvesFunction(strings, f, a)
    ensures ResolvesFunction(strings', f, a)
  {
    StringMono(strings, strings', f.name, a.name);
    StringMono(strings, strings', f.systemName, a.systemName);
    StringMono(strings, strings', f.filename, a.filename);
  }

  lemma {:induction false} LineMono(t: Tables, t': Tables, l: Pprof.Line, a: ApiLine)
    requires Extends(t, t') && ResolvesLine(t, l, a)
    ensures ResolvesLine(t', l, a)
  {
    PrefixAt(t.functions, t'.functions, l.functionId - 1);
    FunctionMono(t.strings, t'.strings, t.functions[l.functionId - 1], a.func);
  }

  lemma {:induction false} LinesMono(t: Tables, t': Tables, ls: seq<Pprof.Line>, api: seq<ApiLine>)
    requires Extends(t, t') && ResolvesLines(t, ls, api)
    ensures ResolvesLines(t', ls, api)
  {
    forall k | 0 <= k < |ls| ensures ResolvesLine(t', ls[k], api[k]) {
      LineMono(t, t', ls[k], api[k]);
    }
  }

  lemma {:induction false} LocationMono(t: Tables, t': Tables, l: Pprof.Location, a: ApiLocation)
    requires Extends(t, t') && ResolvesLocation(t, l, a)
    ensures ResolvesLocation(t', l, a)
  {
    PrefixAt(t.mappings, t'.mappings, l.mappingId - 1);
    MappingMono(t.strings, t'.strings, t.mappings[l.mappingId - 1], a.mapping);
    LinesMono(t, t', l.lines, a.lines);
  }

  lemma {:induction false} LocationIdsMono(t: Tables, t': Tables, ids: seq<nat>, api: seq<ApiLocation>)
    requires Extends(t, t') && ResolvesLocationIds(t, ids, api)
    ensures ResolvesLocationIds(t', ids, api)
  {
    forall k | 0 <= k < |ids| ensures 1 <= ids[k] <= |t'.locations| && ResolvesLocation(t', t'.locations[ids[k] - 1], api[k]) {
      PrefixAt(t.locations, t'.locations, ids[k] - 1);
      LocationMono(t, t', t.locations[ids[k] - 1], api[k]);
    }
  }

  lemma {:induction false} SampleMono(t: Tables, t': Tables, s: Sample, a: ApiSample)
    requires Extends(t, t') && ResolvesSample(t, s, a)
    ensures ResolvesSample(t', s, a)
  {
    LocationIdsMono(t, t', s.locations, a.locations);
    LabelsMono(t.strings, t'.strings, s.labels, a.labels);
  }

  // The strings the builder interns.

  /** Each sample type's name and unit, in order. */
  function TypeNames(types: seq<ApiValueType>): seq<string>
    decreases |types|
  {
    if |types| == 0 then [] else [types[0].typ, types[0].unit] + TypeNames(types[1..])
  }

  /** The names `build` interns after the empty string: the sample types', then the period's. */
  function BuildNames(types: seq<ApiValueType>, period: Option<ApiPeriod>): seq<string> {
    TypeNames(types) + (if period.Some? then [period.value.typ.typ, period.value.typ.unit] else [])
  }

  /** The table after interning `names` one by one. */
  function InternAll(table: seq<string>, names: seq<string>): seq<string>
    decreases |names|, 1
  {
    if |names| == 0 then table else InternFirst(table, names)
  }

  /** Interning the first of `names`, then the others. */
  function InternFirst(table: seq<string>, names: seq<string>): seq<string>
    requires |names| > 0
    decreases |names|, 0
  {
    InternAll(InsertFull(table, Id, names[0]).0, names[1..])
  }

  /** Interning two more names. */
  lemma {:induction false} InternTwo(table: seq<string>, a: string, b: string, rest: seq<string>)
    ensures InternAll(table, [a, b] + rest) == InternAll(InsertFull(InsertFull(table, Id, a).0, Id, b).0, rest)
  {
    assert [a, b] + rest == [a] + ([b] + rest);
    InternCons(table, a, [b] + rest);
    InternCons(InsertFull(table, Id, a).0, b, rest);
  }

  /** Interning a concatenation is interning one part after the other. */
  lemma {:induction false} InternAllAppend(table: seq<string>, a: seq<string>, b: seq<string>)
    ensures InternAll(table, a + b) == InternAll(InternAll(table, a), b)
    decreases |a|
  {
    if |a| == 0 {
      assert a + b == b;
    } else {
      assert (a + b)[1..] == a[1..] + b;
      InternAllAppend(InsertFull(table, Id, a[0]).0, a[1..], b);
    }
  }

  /** Interning names the table already holds leaves it as it is. */
  lemma {:induction false} InternAllKnown(table: seq<string>, names: seq<string>)
    requires forall i :: 0 <= i < |names| ==> names[i] in table
    ensures InternAll(table, names) == table
    decreases |names|
  {
    if |names| > 0 {
      assert IndexOf(table, Id, names[0]).Some?;
      InternAllKnown(table, names[1..]);
    }
  }

  /** The period's name and unit are interned after the sample types'. */
  lemma {:induction false} BuildNamesPeriod(types: seq<ApiValueType>, period: Option<ApiPeriod>)
    ensures period.None? ==> InternAll([""], BuildNames(types, period)) == InternAll([""], TypeNames(types))
    ensures period.Some? ==>
      InternAll([""], BuildNames(types, period)) ==
      InsertFull(InsertFull(InternAll([""], TypeNames(types)), Id, period.value.typ.typ).0, Id, period.value.typ.unit).0
  {
    if period.Some? {
      var extra := [period.value.typ.typ, period.value.typ.unit];
      InternAllAppend([""], TypeNames(types), extra);
      InternTwo(InternAll([""], TypeNames(types)), extra[0], extra[1], []);
      assert extra + [] == extra;
    } else {
      assert TypeNames(types) + [] == TypeNames(types);
    }
  }

  /** A profile built with the one sample type ("samples", "count") holds "", "samples" and "count". */
  lemma {:induction false} BuiltTableHoldsSampleType()
    ensures InternAll([""], BuildNames([ApiValueType("samples", "count")], None)) == ["", "samples", "count"]
  {
    var types := [ApiValueType("samples", "count")];
    assert types[1..] == [];
    assert TypeNames(types) == ["samples", "count"] + [];
    assert BuildNames(types, None) == ["samples", "count"];
    InternTwo([""], "samples", "count", []);
    assert ["samples", "count"] + [] == ["samples", "count"];
    assert InsertFull([""], Id, "samples").0 == ["", "samples"];
  }

  /** In that table the next new string gets id 3, and interning it again gives 3 again. */
  lemma {:induction false} BuiltTableInternsNextAtThree()
    ensures InsertFull(["", "samples", "count"], Id, "a") == (["", "samples", "count", "a"], 3)
    ensures InsertFull(["", "samples", "count", "a"], Id, "a") == (["", "samples", "count", "a"], 3)
  {
    var t := ["", "samples", "count"];
    assert t[0] != "a" && t[1] != "a" && t[2] != "a";
    assert forall j :: 0 <= j < |t| ==> Id(t[j]) != "a";
    assert t + ["a"] == ["", "samples", "count", "a"];
    InsertFullIdempotent(t, Id, "a");
  }

  /** The id of a string in the table, or -1 when it is not there. */
  function StringId(strings: seq<string>, s: string): (id: int)
    ensures id == -1 <==> s !in strings
    ensures id != -1 ==> ResolvesString(strings, id, s)
  {
    match IndexOf(strings, Id, s)
    case None =>
      assert forall j :: 0 <= j < |strings| ==> strings[j] != s;
      -1
    case Some(i) => i
  }

  /**
   * The endpoint value the export gives a sample: the first label whose key
   * is the span-id label decides, through the value its string maps to.
   */
  function EndpointOf(labels: seq<Pprof.Label>, spanIdLabel: int, mappings: seq<(int, int)>): (r: Option<int>)
    ensures r.Some? <==>
      exists i :: 0 <= i < |labels| && labels[i].key == spanIdLabel && Get(mappings, labels[i].str).Some? &&
        forall j :: 0 <= j < i ==> labels[j].key != spanIdLabel
    ensures r.Some? ==>
      exists i :: 0 <= i < |labels| && labels[i].key == spanIdLabel && Get(mappings, labels[i].str) == r &&
        forall j :: 0 <= j < i ==> labels[j].key != spanIdLabel
    ensures mappings == [] ==> r.None?
  {
    match IndexOf(labels, Pprof.LabelKey, spanIdLabel)
    case None => None
    case Some(i) => Get(mappings, labels[i].str)
  }

  /** A sample's labels in the export: the endpoint label is added when the sample's span has one. */
  function ExportedLabels(labels: seq<Pprof.Label>, spanIdLabel: int, endpointLabel: int, mappings: seq<(int, int)>): seq<Pprof.Label> {
    match EndpointOf(labels, spanIdLabel, mappings)
    case None => labels
    case Some(e) => labels + [Pprof.Label(endpointLabel, e, 0, 0)]
  }

  /**
   * The export adds at most one label to a sample: the endpoint label, whose
   * value is an endpoint some span maps to, and only when the first label
   * keyed by the span-id label names a span with an endpoint.
   */
  lemma {:induction false} ExportedLabelsAddsEndpoint(labels: seq<Pprof.Label>, spanIdLabel: int, endpointLabel: int, mappings: seq<(int, int)>)
    ensures var out := ExportedLabels(labels, spanIdLabel, endpointLabel, mappings);
      && labels <= out && |out| <= |labels| + 1
      && (|out| == |labels| <==> EndpointOf(labels, spanIdLabel, mappings).None?)
      && (|out| == |labels| + 1 ==>
            out[|labels|].key == endpointLabel && out[|labels|].num == 0 && out[|labels|].numUnit == 0 &&
            exists k :: (k, out[|labels|].str) in mappings)
  {
    var e := EndpointOf(labels, spanIdLabel, mappings);
    if e.Some? {
      var i :| 0 <= i < |labels| && labels[i].key == spanIdLabel && Get(mappings, labels[i].str) == e &&
        forall j :: 0 <= j < i ==> labels[j].key != spanIdLabel;
      assert (labels[i].str, e.value) in mappings;
    }
  }

  /** A stored sample and its values as a pprof sample, labels as stored. */
  function PlainSample(s: (Sample, seq<int>)): Pprof.Sample {
    Pprof.Sample(s.0.locations, s.1, s.0.labels)
  }

  /** A stored sample and its values in the export. */
  function ExportedSample(s: (Sample, seq<int>), spanIdLabel: int, endpointLabel: int, mappings: seq<(int, int)>): Pprof.Sample {
    Pprof.Sample(s.0.locations, s.1, ExportedLabels(s.0.labels, spanIdLabel, endpointLabel, mappings))
  }

  /** A pprof sample with the endpoint label pushed onto its labels. */
  function WithEndpoint(p: Pprof.Sample, endpointLabel: int, endpoint: int): Pprof.Sample {
    p.(labels := p.labels + [Pprof.Label(endpointLabel, endpoint, 0, 0)])
  }

  /** Pushing the endpoint found for a sample's labels, if any, onto its plain form gives its exported form. */
  lemma {:induction false} ExportStep(s: (Sample, seq<int>), spanIdLabel: int, endpointLabel: int, mappings: seq<(int, int)>)
    ensures var e := EndpointOf(s.0.labels, spanIdLabel, mappings);
      ExportedSample(s, spanIdLabel, endpointLabel, mappings) ==
        if e.Some? then WithEndpoint(PlainSample(s), endpointLabel, e.value) else PlainSample(s)
  {
  }

  /** A stored mapping in the export: its id is position + 1 and the `has_*` flags are left false. */
  function ExportedMapping(index: nat, m: Mapping): Pprof.Mapping {
    Pprof.Mapping(index + 1, m.memoryStart, m.memoryLimit, m.fileOffset, m.filename, m.buildId, false, false, false, false)
  }

  /** The export's start time: nanoseconds since the epoch, saturated to `i64::MAX`; 0 for a start before the epoch. */
  function TimeNanos(startTime: int): (r: nat)
    ensures r <= I64_MAX
    ensures startTime < 0 ==> r == 0
    ensures 0 <= startTime <= I64_MAX ==> r == startTime
  {
    if startTime < 0 then 0 else SaturateI64(startTime)
  }

  /**
   * The duration `serialize` writes: the given one, else the time from start
   * to end, else 0 when the end precedes the start; saturated to `i64::MAX`.
   */
  function ProfileDuration(start: int, end: int, duration: Option<nat>): (r: nat)
    ensures r <= I64_MAX
    ensures duration.Some? ==> (r == duration.value <==> duration.value <= I64_MAX)
    ensures duration.None? && end < start ==> r == 0
    ensures duration.None? && start <= end <= start + I64_MAX ==> r == end - start
  {
    match duration
    case Some(d) => SaturateI64(d)
    case None => if end >= start then SaturateI64(end - start) else 0
  }

  /** `add_mapping` refuses to grow a profile whose string or mapping table has reached `CONTAINER_MAX`. */
  predicate Full(t: Tables) {
    |t.strings| >= CONTAINER_MAX || |t.mappings| >= CONTAINER_MAX
  }

  lemma {:induction false} ExtendsTrans(a: Tables, b: Tables, c: Tables)
    requires Extends(a, b) && Extends(b, c)
    ensures Extends(a, c)
  {
    assert a.strings == b.strings[..|a.strings|] == c.strings[..|b.strings|][..|a.strings|];
    assert a.mappings == c.mappings[..|b.mappings|][..|a.mappings|];
    assert a.functions == c.functions[..|b.functions|][..|a.functions|];
    assert a.locations == c.locations[..|b.locations|][..|a.locations|];
  }

  /** Tables that only grow stay full once full. */
  lemma {:induction false} FullMono(a: Tables, b: Tables)
    requires Extends(a, b) && Full(a)
    ensures Full(b)
  {
    assert |a.strings| <= |b.strings| && |a.mappings| <= |b.mappings|;
  }

  /** `intern` on the string table of `t`: only that table changes, and only when the string is new. */
  function InternIn(t: Tables, s: string): (r: (Tables, nat))
    requires TablesValid(t)
    ensures TablesValid(r.0) && Extends(t, r.0) && ResolvesString(r.0.strings, r.1, s)
    ensures r.0.mappings == t.mappings && r.0.functions == t.functions && r.0.locations == t.locations
    ensures s in t.strings ==> r.0 == t
  {
    var (strs, id) := InsertFull(t.strings, Id, s);
    (t.(strings := strs), id)
  }

  /** An optional string: interned when present, id 0 when absent. */
  function InternOptIn(t: Tables, o: Option<string>): (r: (Tables, int))
    requires TablesValid(t)
    ensures TablesValid(r.0) && Extends(t, r.0) && ResolvesOptString(r.0.strings, r.1, o)
    ensures r.0.mappings == t.mappings && r.0.functions == t.functions && r.0.locations == t.locations
  {
    match o
    case None => (t, 0)
    case Some(s) => InternIn(t, s)
  }

  // The strings each step of `add` interns, in the order it interns them.

  function OptName(o: Option<string>): seq<string> {
    if o.Some? then [o.value] else []
  }

  function MappingNames(m: ApiMapping): seq<string> {
    [m.filename, m.buildId]
  }

  function FunctionNames(f: ApiFunction): seq<string> {
    [f.name, f.systemName, f.filename]
  }

  function LineNames(l: ApiLine): seq<string> {
    FunctionNames(l.func)
  }

  function LabelNames(l: ApiLabel): seq<string> {
    [l.key] + OptName(l.str) + OptName(l.numUnit)
  }

  /** The names of each element of `xs`, one element after the other. */
  function ConcatMap<T>(xs: seq<T>, f: T -> seq<string>): seq<string>
    decreases |xs|, 1
  {
    if |xs| == 0 then [] else ConcatLast(xs, f)
  }

  /** The names of all but the last element of `xs`, then the last's. */
  function ConcatLast<T>(xs: seq<T>, f: T -> seq<string>): seq<string>
    requires |xs| > 0
    decreases |xs|, 0
  {
    ConcatMap(xs[..|xs| - 1], f) + f(xs[|xs| - 1])
  }

  function LocationNames(l: ApiLocation): seq<string> {
    MappingNames(l.mapping) + ConcatMap(l.lines, LineNames)
  }

  /** Everything `add` interns for a sample: its labels, then its locations. */
  function SampleNames(s: ApiSample): seq<string> {
    ConcatMap(s.labels, LabelNames) + ConcatMap(s.locations, LocationNames)
  }

  /** The table after interning a sample's labels and its first `i` locations, where `add` stops when full. */
  function InternedPart(table: seq<string>, s: ApiSample, i: nat): seq<string>
    requires i <= |s.locations|
  {
    InternAll(table, ConcatMap(s.labels, LabelNames) + ConcatMap(s.locations[..i], LocationNames))
  }

  /**
   * Everything `add_endpoint` interns: the two label names when it is the
   * first endpoint, then the span id and the endpoint.
   */
  function EndpointNames(first: bool, localRootSpanId: string, endpoint: string): seq<string> {
    (if first then ["local root span id", "trace endpoint"] else []) + [localRootSpanId, endpoint]
  }

  /** After the first endpoint, a span id and endpoint already in the table leave the strings unchanged. */
  lemma {:induction false} EndpointKnownKeepsStrings(table: seq<string>, localRootSpanId: string, endpoint: string)
    requires localRootSpanId in table && endpoint in table
    ensures InternAll(table, EndpointNames(false, localRootSpanId, endpoint)) == table
  {
    InternAllKnown(table, EndpointNames(false, localRootSpanId, endpoint));
  }

  /** Interning the names of one more element. */
  lemma {:induction false} InternConcatStep<T>(table: seq<string>, xs: seq<T>, f: T -> seq<string>, i: nat)
    requires i < |xs|
    ensures InternAll(table, ConcatMap(xs[..i + 1], f)) == InternAll(InternAll(table, ConcatMap(xs[..i], f)), f(xs[i]))
  {
    assert xs[..i + 1][..i] == xs[..i];
    InternAllAppend(table, ConcatMap(xs[..i], f), f(xs[i]));
  }

  lemma {:induction false} InternOne(table: seq<string>, a: string)
    ensures InternAll(table, [a]) == InsertFull(table, Id, a).0
  {
    assert InternAll(table, [a]) == InternFirst(table, [a]);
    assert [a][1..] == [];
  }

  /** Interning a name and then `rest` is interning `[a] + rest`. */
  lemma {:induction false} InternCons(table: seq<string>, a: string, rest: seq<string>)
    ensures InternAll(table, [a] + rest) == InternAll(InsertFull(table, Id, a).0, rest)
  {
    assert InternAll(table, [a] + rest) == InternFirst(table, [a] + rest);
    assert ([a] + rest)[1..] == rest;
  }

  /** An optional string adds its name to the table exactly when it is present. */
  lemma {:induction false} InternOptNames(t: Tables, o: Option<string>)
    requires TablesValid(t)
    ensures InternOptIn(t, o).0.strings == InternAll(t.strings, OptName(o))
  {
    if o.Some? {
      InternOne(t.strings, o.value);
    }
  }

  /** A label interns its key, then its string, then its unit. */
  lemma {:induction false} InternLabelNames(table: seq<string>, l: ApiLabel)
    ensures InternAll(table, LabelNames(l)) ==
      InternAll(InternAll(InsertFull(table, Id, l.key).0, OptName(l.str)), OptName(l.numUnit))
  {
    InternAllAppend(table, [l.key] + OptName(l.str), OptName(l.numUnit));
    InternCons(table, l.key, OptName(l.str));
  }

  lemma {:induction false} AppendResolvesLine(t: Tables, ls: seq<Pprof.Line>, api: seq<ApiLine>, i: nat, l: Pprof.Line)
    requires i < |api| && ResolvesLines(t, ls, api[..i]) && ResolvesLine(t, l, api[i])
    ensures ResolvesLines(t, ls + [l], api[..i + 1])
  {
    assert api[..i + 1] == api[..i] + [api[i]];
  }

  lemma {:induction false} AppendResolvesLabel(strings: seq<string>, ls: seq<Pprof.Label>, api: seq<ApiLabel>, i: nat, l: Pprof.Label)
    requires i < |api| && ResolvesLabels(strings, ls, api[..i]) && ResolvesLabel(strings, l, api[i])
    ensures ResolvesLabels(strings, ls + [l], api[..i + 1])
  {
    assert api[..i + 1] == api[..i] + [api[i]];
  }

  lemma {:induction false} AppendResolvesLocationId(t: Tables, ids: seq<nat>, api: seq<ApiLocation>, i: nat, id: nat)
    requires i < |api| && ResolvesLocationIds(t, ids, api[..i])
    requires 1 <= id <= |t.locations| && ResolvesLocation(t, t.locations[id - 1], api[i])
    ensures ResolvesLocationIds(t, ids + [id], api[..i + 1])
  {
    assert api[..i + 1] == api[..i] + [api[i]];
  }

  /**
   * `add_mapping` on the tables `t`: an error, changing nothing, when `t` is
   * full; otherwise the mapping's strings and the mapping itself are interned
   * and its id (position + 1) returned. A mapping already stored keeps its id
   * and nothing grows.
   */
  method AddMapping(t: Tables, m: ApiMapping) returns (t': Tables, r: Result<nat, FullError>)
    requires TablesValid(t)
    ensures TablesValid(t') && Extends(t, t')
    ensures t'.functions == t.functions && t'.locations == t.locations
    ensures r.Err? <==> Full(t)
    ensures r.Err? ==> t' == t
    ensures r.Ok? ==> 1 <= r.value <= |t'.mappings| && ResolvesMapping(t'.strings, t'.mappings[r.value - 1], m)
    ensures forall j :: 0 <= j < |t.mappings| && ResolvesMapping(t.strings, t.mappings[j], m) && !Full(t) ==>
      t' == t && r == Ok(j + 1)
    ensures !Full(t) ==> t'.strings == InternAll(t.strings, MappingNames(m))
    ensures r.Ok? ==> (t'.mappings, r.value - 1) == InsertFull(t.mappings, Id, t'.mappings[r.value - 1])
    ensures r.Ok? && (forall j :: 0 <= j < |t.mappings| ==> !ResolvesMapping(t'.strings, t.mappings[j], m)) ==>
      t'.mappings == t.mappings + [t'.mappings[r.value - 1]] && r.value == |t.mappings| + 1
    ensures |t'.mappings| <= |t.mappings| + 1
  {
    if |t.strings| >= CONTAINER_MAX || |t.mappings| >= CONTAINER_MAX {
      return t, Err(FullError);
    }
    var (t1, filename) := InternIn(t, m.filename);
    var (t2, buildId) := InternIn(t1, m.buildId);
    StringMono(t1.strings, t2.strings, filename, m.filename);
    InternTwo(t.strings, m.filename, m.buildId, []);
    assert MappingNames(m) + [] == MappingNames(m);
    var mapping := Mapping(m.memoryStart, m.memoryLimit, m.fileOffset, filename, buildId);
    var (ms, index) := InsertFull(t2.mappings, Id, mapping);
    t' := t2.(mappings := ms);
    ExtendsTrans(t, t1, t2);
    r := Ok(index + 1);
    assert ms[index] == mapping;
    forall j | 0 <= j < |t.mappings| && ResolvesMapping(t.strings, t.mappings[j], m)
      ensures t' == t && r == Ok(j + 1)
    {
      assert t.strings[t.mappings[j].filename] == m.filename;
      assert t1 == t;
      assert t.strings[t.mappings[j].buildId] == m.buildId;
      assert t2 == t;
      MappingUnique(t.strings, mapping, t.mappings[j], m);
      assert Id(t.mappings[j]) == Id(mapping);
      assert ms == t.mappings;
      PositionUnique(ms, index, j);
    }
  }

  /**
   * `add_function` on the tables `t`: the function's strings and the function
   * (with id 0) are interned and its id (position + 1) returned. A function
   * already stored keeps its id and nothing grows.
   */
  method AddFunction(t: Tables, f: ApiFunction) returns (t': Tables, id: nat)
    requires TablesValid(t)
    ensures TablesValid(t') && Extends(t, t')
    ensures t'.mappings == t.mappings && t'.locations == t.locations
    ensures 1 <= id <= |t'.functions| && ResolvesFunction(t'.strings, t'.functions[id - 1], f)
    ensures forall j :: 0 <= j < |t.functions| && ResolvesFunction(t.strings, t.functions[j], f) ==>
      t' == t && id == j + 1
    ensures t'.strings == InternAll(t.strings, FunctionNames(f))
    ensures (t'.functions, id - 1) == InsertFull(t.functions, Id, t'.functions[id - 1])
    ensures (forall j :: 0 <= j < |t.functions| ==> !ResolvesFunction(t'.strings, t.functions[j], f)) ==>
      t'.functions == t.functions + [t'.functions[id - 1]] && id == |t.functions| + 1
  {
    var (t1, name) := InternIn(t, f.name);
    var (t2, systemName) := InternIn(t1, f.systemName);
    var (t3, filename) := InternIn(t2, f.filename);
    StringMono(t1.strings, t3.strings, name, f.name);
    StringMono(t2.strings, t3.strings, systemName, f.systemName);
    assert FunctionNames(f) == [f.name, f.systemName] + [f.filename];
    InternTwo(t.strings, f.name, f.systemName, [f.filename]);
    InternOne(t2.strings, f.filename);
    var func := Pprof.Function(0, name, systemName, filename, f.startLine);
    var (fs, index) := InsertFull(t3.functions, Id, func);
    t' := t3.(functions := fs);
    ExtendsTrans(t, t1, t2);
    ExtendsTrans(t, t2, t3);
    id := index + 1;
    assert fs[index] == func;
    forall j | 0 <= j < |t.functions| && ResolvesFunction(t.strings, t.functions[j], f)
      ensures t' == t && id == j + 1
    {
      assert t.strings[t.functions[j].name] == f.name;
      assert t1 == t;
      assert t.strings[t.functions[j].systemName] == f.systemName;
      assert t2 == t;
      assert t.strings[t.functions[j].filename] == f.filename;
      assert t3 == t;
      FunctionUnique(t.strings, func, t.functions[j], f);
      assert Id(t.functions[j]) == Id(func);
      assert fs == t.functions;
      PositionUnique(fs, index, j);
    }
  }

  /** The lines of a location, each function interned in order. */
  method AddLines(t: Tables, lines: seq<ApiLine>) returns (t': Tables, ls: seq<Pprof.Line>)
    requires TablesValid(t)
    ensures TablesValid(t') && Extends(t, t')
    ensures t'.mappings == t.mappings && t'.locations == t.locations
    ensures ResolvesLines(t', ls, lines)
    ensures t'.strings == InternAll(t.strings, ConcatMap(lines, LineNames))
    ensures |t'.functions| <= |t.functions| + |lines|
  {
    t', ls := t, [];
    for i := 0 to |lines|
      invariant TablesValid(t') && Extends(t, t')
      invariant t'.mappings == t.mappings && t'.locations == t.locations
      invariant ResolvesLines(t', ls, lines[..i])
      invariant t'.strings == InternAll(t.strings, ConcatMap(lines[..i], LineNames))
      invariant |t'.functions| <= |t.functions| + i
    {
      var t0 := t';
      var functionId;
      t', functionId := AddFunction(t', lines[i].func);
      InternConcatStep(t.strings, lines, LineNames, i);
      ExtendsTrans(t, t0, t');
      LinesMono(t0, t', ls, lines[..i]);
      AppendResolvesLine(t', ls, lines, i, Pprof.Line(functionId, lines[i].line));
      ls := ls + [Pprof.Line(functionId, lines[i].line)];
    }
    assert lines[..|lines|] == lines;
  }

  /** A location record built from a resolving mapping id and resolving lines resolves to the API location. */
  lemma {:induction false} ResolvesNewLocation(t: Tables, mappingId: nat, lines: seq<Pprof.Line>, a: ApiLocation)
    requires 1 <= mappingId <= |t.mappings| && ResolvesMapping(t.strings, t.mappings[mappingId - 1], a.mapping)
    requires ResolvesLines(t, lines, a.lines)
    ensures ResolvesLocation(t, Pprof.Location(0, mappingId, a.address, lines, a.isFolded), a)
  {
  }

  /**
   * The location step of `add`: the location record (with id 0) built from
   * an interned mapping id and interned lines goes into the location table;
   * its id is position + 1, and a location already stored keeps its id.
   */
  method InsertLocation(t: Tables, mappingId: nat, lines: seq<Pprof.Line>, location: ApiLocation)
    returns (t': Tables, id: nat)
    requires TablesValid(t)
    requires 1 <= mappingId <= |t.mappings| && ResolvesMapping(t.strings, t.mappings[mappingId - 1], location.mapping)
    requires ResolvesLines(t, lines, location.lines)
    ensures TablesValid(t') && Extends(t, t')
    ensures t'.strings == t.strings && t'.mappings == t.mappings && t'.functions == t.functions
    ensures 1 <= id <= |t'.locations| && ResolvesLocation(t', t'.locations[id - 1], location)
    ensures forall j :: 0 <= j < |t.locations| && ResolvesLocation(t, t.locations[j], location) ==> id == j + 1
    ensures (t'.locations, id - 1) == InsertFull(t.locations, Id, t'.locations[id - 1])
    ensures (forall j :: 0 <= j < |t.locations| ==> !ResolvesLocation(t', t.locations[j], location)) ==>
      t'.locations == t.locations + [t'.locations[id - 1]] && id == |t.locations| + 1
  {
    var loc := Pprof.Location(0, mappingId, location.address, lines, location.isFolded);
    var (ls, index) := InsertFull(t.locations, Id, loc);
    t' := t.(locations := ls);
    LinesMono(t, t', lines, location.lines);
    ResolvesNewLocation(t', mappingId, lines, location);
    assert ls[index] == loc;
    id := index + 1;
    forall j | 0 <= j < |t.locations| && ResolvesLocation(t, t.locations[j], location)
      ensures id == j + 1
    {
      LocationMono(t, t', t.locations[j], location);
      PrefixAt(t.locations, t'.locations, j);
      LocationUnique(t', loc, t'.locations[j], location);
      PositionUnique(t'.locations, index, j);
    }
  }

  /**
   * `t'` is `t` after `add` interned `location` as its location `id`: the
   * stored record resolves to it, the strings are those of interning its
   * names, and the location table is `InsertFull` of that record, which is
   * an append at `id` when no earlier location resolves to it.
   */
  ghost predicate LocationInterned(t: Tables, t': Tables, id: nat, location: ApiLocation) {
    && 1 <= id <= |t'.locations| && ResolvesLocation(t', t'.locations[id - 1], location)
    && t'.strings == InternAll(t.strings, LocationNames(location))
    && (t'.locations, id - 1) == InsertFull(t.locations, Id, t'.locations[id - 1])
    && ((forall j :: 0 <= j < |t.locations| ==> !ResolvesLocation(t', t.locations[j], location)) ==>
          t'.locations == t.locations + [t'.locations[id - 1]] && id == |t.locations| + 1)
  }

  /**
   * One location of `add`: its mapping (which may fail when full), its lines'
   * functions, then the location (with id 0) itself; its id is position + 1.
   */
  method AddLocation(t: Tables, location: ApiLocation) returns (t': Tables, r: Result<nat, FullError>)
    requires TablesValid(t)
    ensures TablesValid(t') && Extends(t, t')
    ensures r.Err? <==> Full(t)
    ensures r.Err? ==> t' == t
    ensures r.Ok? ==> LocationInterned(t, t', r.value, location)
    ensures forall j :: 0 <= j < |t.locations| && ResolvesLocation(t, t.locations[j], location) && !Full(t) ==> r == Ok(j + 1)
    ensures |t'.mappings| <= |t.mappings| + 1 && |t'.functions| <= |t.functions| + |location.lines|
  {
    var t1, mappingId := AddLocationMapping(t, location.mapping);
    if mappingId.Err? {
      return t1, Err(FullError);
    }
    var id;
    t', id := AddMappedLocation(t, t1, mappingId.value, location);
    r := Ok(id);
  }

  /** The mapping step of one location of `add`: `AddMapping`, as far as the location's own steps use it. */
  method AddLocationMapping(t: Tables, m: ApiMapping) returns (t': Tables, r: Result<nat, FullError>)
    requires TablesValid(t)
    ensures TablesValid(t') && Extends(t, t')
    ensures t'.functions == t.functions && t'.locations == t.locations && |t'.mappings| <= |t.mappings| + 1
    ensures r.Err? <==> Full(t)
    ensures r.Err? ==> t' == t
    ensures r.Ok? ==> 1 <= r.value <= |t'.mappings| && ResolvesMapping(t'.strings, t'.mappings[r.value - 1], m)
    ensures r.Ok? ==> t'.strings == InternAll(t.strings, MappingNames(m))
  {
    t', r := AddMapping(t, m);
  }

  /** One location of `add` once its mapping is interned as `t1`'s mapping `mappingId`. */
  method AddMappedLocation(t: Tables, t1: Tables, mappingId: nat, location: ApiLocation) returns (t': Tables, id: nat)
    requires TablesValid(t) && TablesValid(t1) && Extends(t, t1)
    requires t1.functions == t.functions && t1.locations == t.locations && |t1.mappings| <= |t.mappings| + 1
    requires 1 <= mappingId <= |t1.mappings| && ResolvesMapping(t1.strings, t1.mappings[mappingId - 1], location.mapping)
    requires t1.strings == InternAll(t.strings, MappingNames(location.mapping))
    ensures TablesValid(t') && Extends(t, t') && LocationInterned(t, t', id, location)
    ensures forall j :: 0 <= j < |t.locations| && ResolvesLocation(t, t.locations[j], location) ==> id == j + 1
    ensures |t'.mappings| <= |t.mappings| + 1 && |t'.functions| <= |t.functions| + |location.lines|
  {
    InternAllAppend(t.strings, MappingNames(location.mapping), ConcatMap(location.lines, LineNames));
    t', id := AddLinesAndLocation(t1, mappingId, location);
    ExtendsTrans(t, t1, t');
    forall j | 0 <= j < |t.locations| && ResolvesLocation(t, t.locations[j], location)
      ensures id == j + 1
    {
      LocationMono(t, t1, t.locations[j], location);
    }
  }

  /** The part of one location of `add` after its mapping: its lines' functions, then the location itself. */
  method AddLinesAndLocation(t: Tables, mappingId: nat, location: ApiLocation) returns (t': Tables, id: nat)
    requires TablesValid(t)
    requires 1 <= mappingId <= |t.mappings| && ResolvesMapping(t.strings, t.mappings[mappingId - 1], location.mapping)
    ensures TablesValid(t') && Extends(t, t') && t'.mappings == t.mappings
    ensures 1 <= id <= |t'.locations| && ResolvesLocation(t', t'.locations[id - 1], location)
    ensures forall j :: 0 <= j < |t.locations| && ResolvesLocation(t, t.locations[j], location) ==> id == j + 1
    ensures t'.strings == InternAll(t.strings, ConcatMap(location.lines, LineNames))
    ensures (t'.locations, id - 1) == InsertFull(t.locations, Id, t'.locations[id - 1])
    ensures (forall j :: 0 <= j < |t.locations| ==> !ResolvesLocation(t', t.locations[j], location)) ==>
      t'.locations == t.locations + [t'.locations[id - 1]] && id == |t.locations| + 1
    ensures |t'.functions| <= |t.functions| + |location.lines|
  {
    var t2, lines := AddLines(t, location.lines);
    MappingMono(t.strings, t2.strings, t2.mappings[mappingId - 1], location.mapping);
    t', id := InsertLocation(t2, mappingId, lines, location);
    ExtendsTrans(t, t2, t');
    forall j | 0 <= j < |t.locations| && ResolvesLocation(t, t.locations[j], location)
      ensures id == j + 1
    {
      LocationMono(t, t2, t.locations[j], location);
    }
  }

  /** Some stored location resolves to the API location `a`. */
  ghost predicate LocationStored(t: Tables, a: ApiLocation) {
    exists j :: 0 <= j < |t.locations| && ResolvesLocation(t, t.locations[j], a)
  }

  /**
   * `add` stopped at location `i`: the locations before it are stored, the
   * strings are those of interning their names, and the tables are full, so
   * the mapping of location `i` is refused.
   */
  ghost predicate StoppedAt(t: Tables, t': Tables, locations: seq<ApiLocation>, i: int) {
    && 0 <= i < |locations|
    && t'.strings == InternAll(t.strings, ConcatMap(locations[..i], LocationNames))
    && (forall k :: 0 <= k < i ==> LocationStored(t', locations[k]))
    && Full(t')
  }

  /** `add` stopped at location `i` of `sample`, after interning its labels and the locations before `i`. */
  ghost predicate SampleStoppedAt(t: Tables, t': Tables, sample: ApiSample, i: int) {
    && 0 <= i < |sample.locations|
    && t'.strings == InternedPart(t.strings, sample, i)
    && (forall k :: 0 <= k < i ==> LocationStored(t', sample.locations[k]))
    && Full(t')
  }

  lemma {:induction false} IdsStored(t: Tables, ids: seq<nat>, api: seq<ApiLocation>, k: int)
    requires ResolvesLocationIds(t, ids, api) && 0 <= k < |api|
    ensures LocationStored(t, api[k])
  {
    assert ResolvesLocation(t, t.locations[ids[k] - 1], api[k]);
  }

  /** The locations of `add`, in order; the first full table stops it with an error. */
  method AddLocations(t: Tables, locations: seq<ApiLocation>) returns (t': Tables, r: Result<seq<nat>, FullError>)
    requires TablesValid(t)
    ensures TablesValid(t') && Extends(t, t')
    ensures r.Err? ==> Full(t')
    ensures r.Ok? ==> ResolvesLocationIds(t', r.value, locations)
    ensures r.Ok? ==> t'.strings == InternAll(t.strings, ConcatMap(locations, LocationNames))
    ensures r.Err? ==> exists i :: 0 <= i < |locations| && t'.strings == InternAll(t.strings, ConcatMap(locations[..i], LocationNames))
    ensures Full(t) && |locations| > 0 ==> r.Err? && t' == t
    ensures r.Err? ==> exists i :: StoppedAt(t, t', locations, i)
    ensures |t'.locations| <= |t.locations| + |locations| && |t'.mappings| <= |t.mappings| + |locations|
  {
    t' := t;
    var ids: seq<nat> := [];
    for i := 0 to |locations|
      invariant TablesValid(t') && Extends(t, t')
      invariant ResolvesLocationIds(t', ids, locations[..i])
      invariant t'.strings == InternAll(t.strings, ConcatMap(locations[..i], LocationNames))
      invariant |t'.locations| <= |t.locations| + i && |t'.mappings| <= |t.mappings| + i
      invariant i == 0 ==> t' == t
      invariant i > 0 ==> !Full(t)
    {
      var t0 := t';
      var id;
      t', id := AddNextLocation(t, t0, ids, locations, i);
      if id.Err? {
        forall k | 0 <= k < i
          ensures LocationStored(t', locations[k])
        {
          IdsStored(t', ids, locations[..i], k);
        }
        assert StoppedAt(t, t', locations, i);
        return t', Err(FullError);
      }
      ids := ids + [id.value];
    }
    assert locations[..|locations|] == locations;
    r := Ok(ids);
  }

  /** Location `i` of `AddLocations`, after the first `i` have been added to `t` giving `t0` and `ids`. */
  method AddNextLocation(t: Tables, t0: Tables, ids: seq<nat>, locations: seq<ApiLocation>, i: nat)
    returns (t': Tables, r: Result<nat, FullError>)
    requires i < |locations| && TablesValid(t0) && Extends(t, t0)
    requires ResolvesLocationIds(t0, ids, locations[..i])
    requires t0.strings == InternAll(t.strings, ConcatMap(locations[..i], LocationNames))
    ensures TablesValid(t') && Extends(t, t')
    ensures r.Err? <==> Full(t0)
    ensures r.Err? ==> t' == t0
    ensures r.Ok? ==> ResolvesLocationIds(t', ids + [r.value], locations[..i + 1])
    ensures r.Ok? ==> t'.strings == InternAll(t.strings, ConcatMap(locations[..i + 1], LocationNames))
    ensures |t'.locations| <= |t0.locations| + 1 && |t'.mappings| <= |t0.mappings| + 1
  {
    t', r := AddLocation(t0, locations[i]);
    if r.Ok? {
      NextLocationStep(t, t0, t', ids, locations, i, r.value);
    }
  }

  /** What one more location of `AddLocations` (interned as `id`, from `t0` to `t'`) adds to its loop invariant. */
  lemma {:induction false} NextLocationStep(t: Tables, t0: Tables, t': Tables, ids: seq<nat>, locations: seq<ApiLocation>, i: nat, id: nat)
    requires i < |locations| && Extends(t, t0) && Extends(t0, t')
    requires ResolvesLocationIds(t0, ids, locations[..i])
    requires t0.strings == InternAll(t.strings, ConcatMap(locations[..i], LocationNames))
    requires LocationInterned(t0, t', id, locations[i])
    ensures Extends(t, t')
    ensures ResolvesLocationIds(t', ids + [id], locations[..i + 1])
    ensures t'.strings == InternAll(t.strings, ConcatMap(locations[..i + 1], LocationNames))
  {
    InternConcatStep(t.strings, locations, LocationNames, i);
    ExtendsTrans(t, t0, t');
    LocationIdsMono(t0, t', ids, locations[..i]);
    AppendResolvesLocationId(t', ids, locations, i, id);
  }

  /** The labels of `add`: each key, string and unit interned in order, a missing string or unit as id 0. */
  method AddLabels(t: Tables, labels: seq<ApiLabel>) returns (t': Tables, ls: seq<Pprof.Label>)
    requires TablesValid(t)
    ensures TablesValid(t') && Extends(t, t')
    ensures t'.mappings == t.mappings && t'.functions == t.functions && t'.locations == t.locations
    ensures ResolvesLabels(t'.strings, ls, labels)
    ensures t'.strings == InternAll(t.strings, ConcatMap(labels, LabelNames))
  {
    t', ls := t, [];
    for i := 0 to |labels|
      invariant TablesValid(t') && Extends(t, t')
      invariant t'.mappings == t.mappings && t'.functions == t.functions && t'.locations == t.locations
      invariant ResolvesLabels(t'.strings, ls, labels[..i])
      invariant t'.strings == InternAll(t.strings, ConcatMap(labels[..i], LabelNames))
    {
      var l := labels[i];
      var (t1, key) := InternIn(t', l.key);
      var (t2, str) := InternOptIn(t1, l.str);
      var (t3, numUnit) := InternOptIn(t2, l.numUnit);
      InternOne(t'.strings, l.key);
      InternOptNames(t1, l.str);
      InternOptNames(t2, l.numUnit);
      InternLabelNames(t'.strings, l);
      InternConcatStep(t.strings, labels, LabelNames, i);
      StringMono(t1.strings, t3.strings, key, l.key);
      OptStringMono(t2.strings, t3.strings, str, l.str);
      ExtendsTrans(t', t1, t2);
      ExtendsTrans(t', t2, t3);
      ExtendsTrans(t, t', t3);
      LabelsMono(t'.strings, t3.strings, ls, labels[..i]);
      AppendResolvesLabel(t3.strings, ls, labels, i, Pprof.Label(key, str, l.num, numUnit));
      ls := ls + [Pprof.Label(key, str, l.num, numUnit)];
      t' := t3;
    }
    assert labels[..|labels|] == labels;
  }

  /**
   * The interning half of `add` for a sample whose values have the right
   * length: its labels, then its locations, giving the stored sample key.
   */
  method InternSample(t: Tables, sample: ApiSample) returns (t': Tables, r: Result<Sample, FullError>)
    requires TablesValid(t)
    ensures TablesValid(t') && Extends(t, t')
    ensures r.Err? ==> Full(t')
    ensures r.Ok? ==> ResolvesSample(t', r.value, sample)
    ensures r.Ok? ==> t'.strings == InternAll(t.strings, SampleNames(sample))
    ensures r.Err? ==> exists i :: 0 <= i < |sample.locations| && t'.strings == InternedPart(t.strings, sample, i)
    ensures Full(t) && |sample.locations| > 0 ==> r.Err? && t'.strings == InternedPart(t.strings, sample, 0)
    ensures r.Err? ==> exists i :: SampleStoppedAt(t, t', sample, i)
    ensures |t'.locations| <= |t.locations| + |sample.locations| && |t'.mappings| <= |t.mappings| + |sample.locations|
  {
    var t1, labels := AddLabels(t, sample.labels);
    var locs;
    t', locs := AddLocations(t1, sample.locations);
    ExtendsTrans(t, t1, t');
    if Full(t) && |sample.locations| > 0 {
      FullMono(t, t1);
      assert sample.locations[..0] == [];
      assert ConcatMap(sample.labels, LabelNames) + ConcatMap(sample.locations[..0], LocationNames) == ConcatMap(sample.labels, LabelNames);
    }
    if locs.Err? {
      ghost var i :| StoppedAt(t1, t', sample.locations, i);
      InternAllAppend(t.strings, ConcatMap(sample.labels, LabelNames), ConcatMap(sample.locations[..i], LocationNames));
      assert t'.strings == InternedPart(t.strings, sample, i);
      assert SampleStoppedAt(t, t', sample, i);
      return t', Err(FullError);
    }
    InternAllAppend(t.strings, ConcatMap(sample.labels, LabelNames), ConcatMap(sample.locations, LocationNames));
    LabelsMono(t1.strings, t'.strings, labels, sample.labels);
    r := Ok(Sample(locs.value, labels));
  }

  /**
   * `add` on the tables `t` and the samples, for a sample whose values have
   * the right length: the sample is interned, then merged into the samples.
   */
  method AddSampleTo(t: Tables, samples: seq<(Sample, seq<int>)>, sample: ApiSample)
    returns (t': Tables, samples': seq<(Sample, seq<int>)>, r: Result<nat, FullError>)
    requires TablesValid(t) && Distinct(samples, Fst)
    ensures TablesValid(t') && Extends(t, t') && Distinct(samples', Fst)
    ensures r.Err? ==> samples' == samples && Full(t')
    ensures r.Ok? ==> 1 <= r.value <= |samples'| && ResolvesSample(t', samples'[r.value - 1].0, sample)
    ensures r.Ok? && samples'[r.value - 1].0 !in Keys(samples) ==>
      samples' == samples + [(samples'[r.value - 1].0, sample.values)] && r.value == |samples'|
    ensures r.Ok? ==>
      forall j :: 0 <= j < |samples| && samples[j].0 == samples'[r.value - 1].0 ==>
        r.value == j + 1 && samples' == samples[j := (samples[j].0, ZipAdd(samples[j].1, sample.values))]
    ensures r.Ok? ==> forall j :: 0 <= j < |samples| && ResolvesSample(t, samples[j].0, sample) ==> r.value == j + 1
    ensures r.Ok? ==> t'.strings == InternAll(t.strings, SampleNames(sample))
    ensures r.Err? ==> exists i :: 0 <= i < |sample.locations| && t'.strings == InternedPart(t.strings, sample, i)
    ensures Full(t) && |sample.locations| > 0 ==> r.Err? && t'.strings == InternedPart(t.strings, sample, 0)
    ensures r.Err? ==> exists i :: SampleStoppedAt(t, t', sample, i)
    ensures |t'.locations| <= |t.locations| + |sample.locations| && |t'.mappings| <= |t.mappings| + |sample.locations|
  {
    var interned;
    t', interned := InternSample(t, sample);
    if interned.Err? {
      return t', samples, Err(FullError);
    }
    var s := interned.value;
    forall j | 0 <= j < |samples| && ResolvesSample(t, samples[j].0, sample)
      ensures samples[j].0 == s
    {
      SampleMono(t, t', samples[j].0, sample);
      SampleUnique(t', samples[j].0, s, sample);
    }
    var id;
    samples', id := MergeSample(samples, s, sample.values);
    r := Ok(id);
  }

  /**
   * The sample step of `add`: a new sample is appended with its values and
   * gets id = the new length; a known one has the values added into its own
   * and keeps its id (position + 1).
   */
  method MergeSample(samples: seq<(Sample, seq<int>)>, s: Sample, values: seq<int>) returns (samples': seq<(Sample, seq<int>)>, id: nat)
    requires Distinct(samples, Fst)
    ensures Distinct(samples', Fst)
    ensures 1 <= id <= |samples'| && samples'[id - 1].0 == s
    ensures s !in Keys(samples) ==> samples' == samples + [(s, values)] && id == |samples'|
    ensures forall j :: 0 <= j < |samples| && samples[j].0 == s ==>
      id == j + 1 && samples' == samples[j := (s, ZipAdd(samples[j].1, values))]
  {
    match IndexOf(samples, Fst, s) {
      case None =>
        DistinctAppend(samples, Fst, (s, values));
        samples' := samples + [(s, values)];
        id := |samples'|;
      case Some(index) =>
        var merged := AddAssignZip(samples[index].1, values);
        DistinctUpdate(samples, Fst, index, (s, merged));
        forall j | 0 <= j < |samples| && samples[j].0 == s
          ensures j == index
        {
          DistinctAt(samples, Fst, j, index);
        }
        samples' := samples[index := (s, merged)];
        id := index + 1;
    }
  }

  /** Both ids of a value type name strings in the table. */
  predicate KnownValueType(strings: seq<string>, v: Pprof.ValueType) {
    0 <= v.typ < |strings| && 0 <= v.unit < |strings|
  }

  predicate KnownValueTypes(strings: seq<string>, vs: seq<Pprof.ValueType>) {
    forall i :: 0 <= i < |vs| ==> KnownValueType(strings, vs[i])
  }

  /** A value type with its strings looked up. */
  function ApiValueTypeOf(strings: seq<string>, v: Pprof.ValueType): (r: ApiValueType)
    requires KnownValueType(strings, v)
    ensures ResolvesValueType(strings, v, r)
  {
    ApiValueType(strings[v.typ], strings[v.unit])
  }

  function ApiValueTypes(strings: seq<string>, vs: seq<Pprof.ValueType>): (r: seq<ApiValueType>)
    requires KnownValueTypes(strings, vs)
    ensures ResolvesValueTypes(strings, vs, r)
  {
    seq(|vs|, i requires 0 <= i < |vs| => ApiValueTypeOf(strings, vs[i]))
  }

  /** A stored period with its strings looked up. */
  function ApiPeriodOf(strings: seq<string>, p: Option<(int, Pprof.ValueType)>): Option<ApiPeriod>
    requires p.Some? ==> KnownValueType(strings, p.value.1)
  {
    match p
    case None => None
    case Some((value, v)) => Some(ApiPeriod(ApiValueTypeOf(strings, v), value))
  }

  /** Looking up interned value types gives back the API value types they were interned from. */
  lemma {:induction false} ApiValueTypesRoundTrip(strings: seq<string>, vs: seq<Pprof.ValueType>, api: seq<ApiValueType>)
    requires ResolvesValueTypes(strings, vs, api)
    ensures KnownValueTypes(strings, vs) && ApiValueTypes(strings, vs) == api
  {
    assert forall i :: 0 <= i < |vs| ==> ResolvesValueType(strings, vs[i], api[i]);
  }

  lemma {:induction false} StringIdOf(strings: seq<string>, id: int, s: string)
    requires Distinct(strings, Id) && ResolvesString(strings, id, s)
    ensures StringId(strings, s) == id
  {
    IndexOfDistinct(strings, Id, id);
  }

  /** Every field of a version-1 profile, as one value. */
  datatype State = State(
    sampleTypes: seq<Pprof.ValueType>,
    samples: seq<(Sample, seq<int>)>,
    mappings: seq<Mapping>,
    locations: seq<Pprof.Location>,
    functions: seq<Pprof.Function>,
    strings: seq<string>,
    startTime: int,
    period: Option<(int, Pprof.ValueType)>,
    endpoints: Endpoints)

  /**
   * The endpoint bookkeeping of a profile: local root span id (string id) to
   * endpoint (string id), in insertion order; the string ids of the two label
   * names; and the endpoint counts, as the map a `ProfiledEndpointsStats` holds.
   */
  datatype Endpoints = Endpoints(mappings: seq<(int, int)>, localRootSpanIdLabel: int, endpointLabel: int, stats: seq<(string, int)>)

  /** `Endpoints::new`: everything at its default. */
  const NoEndpoints := Endpoints([], 0, 0, [])

  class Profile {
    var sampleTypes: seq<Pprof.ValueType>
    var samples: seq<(Sample, seq<int>)>
    var mappings: seq<Mapping>
    var locations: seq<Pprof.Location>
    var functions: seq<Pprof.Function>
    var strings: seq<string>
    var startTime: int
    var period: Option<(int, Pprof.ValueType)>
    var endpoints: Endpoints

    function Interned(): Tables
      reads this
    {
      Tables(strings, mappings, functions, locations)
    }

    ghost predicate Valid()
      reads this
    {
      TablesValid(Interned()) && Distinct(samples, Fst) && Distinct(endpoints.mappings, Fst) && Distinct(endpoints.stats, Fst)
    }

    function Snapshot(): State
      reads this
    {
      State(sampleTypes, samples, mappings, locations, functions, strings, startTime, period, endpoints)
    }

    /**
     * The state `build` leaves: no samples, no interned records and no
     * endpoints; the sample types and the period interned, in order, after
     * the empty string.
     */
    ghost predicate Built(types: seq<ApiValueType>, apiPeriod: Option<ApiPeriod>, start: int)
      reads this
    {
      && Valid()
      && samples == [] && mappings == [] && locations == [] && functions == []
      && startTime == start && endpoints == NoEndpoints
      && strings == InternAll([""], BuildNames(types, apiPeriod))
      && ResolvesValueTypes(strings, sampleTypes, types)
      && (period.None? <==> apiPeriod.None?)
      && (period.Some? ==> period.value.0 == apiPeriod.value.value && ResolvesValueType(strings, period.value.1, apiPeriod.value.typ))
    }

    /** `Profile::new`: every table empty except the string table, which holds the empty string. */
    constructor (startTime: int)
      ensures Valid()
      ensures sampleTypes == [] && samples == [] && mappings == [] && locations == [] && functions == []
      ensures strings == [""] && this.startTime == startTime && period == None && endpoints == NoEndpoints
    {
      sampleTypes, samples, mappings, locations, functions := [], [], [], [], [];
      strings := [""];
      this.startTime := startTime;
      period := None;
      endpoints := NoEndpoints;
    }

    /**
     * `ProfileBuilder::build`: a new profile (started at `startTime`, or at
     * `now` when none is given) whose sample types and period are interned,
     * each name before its unit.
     */
    constructor Build(types: seq<ApiValueType>, apiPeriod: Option<ApiPeriod>, startTime: Option<int>, now: int)
      ensures Built(types, apiPeriod, if startTime.Some? then startTime.value else now)
    {
      var table, st := InternTypes([""], types);
      var p;
      table, p := InternPeriod(table, st, types, apiPeriod);
      sampleTypes, samples, mappings, locations, functions := st, [], [], [], [];
      strings := table;
      this.startTime := if startTime.Some? then startTime.value else now;
      period := p;
      endpoints := NoEndpoints;
    }

    /** The period of `build`, its name and unit interned into `table` after the sample types'. */
    static method InternPeriod(table: seq<string>, st: seq<Pprof.ValueType>, types: seq<ApiValueType>, apiPeriod: Option<ApiPeriod>)
      returns (table': seq<string>, p: Option<(int, Pprof.ValueType)>)
      requires |table| > 0 && table[0] == "" && Distinct(table, Id)
      requires table == InternAll([""], TypeNames(types)) && ResolvesValueTypes(table, st, types)
      ensures |table'| > 0 && table'[0] == "" && Distinct(table', Id)
      ensures table' == InternAll([""], BuildNames(types, apiPeriod))
      ensures ResolvesValueTypes(table', st, types)
      ensures p.None? <==> apiPeriod.None?
      ensures p.Some? ==> p.value.0 == apiPeriod.value.value && ResolvesValueType(table', p.value.1, apiPeriod.value.typ)
    {
      BuildNamesPeriod(types, apiPeriod);
      table', p := table, None;
      if apiPeriod.Some? {
        var vt := apiPeriod.value.typ;
        var (t1, typ) := InsertFull(table, Id, vt.typ);
        var (t2, unit) := InsertFull(t1, Id, vt.unit);
        assert table <= t1 <= t2;
        StringMono(t1, t2, typ, vt.typ);
        ValueTypesMono(table, t2, st, types);
        table', p := t2, Some((apiPeriod.value.value, Pprof.ValueType(typ, unit)));
      }
    }

    /** The sample types of `build` interned in order into `table`, each name before its unit. */
    static method InternTypes(table: seq<string>, types: seq<ApiValueType>) returns (table': seq<string>, st: seq<Pprof.ValueType>)
      requires |table| > 0 && table[0] == "" && Distinct(table, Id)
      ensures |table'| > 0 && table'[0] == "" && Distinct(table', Id)
      ensures table' == InternAll(table, TypeNames(types))
      ensures ResolvesValueTypes(table', st, types)
    {
      table' := table;
      assert types[0..] == types;
      st := [];
      var i := 0;
      while i < |types|
        invariant 0 <= i <= |types|
        invariant InternAll(table', TypeNames(types[i..])) == InternAll(table, TypeNames(types))
        invariant |table'| > 0 && table'[0] == "" && Distinct(table', Id)
        invariant ResolvesValueTypes(table', st, types[..i])
      {
        var (t1, typ) := InsertFull(table', Id, types[i].typ);
        var (t2, unit) := InsertFull(t1, Id, types[i].unit);
        assert table' <= t1 <= t2;
        StringMono(t1, t2, typ, types[i].typ);
        ValueTypesMono(table', t2, st, types[..i]);
        AppendResolvesValueType(t2, st, types, i, Pprof.ValueType(typ, unit));
        st := st + [Pprof.ValueType(typ, unit)];
        assert types[i..][1..] == types[i + 1..];
        InternTwo(table', types[i].typ, types[i].unit, TypeNames(types[i + 1..]));
        table' := t2;
        i := i + 1;
      }
      assert types[|types|..] == [] && types[..|types|] == types;
    }

    /** `intern`: the string's id, appending it to the table when new. */
    method Intern(s: string) returns (id: nat)
      requires Valid()
      modifies this`strings
      ensures Valid()
      ensures (strings, id) == InsertFull(old(strings), Id, s)
      ensures ResolvesString(strings, id, s) && old(strings) <= strings
    {
      var (t, i) := InsertFull(strings, Id, s);
      strings, id := t, i;
    }

    /** `get_string`: the string with that id, if the table has one (a negative id has none). */
    function GetString(id: int): (r: Option<string>)
      reads this
      ensures r.Some? <==> 0 <= id < |strings|
      ensures r.Some? ==> r.value == strings[id]
    {
      if 0 <= id < |strings| then Some(strings[id]) else None
    }

    /**
     * `add`: a sample whose value count differs from the sample types' is
     * ignored with id 0. Otherwise labels, then locations (mappings, then
     * functions) are interned into the tables; a full table stops `add` with
     * an error, leaving the samples as they were. The sample, without its
     * values, is then deduplicated: a new one is appended with its values, a
     * known one has the values added into its own. Its id is position + 1.
     */
    method Add(sample: ApiSample) returns (r: Result<nat, FullError>)
      requires Valid()
      modifies this`strings, this`mappings, this`functions, this`locations, this`samples
      ensures Valid() && Extends(old(Interned()), Interned())
      ensures |sample.values| != |sampleTypes| ==> r == Ok(0) && Interned() == old(Interned()) && samples == old(samples)
      ensures r.Err? ==> samples == old(samples) && Full(Interned())
      ensures r.Ok? && |sample.values| == |sampleTypes| ==>
        1 <= r.value <= |samples| && ResolvesSample(Interned(), samples[r.value - 1].0, sample)
      ensures r.Ok? && |sample.values| == |sampleTypes| && samples[r.value - 1].0 !in Keys(old(samples)) ==>
        samples == old(samples) + [(samples[r.value - 1].0, sample.values)] && r.value == |samples|
      ensures r.Ok? && |sample.values| == |sampleTypes| ==>
        forall j :: 0 <= j < |old(samples)| && old(samples)[j].0 == samples[r.value - 1].0 ==>
          r.value == j + 1 && samples == old(samples)[j := (old(samples)[j].0, ZipAdd(old(samples)[j].1, sample.values))]
      ensures r.Ok? && |sample.values| == |sampleTypes| ==>
        forall j :: 0 <= j < |old(samples)| && ResolvesSample(old(Interned()), old(samples)[j].0, sample) ==> r.value == j + 1
      ensures r.Ok? && |sample.values| == |sampleTypes| ==> strings == InternAll(old(strings), SampleNames(sample))
      ensures r.Err? ==> exists i :: 0 <= i < |sample.locations| && strings == InternedPart(old(strings), sample, i)
      ensures Full(old(Interned())) && |sample.locations| > 0 && |sample.values| == |sampleTypes| ==>
        r.Err? && strings == InternedPart(old(strings), sample, 0)
      ensures r.Err? ==> exists i :: SampleStoppedAt(old(Interned()), Interned(), sample, i)
      ensures |locations| <= |old(locations)| + |sample.locations| && |mappings| <= |old(mappings)| + |sample.locations|
    {
      if |sample.values| != |sampleTypes| {
        return Ok(0);
      }
      var t', samples', id := AddSampleTo(Interned(), samples, sample);
      strings, mappings, functions, locations, samples := t'.strings, t'.mappings, t'.functions, t'.locations, samples';
      assert Interned() == t';
      r := id;
    }

    /** `extract_api_sample_types`: the sample types with their strings looked up; none if an id is unknown. */
    method ExtractApiSampleTypes() returns (r: Option<seq<ApiValueType>>)
      ensures r.Some? <==> KnownValueTypes(strings, sampleTypes)
      ensures r.Some? ==> r.value == ApiValueTypes(strings, sampleTypes)
    {
      var types: seq<ApiValueType> := [];
      for i := 0 to |sampleTypes|
        invariant KnownValueTypes(strings, sampleTypes[..i])
        invariant types == ApiValueTypes(strings, sampleTypes[..i])
      {
        var v := sampleTypes[i];
        var typ := GetString(v.typ);
        var unit := GetString(v.unit);
        if typ.None? || unit.None? {
          return None;
        }
        assert sampleTypes[..i + 1] == sampleTypes[..i] + [v];
        types := types + [ApiValueType(typ.value, unit.value)];
      }
      assert sampleTypes[..|sampleTypes|] == sampleTypes;
      r := Some(types);
    }

    /**
     * `reset`: on success this profile is replaced by a fresh one, built from
     * the same sample types and period (looked up as strings and interned
     * anew) and the new start time, and the previous state is returned; when
     * a sample type or period id names no string, nothing changes.
     */
    method Reset(startTime: Option<int>, now: int) returns (prev: Option<Profile>)
      requires Valid()
      modifies this
      ensures prev.Some? <==>
        KnownValueTypes(old(strings), old(sampleTypes)) && (old(period).Some? ==> KnownValueType(old(strings), old(period).value.1))
      ensures prev.None? ==> unchanged(this)
      ensures prev.Some? ==> fresh(prev.value)
      ensures prev.Some? ==> prev.value.Snapshot() == old(Snapshot()) && prev.value.Valid()
      ensures prev.Some? ==>
        Built(ApiValueTypes(old(strings), old(sampleTypes)), ApiPeriodOf(old(strings), old(period)),
              if startTime.Some? then startTime.value else now)
    {
      var types := ExtractApiSampleTypes();
      if types.None? {
        return None;
      }
      var apiPeriod: Option<ApiPeriod> := None;
      if period.Some? {
        var typ := GetString(period.value.1.typ);
        var unit := GetString(period.value.1.unit);
        if typ.None? || unit.None? {
          return None;
        }
        apiPeriod := Some(ApiPeriod(ApiValueType(typ.value, unit.value), period.value.0));
      }
      assert apiPeriod == ApiPeriodOf(strings, period);
      var p := new Profile.Build(types.value, apiPeriod, startTime, now);
      Swap(p);
      prev := Some(p);
    }

    /** Overwrite every field with those of `s`. */
    method SetState(s: State)
      modifies this
      ensures Snapshot() == s
    {
      sampleTypes, samples, mappings := s.sampleTypes, s.samples, s.mappings;
      locations, functions, strings := s.locations, s.functions, s.strings;
      startTime, period, endpoints := s.startTime, s.period, s.endpoints;
    }

    /** `std::mem::swap` of two profiles. */
    method Swap(p: Profile)
      requires p != this
      modifies this, p
      ensures Snapshot() == old(p.Snapshot()) && p.Snapshot() == old(Snapshot())
    {
      var mine, theirs := Snapshot(), p.Snapshot();
      SetState(theirs);
      p.SetState(mine);
    }

    /**
     * `add_endpoint`: the first endpoint interns the two label names; then
     * the span id and the endpoint are interned, the span id is mapped to the
     * endpoint (a later endpoint for the same span replacing the earlier),
     * and the endpoint's count goes up by one.
     */
    method AddEndpoint(localRootSpanId: string, endpoint: string)
      requires Valid()
      modifies this`strings, this`endpoints
      ensures Valid() && old(strings) <= strings
      ensures old(endpoints.mappings) == [] ==>
        ResolvesString(strings, endpoints.localRootSpanIdLabel, "local root span id") &&
        ResolvesString(strings, endpoints.endpointLabel, "trace endpoint")
      ensures old(endpoints.mappings) != [] ==>
        endpoints.localRootSpanIdLabel == old(endpoints.localRootSpanIdLabel) && endpoints.endpointLabel == old(endpoints.endpointLabel)
      ensures localRootSpanId in strings && endpoint in strings
      ensures endpoints.mappings == Insert(old(endpoints.mappings), StringId(strings, localRootSpanId), StringId(strings, endpoint))
      ensures endpoints.stats == Counted(old(endpoints.stats), endpoint)
      ensures strings == InternAll(old(strings), EndpointNames(old(endpoints.mappings) == [], localRootSpanId, endpoint))
    {
      var t, e := AddEndpointTo(Interned(), endpoints, localRootSpanId, endpoint);
      strings, endpoints := t.strings, e;
      assert Interned() == t;
    }

    /** `add_endpoint` on the interned tables `t` and the endpoint bookkeeping `e`, as values. */
    static method AddEndpointTo(t: Tables, e: Endpoints, localRootSpanId: string, endpoint: string) returns (t': Tables, e': Endpoints)
      requires TablesValid(t) && Distinct(e.mappings, Fst) && Distinct(e.stats, Fst)
      ensures TablesValid(t') && t' == t.(strings := t'.strings) && t.strings <= t'.strings
      ensures Distinct(e'.mappings, Fst) && Distinct(e'.stats, Fst)
      ensures e.mappings == [] ==>
        ResolvesString(t'.strings, e'.localRootSpanIdLabel, "local root span id") &&
        ResolvesString(t'.strings, e'.endpointLabel, "trace endpoint")
      ensures e.mappings != [] ==> e'.localRootSpanIdLabel == e.localRootSpanIdLabel && e'.endpointLabel == e.endpointLabel
      ensures localRootSpanId in t'.strings && endpoint in t'.strings
      ensures e'.mappings == Insert(e.mappings, StringId(t'.strings, localRootSpanId), StringId(t'.strings, endpoint))
      ensures e'.stats == Counted(e.stats, endpoint)
      ensures t'.strings == InternAll(t.strings, EndpointNames(e.mappings == [], localRootSpanId, endpoint))
    {
      var first := e.mappings == [];
      var spanIdLabel, endpointLabel, spanId, endpointId;
      t', spanIdLabel, endpointLabel, spanId, endpointId := InternEndpoint(t, first, localRootSpanId, endpoint);
      e' := e;
      if first {
        e' := e'.(localRootSpanIdLabel := spanIdLabel, endpointLabel := endpointLabel);
      }
      CountedKeys(e.stats, endpoint);
      e' := e'.(mappings := Insert(e.mappings, spanId, endpointId), stats := Counted(e.stats, endpoint));
    }

    /** The strings `add_endpoint` interns: the two label names the first time, then the span id and the endpoint. */
    static method InternEndpoint(t: Tables, first: bool, localRootSpanId: string, endpoint: string)
      returns (t': Tables, spanIdLabel: nat, endpointLabel: nat, spanId: nat, endpointId: nat)
      requires TablesValid(t)
      ensures TablesValid(t') && t.strings <= t'.strings
      ensures t' == t.(strings := t'.strings)
      ensures first ==>
        ResolvesString(t'.strings, spanIdLabel, "local root span id") && ResolvesString(t'.strings, endpointLabel, "trace endpoint")
      ensures localRootSpanId in t'.strings && endpoint in t'.strings
      ensures StringId(t'.strings, localRootSpanId) == spanId && StringId(t'.strings, endpoint) == endpointId
      ensures t'.strings == InternAll(t.strings, EndpointNames(first, localRootSpanId, endpoint))
    {
      t', spanIdLabel, endpointLabel := t, 0, 0;
      if first {
        var (t1, a) := InternIn(t', "local root span id");
        var (t2, b) := InternIn(t1, "trace endpoint");
        StringMono(t1.strings, t2.strings, a, "local root span id");
        ExtendsTrans(t, t1, t2);
        t', spanIdLabel, endpointLabel := t2, a, b;
      }
      var t0 := t';
      var (t1, sid) := InternIn(t', localRootSpanId);
      var (t2, eid) := InternIn(t1, endpoint);
      InternTwo(t0.strings, localRootSpanId, endpoint, []);
      assert [localRootSpanId, endpoint] + [] == [localRootSpanId, endpoint];
      if first {
        InternTwo(t.strings, "local root span id", "trace endpoint", [localRootSpanId, endpoint]);
      } else {
        assert EndpointNames(first, localRootSpanId, endpoint) == [localRootSpanId, endpoint];
      }
      StringMono(t1.strings, t2.strings, sid, localRootSpanId);
      if first {
        StringMono(t0.strings, t2.strings, spanIdLabel, "local root span id");
        StringMono(t0.strings, t2.strings, endpointLabel, "trace endpoint");
      }
      ExtendsTrans(t0, t1, t2);
      ExtendsTrans(t, t0, t2);
      StringIdOf(t2.strings, sid, localRootSpanId);
      StringIdOf(t2.strings, eid, endpoint);
      t', spanId, endpointId := t2, sid, eid;
    }

    /**
     * What the conversion to pprof produces: the sample types, string table
     * and period as stored; each sample with its values and, when its span
     * has an endpoint, the endpoint label added; mappings, locations and
     * functions with id position + 1; the start time in nanoseconds and no
     * duration yet.
     */
    ghost predicate Exports(p: Pprof.Profile)
      reads this
    {
      && p.sampleTypes == sampleTypes
      && |p.samples| == |samples|
      && (forall i :: 0 <= i < |samples| ==>
            p.samples[i] == ExportedSample(samples[i], endpoints.localRootSpanIdLabel, endpoints.endpointLabel, endpoints.mappings))
      && |p.mappings| == |mappings| && (forall i :: 0 <= i < |mappings| ==> p.mappings[i] == ExportedMapping(i, mappings[i]))
      && |p.locations| == |locations| && (forall i :: 0 <= i < |locations| ==> p.locations[i] == locations[i].(id := i + 1))
      && |p.functions| == |functions| && (forall i :: 0 <= i < |functions| ==> p.functions[i] == functions[i].(id := i + 1))
      && p.stringTable == strings
      && p.timeNanos == TimeNanos(startTime)
      && p.period == (if period.Some? then period.value.0 else 0)
      && p.periodType == (if period.Some? then Some(period.value.1) else None)
      && p.dropFrames == 0 && p.keepFrames == 0 && p.comment == [] && p.defaultSampleType == 0
    }

    /** The endpoint of one sample: the first label keyed by the span-id label decides. */
    static method FindEndpoint(labels: seq<Pprof.Label>, spanIdLabel: int, mappings: seq<(int, int)>) returns (endpoint: Option<int>)
      ensures endpoint == EndpointOf(labels, spanIdLabel, mappings)
    {
      endpoint := None;
      var i := 0;
      while i < |labels|
        invariant 0 <= i <= |labels|
        invariant forall j :: 0 <= j < i ==> labels[j].key != spanIdLabel
      {
        if labels[i].key == spanIdLabel {
          endpoint := Get(mappings, labels[i].str);
          assert IndexOf(labels, Pprof.LabelKey, spanIdLabel) == Some(i);
          return;
        }
        i := i + 1;
      }
      assert IndexOf(labels, Pprof.LabelKey, spanIdLabel) == None;
    }

    /** The samples of the export, the endpoint label added (when some endpoint is recorded) to those whose span has one. */
    static method ExportSamples(samples: seq<(Sample, seq<int>)>, spanIdLabel: int, endpointLabel: int, mappings: seq<(int, int)>)
      returns (out: seq<Pprof.Sample>)
      ensures |out| == |samples|
      ensures forall i :: 0 <= i < |samples| ==> out[i] == ExportedSample(samples[i], spanIdLabel, endpointLabel, mappings)
    {
      out := seq(|samples|, i requires 0 <= i < |samples| => PlainSample(samples[i]));
      if mappings != [] {
        for i := 0 to |out|
          invariant |out| == |samples|
          invariant forall k :: 0 <= k < i ==> out[k] == ExportedSample(samples[k], spanIdLabel, endpointLabel, mappings)
          invariant forall k :: i <= k < |out| ==> out[k] == PlainSample(samples[k])
        {
          var endpoint := FindEndpoint(out[i].labels, spanIdLabel, mappings);
          ghost var before := out;
          if endpoint.Some? {
            out := out[i := WithEndpoint(out[i], endpointLabel, endpoint.value)];
          }
          ExportStep(samples[i], spanIdLabel, endpointLabel, mappings);
          assert forall k :: 0 <= k < |out| && k != i ==> out[k] == before[k];
        }
      } else {
        forall k | 0 <= k < |samples|
          ensures out[k] == ExportedSample(samples[k], spanIdLabel, endpointLabel, mappings)
        {
          assert EndpointOf(samples[k].0.labels, spanIdLabel, mappings).None?;
        }
      }
    }

    /** `From<&Profile> for pprof::Profile`. */
    method ToPprof() returns (p: Pprof.Profile)
      ensures Exports(p) && p.durationNanos == 0
    {
      var periodValue, periodType := 0, None;
      if period.Some? {
        periodValue, periodType := period.value.0, Some(period.value.1);
      }
      var out := ExportSamples(samples, endpoints.localRootSpanIdLabel, endpoints.endpointLabel, endpoints.mappings);
      var ms, ls, fs := mappings, locations, functions;
      p := Pprof.Profile(
        sampleTypes,
        out,
        seq(|ms|, i requires 0 <= i < |ms| => ExportedMapping(i, ms[i])),
        seq(|ls|, i requires 0 <= i < |ls| => ls[i].(id := i + 1)),
        seq(|fs|, i requires 0 <= i < |fs| => fs[i].(id := i + 1)),
        strings,
        0, 0,
        TimeNanos(startTime),
        0,
        periodType,
        periodValue,
        [],
        0);
    }

    /**
     * `serialize`: the export with its duration set: the given one, else end
     * minus start (0 when the clock went backwards), saturated to
     * `i64::MAX`; the end is the given time or `now`. The endpoint counts
     * travel alongside.
     */
    method Serialize(endTime: Option<int>, duration: Option<nat>, now: int) returns (e: EncodedProfile)
      ensures e.start == startTime && e.end == (if endTime.Some? then endTime.value else now)
      ensures Exports(e.profile) && e.profile.durationNanos == ProfileDuration(startTime, e.end, duration)
      ensures e.endpointsStats == endpoints.stats
    {
      var end := if endTime.Some? then endTime.value else now;
      var p := ToPprof();
      p := p.(durationNanos := ProfileDuration(startTime, end, duration));
      e := EncodedProfile(startTime, end, p, endpoints.stats);
    }
  }
}
