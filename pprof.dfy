/**
 * The pprof `profile.proto` records the version-2 profiler exports
 * (profiling/src/profile/v2/pprof.rs). Indexes into the string table are
 * `int` (Rust `i64`); ids, addresses and offsets are `nat` (Rust `u64`).
 * Id 0 is reserved by pprof, so stored ids start at 1.
 */
module Pprof {
  import opened Wrappers

  datatype ValueType = ValueType(typ: int, unit: int)

  /** libdatadog only records string-valued labels; `num` and `numUnit` are carried along. */
  datatype Label = Label(key: int, str: int, num: int, numUnit: int)

  /** `Label::str`: a string label with no numeric part. */
  function StrLabel(key: int, str: int): (l: Label)
    ensures l.key == key && l.str == str
    ensures l.num == 0 && l.numUnit == 0
  {
    Label(key, str, 0, 0)
  }

  /** A label's key and its string value, as lookup projections. */
  function LabelKey(l: Label): int { l.key }
  function LabelStr(l: Label): int { l.str }

  datatype Mapping = Mapping(
    id: nat,
    memoryStart: nat,
    memoryLimit: nat,
    fileOffset: nat,
    filename: int,
    buildId: int,
    hasFunctions: bool,
    hasFilenames: bool,
    hasLineNumbers: bool,
    hasInlineFrames: bool)
  {
    /** The derived `PartialEq`, told to ignore `id`. */
    predicate Eq(other: Mapping) {
      && memoryStart == other.memoryStart
      && memoryLimit == other.memoryLimit
      && fileOffset == other.fileOffset
      && filename == other.filename
      && buildId == other.buildId
      && hasFunctions == other.hasFunctions
      && hasFilenames == other.hasFilenames
      && hasLineNumbers == other.hasLineNumbers
      && hasInlineFrames == other.hasInlineFrames
    }
  }

  datatype Line = Line(functionId: nat, lineNumber: int)

  datatype Location = Location(id: nat, mappingId: nat, address: nat, lines: seq<Line>, isFolded: bool)
  {
    /** The derived `PartialEq`, told to ignore `id`. */
    predicate Eq(other: Location) {
      mappingId == other.mappingId && address == other.address && lines == other.lines && isFolded == other.isFolded
    }
  }

  datatype Function = Function(id: nat, name: int, systemName: int, filename: int, startLine: int)
  {
    /** The derived `PartialEq`, told to ignore `id`. */
    predicate Eq(other: Function) {
      name == other.name && systemName == other.systemName && filename == other.filename && startLine == other.startLine
    }
  }

  /** The identity a record has in a hash set: everything but its `id`. */
  function MappingKey(m: Mapping): Mapping { m.(id := 0) }
  function LocationKey(l: Location): Location { l.(id := 0) }
  function FunctionKey(f: Function): Function { f.(id := 0) }

  /** Two mappings are equal exactly when they agree on every field but `id`. */
  lemma {:induction false} MappingEqIgnoresId(a: Mapping, b: Mapping)
    ensures a.Eq(b) <==> a.(id := b.id) == b
    ensures a.Eq(b) <==> MappingKey(a) == MappingKey(b)
  {
  }

  /** Two locations are equal exactly when they agree on mapping, address, lines and folding. */
  lemma {:induction false} LocationEqIgnoresId(a: Location, b: Location)
    ensures a.Eq(b) <==> a.(id := b.id) == b
    ensures a.Eq(b) <==> LocationKey(a) == LocationKey(b)
  {
  }

  /** Two functions are equal exactly when they agree on name, system name, file and start line. */
  lemma {:induction false} FunctionEqIgnoresId(a: Function, b: Function)
    ensures a.Eq(b) <==> a.(id := b.id) == b
    ensures a.Eq(b) <==> FunctionKey(a) == FunctionKey(b)
  {
  }

  datatype Sample = Sample(locationIds: seq<nat>, values: seq<int>, labels: seq<Label>)

  datatype Profile = Profile(
    sampleTypes: seq<ValueType>,
    samples: seq<Sample>,
    mappings: seq<Mapping>,
    locations: seq<Location>,
    functions: seq<Function>,
    stringTable: seq<string>,
    dropFrames: int,
    keepFrames: int,
    timeNanos: int,
    durationNanos: int,
    periodType: Option<ValueType>,
    period: int,
    comment: seq<int>,
    defaultSampleType: int)
}
