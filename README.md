# libdatadog profile aggregation and payload collection, modelled in Dafny

This project models the parts of libdatadog that gather profiling samples into
pprof profiles and that collect tracer payloads before they are sent:

- **Profile (v1)** (`profiling/src/profile/mod.rs`). The classic profile does
  four things:
  - It interns strings into a string table whose slot 0 is the empty string.
  - It deduplicates mappings, functions and locations into index sets. The
    pprof id of each is its position plus one.
  - It merges samples with equal labels and locations by adding their values
    element-wise.
  - It records endpoints: a local root span id maps to an endpoint name, and
    a per-endpoint count is kept. On export to pprof, each sample whose span
    has an endpoint gets an extra endpoint label.

  It also has `reset`, which hands back the old profile and starts a fresh
  one with the same sample types and period. `serialize` computes the
  duration with saturation to `i64::MAX`.
- **Profile (v2)** (`profiling/src/profile/v2/`). Four pieces:
  - a string table;
  - a `ProfileSet` that hands out ids of the form position + 1;
  - a `ProfileStorage` of functions, locations and mappings;
  - the profile itself, with its `new` error checks, `add_sample`, endpoint
    lookup, `into_pprof` and `serialize`.
- **Profiled endpoint stats** (`ddcommon/src/profiled_endpoints.rs`): how
  many times each endpoint was seen, in first-seen order.
- **Tracer payload collection** (`trace-utils/src/tracer_payload.rs`): the
  v0.7 and v0.4 collections with `append`, `merge` and `size`. `merge` sorts
  the payloads and folds each run that compares Equal into its first member.
- **FFI vector** (`ddcommon-ffi/src/vec.rs`): a buffer, a length and a
  capacity, handed across the C boundary.

Rust's `IndexSet` and `IndexMap` become a sequence with a key projection
(module `IndexSet`). Insertion order is the sequence order. Tables the source
mutates in place are class fields of sequence type, which the methods
reassign. The FFI vector's buffer is an `array`. The clock (`SystemTime::now`)
becomes a `now` parameter. Payload ordering (`cmp_send_data_payloads`)
becomes a comparison parameter, required to be a total preorder.

## Model

| member | source | states |
|---|---|---|
| Wrappers.SaturateI64 | profiling/src/profile/mod.rs:566-571 | the result never exceeds `i64::MAX`; it equals the input exactly when the input fits, and is `i64::MAX` otherwise |
| IndexSet.IndexOf | profiling/src/profile/mod.rs:175-181 | the position found holds the key and no earlier element does; none is found exactly when no element has the key |
| IndexSet.IndexOfDistinct | profiling/src/profile/mod.rs:175-181 | in a duplicate-free set, looking up an element's key finds that element's own position |
| IndexSet.DistinctAt | profiling/src/profile/mod.rs:169-181 | in a duplicate-free set two positions hold the same key exactly when they are the same position |
| IndexSet.DistinctAppend | profiling/src/profile/mod.rs:169-173 | appending an element whose key is absent keeps the set duplicate-free |
| IndexSet.DistinctUpdate | ddcommon/src/profiled_endpoints.rs:58-64 | replacing an element by one with the same key keeps the set duplicate-free |
| IndexSet.InsertFull | profiling/src/profile/mod.rs:169-173 | the returned index holds the key; a present key leaves the set unchanged; an absent one is appended at the old length; the old elements keep their places; duplicate-freedom is preserved |
| IndexSet.InsertFullIdempotent | profiling/src/profile/mod.rs:169-173 | inserting the same item twice gives the same set and index as inserting it once |
| IndexSet.Get | ddcommon/src/profiled_endpoints.rs:54-55 | the lookup is absent exactly when the key is not among the map's keys, and a found value is paired with the key in the map |
| IndexSet.GetDistinct | ddcommon/src/profiled_endpoints.rs:54-55 | in a duplicate-free map, looking up a stored key gives its stored value |
| IndexSet.Insert | ddcommon/src/profiled_endpoints.rs:30-38 | the keys stay the same when the key is present and gain the key at the end otherwise; duplicate-freedom is preserved |
| IndexSet.IndexOfSameKeys | ddcommon/src/profiled_endpoints.rs:54-67 | two sequences with the same keys position by position give the same lookup result |
| IndexSet.InsertGetKnown | ddcommon/src/profiled_endpoints.rs:30-38 | after inserting over a present key, that key maps to the new value and every other key to what it had |
| IndexSet.IndexOfAppend | ddcommon/src/profiled_endpoints.rs:54-58 | appending an element with another key does not change where a key is found |
| IndexSet.InsertGetNew | ddcommon/src/profiled_endpoints.rs:30-38 | after inserting an absent key, that key maps to the new value and every other key to what it had |
| IndexSet.InsertGet | ddcommon/src/profiled_endpoints.rs:30-38 | map semantics of `insert` for any key: the inserted key reads back its value and every other key is unaffected |
| Pprof.StrLabel | profiling/src/profile/v2/pprof.rs:84-93 | a string label has the given key and string and zero number and unit |
| Pprof.MappingEqIgnoresId | profiling/src/profile/v2/pprof.rs:95-121 | two mappings are equal exactly when they agree on everything but the id |
| Pprof.LocationEqIgnoresId | profiling/src/profile/v2/pprof.rs:123-139 | two locations are equal exactly when they agree on everything but the id |
| Pprof.FunctionEqIgnoresId | profiling/src/profile/v2/pprof.rs:151-167 | two functions are equal exactly when they agree on everything but the id |
| StringTables.StringTable.constructor | profiling/src/profile/v2/string_table.rs:9-13 | a new table holds only the empty string |
| StringTables.StringTable.Intern | profiling/src/profile/v2/string_table.rs:15-22 | the id returned holds the string; a known string keeps its id and leaves the table unchanged; a new one is appended and gets the old length |
| StringTables.StringTable.Strings | profiling/src/profile/v2/string_table.rs:24-26 | the export is the table's strings in id order |
| StringTables.NewTableInternsEmptyAtZero | profiling/src/profile/v2/string_table.rs:9-22 | in a new table the empty string interns to id 0 without growing the table |
| StringTables.InternIdempotent | profiling/src/profile/v2/string_table.rs:15-22 | interning a string twice yields the same table and id as interning it once |
| StringTables.InternFindsEntry | profiling/src/profile/v2/string_table.rs:15-22 | in a duplicate-free table, interning a stored string gives back its position |
| ProfileSets.Entity.SetId | profiling/src/profile/v2/mod.rs:20-36 | `set_id` changes only the id: the entity keeps its identity apart from the id |
| ProfileSets.ProfileSet.constructor | profiling/src/profile/v2/profile_set.rs:10-13 | a new set is empty |
| ProfileSets.ProfileSet.Add | profiling/src/profile/v2/profile_set.rs:15-19 | the id returned is the stored element's position + 1 and that element carries it; an equal element leaves the set unchanged; a new one is appended with id = new length |
| ProfileSets.ProfileSet.Export | profiling/src/profile/v2/profile_set.rs:21-23 | the export is the elements in insertion order, each carrying its position + 1 as id |
| ProfileStorages.ProfileStorage.constructor | profiling/src/profile/v2/profile_storage.rs:14-16 | new storage holds no functions, locations or mappings |
| ProfileStorages.ProfileStorage.IndexToId | profiling/src/profile/v2/profile_storage.rs:18-20 | ids are positive and one more than the index |
| ProfileStorages.ProfileStorage.Add | profiling/src/profile/v2/profile_storage.rs:22-25 | the id returned is the position + 1 of the element with the value's key, after `insert_full` |
| ProfileStorages.ProfileStorage.AddKeepsIds | profiling/src/profile/v2/profile_storage.rs:22-43 | adding a value whose id is the next position keeps the store duplicate-free and every id equal to its position + 1 |
| ProfileStorages.ProfileStorage.AddFunction | profiling/src/profile/v2/profile_storage.rs:27-31 | the function stored at id − 1 equals the argument up to its id and carries id; an equal function changes nothing; a new one is appended; the other tables are untouched |
| ProfileStorages.ProfileStorage.AddLocation | profiling/src/profile/v2/profile_storage.rs:33-37 | as for functions, for locations |
| ProfileStorages.ProfileStorage.AddMapping | profiling/src/profile/v2/profile_storage.rs:39-43 | as for functions, for mappings |
| ProfileStorages.ProfileStorage.Functions | profiling/src/profile/v2/profile_storage.rs:45-47 | the functions in insertion order, each with id = position + 1 |
| ProfileStorages.ProfileStorage.Locations | profiling/src/profile/v2/profile_storage.rs:49-51 | the locations in insertion order, each with id = position + 1 |
| ProfileStorages.ProfileStorage.Mappings | profiling/src/profile/v2/profile_storage.rs:53-55 | the mappings in insertion order, each with id = position + 1 |
| SampleValues.ZipAdd | profiling/src/profile/mod.rs:366-383 | each existing value grows by the new value at its position; the length is kept, and values past the shorter input are left alone (zip) |
| SampleValues.AddAssignZip | profiling/src/profile/mod.rs:376-380 | the in-place `add_assign` loop computes exactly the element-wise zip sum |
| SampleValues.ZipAddSum | profiling/src/profile/mod.rs:366-383 | merging values of equal length adds their totals |
| ProfiledEndpoints.CountedKeys | ddcommon/src/profiled_endpoints.rs:54-67 | one sighting keeps the key list when the name is known, and appends the new name otherwise; duplicate-freedom is preserved |
| ProfiledEndpoints.TotalUpdate | ddcommon/src/profiled_endpoints.rs:63-64 | replacing one entry changes the total by the difference in counts |
| ProfiledEndpoints.TotalAppend | ddcommon/src/profiled_endpoints.rs:56-57 | appending an entry adds its count to the total |
| ProfiledEndpoints.CountedIsInsert | ddcommon/src/profiled_endpoints.rs:54-67 | `add_endpoint` is an `insert` of the next count (1 for a new name, old count + 1 otherwise) |
| ProfiledEndpoints.CountedTotalNew | ddcommon/src/profiled_endpoints.rs:55-57 | a first sighting raises the total by one |
| ProfiledEndpoints.CountedTotalKnown | ddcommon/src/profiled_endpoints.rs:58-64 | a repeated sighting raises the total by one |
| ProfiledEndpoints.CountedTotal | ddcommon/src/profiled_endpoints.rs:54-67 | every sighting raises the total count by exactly one |
| ProfiledEndpoints.CountedCounts | ddcommon/src/profiled_endpoints.rs:54-67 | after a sighting the name reads its next count, every other name keeps its count, and the total grows by one |
| ProfiledEndpoints.InsertAllGet | ddcommon/src/profiled_endpoints.rs:30-38 | after building from a list, each name maps to the count of its last occurrence in the list; names not in the list keep what they had |
| ProfiledEndpoints.NewNamesStep | ddcommon/src/profiled_endpoints.rs:30-38 | inserting one stat and then the rest gives the same keys as handling the whole list: the name is appended exactly when it is new |
| ProfiledEndpoints.InsertAllKeys | ddcommon/src/profiled_endpoints.rs:30-38 | after building from a list, the keys are the old keys in place, followed by each new name at its first occurrence in the list |
| ProfiledEndpoints.InsertAllRepeated | ddcommon/src/profiled_endpoints.rs:30-38 | the list a:1, b:2, a:3 gives the keys a, b, with a counting 3 and b counting 2 |
| ProfiledEndpoints.Entries | ddcommon/src/profiled_endpoints.rs:21-28 | one stat per entry, in order, with the entry's name and count |
| ProfiledEndpoints.InsertAbsent | ddcommon/src/profiled_endpoints.rs:30-38 | inserting a name the map lacks appends it |
| ProfiledEndpoints.PrefixKeysDiffer | ddcommon/src/profiled_endpoints.rs:10-13 | in a duplicate-free map no earlier key repeats a later one |
| ProfiledEndpoints.EntriesTail | ddcommon/src/profiled_endpoints.rs:21-28 | the list conversion splits at the first entry |
| ProfiledEndpoints.InsertEntriesStep | ddcommon/src/profiled_endpoints.rs:30-38 | re-inserting an entry whose key is new to the prefix appends it |
| ProfiledEndpoints.InsertAllNone | ddcommon/src/profiled_endpoints.rs:30-38 | converting an empty list inserts nothing |
| ProfiledEndpoints.InsertAllEntries | ddcommon/src/profiled_endpoints.rs:21-38 | re-inserting the remaining entries of a duplicate-free map after its prefix rebuilds the whole map |
| ProfiledEndpoints.EntriesRoundTrip | ddcommon/src/profiled_endpoints.rs:21-38 | converting the stats to a list and back gives the same counts in the same order |
| ProfiledEndpoints.ProfiledEndpointsStats.constructor | ddcommon/src/profiled_endpoints.rs:10-13 | the default stats are empty |
| ProfiledEndpoints.ProfiledEndpointsStats.FromList | ddcommon/src/profiled_endpoints.rs:30-38 | the loop builds the map that inserting the stats one by one builds, duplicate-free; its keys are the names in the order of their first occurrence (by InsertAllKeys), and each name holds the count of its last occurrence |
| ProfiledEndpoints.ProfiledEndpointsStats.AddEndpoint | ddcommon/src/profiled_endpoints.rs:54-67 | a new name is appended with count 1; a known name's count goes up by one in place; the map stays duplicate-free |
| ProfiledEndpoints.ProfiledEndpointsStats.IsEmpty | ddcommon/src/profiled_endpoints.rs:69-71 | empty exactly when no name has a count |
| ProfiledEndpoints.ProfiledEndpointsStats.ToList | ddcommon/src/profiled_endpoints.rs:21-28 | one stat per endpoint in first-seen order, with its count |
| ProfileV1.StringId | profiling/src/profile/mod.rs:433-438 | the id of a string in the table, −1 exactly when the string is absent |
| ProfileV1.EndpointOf | profiling/src/profile/mod.rs:504-513 | the first label keyed by the span-id label decides the endpoint; there is none when no endpoint is recorded |
| ProfileV1.ExportedLabelsAddsEndpoint | profiling/src/profile/mod.rs:504-524 | export keeps a sample's labels and appends the endpoint label exactly when that sample's span has a recorded endpoint |
| ProfileV1.ExportStep | profiling/src/profile/mod.rs:494-524 | exporting one sample is the plain sample, with the endpoint label appended when one is found |
| ProfileV1.TimeNanos | profiling/src/profile/mod.rs:566-571 | nanoseconds since the epoch: 0 before the epoch, saturated at `i64::MAX`, exact otherwise |
| ProfileV1.ProfileDuration | profiling/src/profile/mod.rs:456-469 | a given duration is kept when it fits in `i64`; otherwise the end minus the start, 0 when the end precedes the start; never over `i64::MAX` |
| ProfileV1.ExtendsTrans | profiling/src/profile/mod.rs:271-384 | tables that only grow compose: growth followed by growth is growth |
| ProfileV1.FullMono | profiling/src/profile/mod.rs:271-275 | tables that only grow stay full once full, so interning the labels first cannot avoid the full-table error |
| ProfileV1.InternTwo | profiling/src/profile/mod.rs:128-151 | interning two names then the rest is interning the whole list |
| ProfileV1.InternAllAppend | profiling/src/profile/mod.rs:128-151 | interning a concatenation is interning the first part, then the second |
| ProfileV1.BuildNamesPeriod | profiling/src/profile/mod.rs:128-151 | `build` interns the period's name and unit after all the sample types' strings |
| ProfileV1.BuiltTableHoldsSampleType | profiling/src/profile/mod.rs:589-608 | a profile built with sample type ("samples", "count") has the table "", "samples", "count" |
| ProfileV1.BuiltTableInternsNextAtThree | profiling/src/profile/mod.rs:589-608 | in that table a new string gets id 3, and interning it again gives 3 again |
| ProfileV1.InternAllKnown | profiling/src/profile/mod.rs:258-265 | interning strings the table already holds leaves the table unchanged |
| ProfileV1.InternOne | profiling/src/profile/mod.rs:258-265 | interning a one-name list is one `dedup_ref` (`insert_full`) of that name |
| ProfileV1.InternCons | profiling/src/profile/mod.rs:258-265 | interning a name followed by a list is one `insert_full` of the name, then the list |
| ProfileV1.InternConcatStep | profiling/src/profile/mod.rs:336-364 | interning the names of one more element extends the interning of the earlier elements' names |
| ProfileV1.InternOptNames | profiling/src/profile/mod.rs:324-325 | an optional string is interned exactly when it is present, and adds its name to the table |
| ProfileV1.InternLabelNames | profiling/src/profile/mod.rs:323-325 | a label interns its key, then its string, then its unit |
| ProfileV1.AddMapping | profiling/src/profile/mod.rs:271-292 | full tables give `FullError` and change nothing; otherwise the strings are the table after interning the filename then the build id, the mapping table is `insert_full` of the stored mapping, an equal mapping already stored is found again with nothing changed, and a mapping equal to no stored one is appended with id = old length + 1 |
| ProfileV1.AddFunction | profiling/src/profile/mod.rs:294-311 | the strings are the table after interning name, system name and filename; the function table is `insert_full` of the stored function, which resolves to the argument; an equal function already stored is found again and nothing changes; one equal to no stored function is appended with id = old length + 1 |
| ProfileV1.AddLines | profiling/src/profile/mod.rs:338-349 | each line of a location resolves to its function and line number; the strings are the table after interning each line's function names in order; at most one function per line is added |
| ProfileV1.ResolvesNewLocation | profiling/src/profile/mod.rs:336-364 | a location built from a resolved mapping and resolved lines resolves to the argument |
| ProfileV1.InsertLocation | profiling/src/profile/mod.rs:351-363 | the location table is `insert_full` of the record with id 0; the id is position + 1 and resolves to the argument; a stored equal location is found again and a new one appended with id = old length + 1; the other tables are untouched |
| ProfileV1.AddLinesAndLocation | profiling/src/profile/mod.rs:339-363 | the lines' functions, then the location: the strings are the table after interning the lines' names, the mappings are untouched, and the location is inserted as by `insert_full` |
| ProfileV1.AddMappedLocation | profiling/src/profile/mod.rs:338-363 | after a mapping interned from the location's mapping, the location is interned: strings, `insert_full` and append at old length + 1 as `AddLocation` states |
| ProfileV1.AddLocationMapping | profiling/src/profile/mod.rs:338 | the mapping step of a location: `FullError` exactly when full, and otherwise a resolving mapping id with the mapping's names interned |
| ProfileV1.AddLocation | profiling/src/profile/mod.rs:336-364 | full tables give `FullError` and change nothing; otherwise the strings are the table after interning the mapping's and then the lines' names, the location table is `insert_full` of a stored location resolving to the argument, one equal to no stored location is appended with id = old length + 1, and a stored equal location is found again |
| ProfileV1.AddLocations | profiling/src/profile/mod.rs:336-364 | on success every location id resolves to its API location, in order, and the strings are the table after interning every location's names in order; full tables with at least one location are an error that changes nothing; an error means `add` stopped at some location: every location before it is stored, the strings are those of interning their names, and the tables are full; at most one mapping and one location are added per location |
| ProfileV1.AddNextLocation | profiling/src/profile/mod.rs:337-364 | one more location of the loop: an error exactly when the tables are full, leaving them as they were; success extends the resolved ids and the interned names by that location |
| ProfileV1.NextLocationStep | profiling/src/profile/mod.rs:337-364 | a location interned after the first `i` keeps the ids of those `i` resolving and extends the interned names by its own |
| ProfileV1.IdsStored | profiling/src/profile/mod.rs:336-364 | a location whose id resolves is stored in the location table |
| ProfileV1.AddLabels | profiling/src/profile/mod.rs:319-334 | every label's key, string and unit resolve through the string table; the strings are the table after interning each label's key, string and unit in order; no other table changes |
| ProfileV1.MergeSample | profiling/src/profile/mod.rs:366-383 | a new sample is appended with its values; a known one has its values zip-added in place; the id is position + 1 and the samples stay distinct |
| ProfileV1.InternSample | profiling/src/profile/mod.rs:318-364 | the labels then the locations: on success the stored sample resolves to the argument and the strings are the table after interning all the sample's names; full tables and at least one location are an error after interning only the labels; an error means it stopped at some location, with the labels and every earlier location stored and the tables full |
| ProfileV1.AddSampleTo | profiling/src/profile/mod.rs:313-383 | the sample is interned then merged: an error leaves the samples alone and is stopped as `InternSample` says, and it always happens when the tables are full and the sample has a location; a new sample is appended with its values, a known one has its values zip-added at its own position; the strings are the table after interning the sample's names |
| ProfileV1.ApiValueTypeOf | profiling/src/profile/mod.rs:386-395 | a known value type is looked up to the API type it resolves to |
| ProfileV1.ApiValueTypes | profiling/src/profile/mod.rs:386-395 | the looked-up sample types resolve, one by one, to the stored ones |
| ProfileV1.ApiValueTypesRoundTrip | profiling/src/profile/mod.rs:386-425 | sample types interned from API types look back up to those same API types, which `reset` relies on |
| ProfileV1.StringIdOf | profiling/src/profile/mod.rs:427-441 | in a duplicate-free table, the id found for a string is the one it was interned at |
| ProfileV1.Profile.constructor | profiling/src/profile/mod.rs:237-255 | a new profile has empty tables, a string table holding only "", no period and the given start time |
| ProfileV1.Profile.Build | profiling/src/profile/mod.rs:128-151 | the profile has the interned sample types and period, the string table is "" followed by their names in order, and the start time is the given one or `now` |
| ProfileV1.Profile.InternPeriod | profiling/src/profile/mod.rs:140-148 | the period's type resolves to the API period, interned after the sample types |
| ProfileV1.Profile.InternTypes | profiling/src/profile/mod.rs:131-138 | each sample type resolves to its API type, the names interned in order |
| ProfileV1.Profile.Intern | profiling/src/profile/mod.rs:258-265 | the id holds the string; the table only grows, by the string when it is new |
| ProfileV1.Profile.GetString | profiling/src/profile/mod.rs:482-484 | a string exactly for ids inside the table, and it is the one stored there |
| ProfileV1.Profile.Add | profiling/src/profile/mod.rs:313-384 | a value count that does not match the sample types returns 0 and changes nothing; full tables and a sample with a location are an error after interning the labels only; any error leaves the samples untouched and stops at some location, every earlier one stored and the tables full; otherwise the stored sample resolves to the argument, the strings are the table after interning all the sample's names, a new sample is appended and a known one has its values zip-added; at most one mapping and one location are added per location |
| ProfileV1.Profile.ExtractApiSampleTypes | profiling/src/profile/mod.rs:386-395 | present exactly when every sample type's strings are known, and then their looked-up API types |
| ProfileV1.Profile.Reset | profiling/src/profile/mod.rs:397-425 | when the sample types look back up, the old profile is returned unchanged and this one is rebuilt with the same sample types and period; otherwise nothing changes |
| ProfileV1.Profile.SetState | profiling/src/profile/mod.rs:397-425 | every field takes the given state |
| ProfileV1.Profile.Swap | profiling/src/profile/mod.rs:397-425 | the two profiles exchange their whole states |
| ProfileV1.Profile.AddEndpoint | profiling/src/profile/mod.rs:427-441 | the strings are the table after interning the two label names (the first time only), the span id and the endpoint; the first call sets the label ids to those names; the span id's string id maps to the endpoint's (`insert`); the endpoint stats take one more sighting of the endpoint (`Counted`) |
| ProfileV1.Profile.AddEndpointTo | profiling/src/profile/mod.rs:427-441 | as `AddEndpoint`, on the tables and the endpoint record as values: only the strings change among the tables, and both endpoint maps stay duplicate-free |
| ProfileV1.EndpointKnownKeepsStrings | profiling/src/profile/mod.rs:427-438 | after the first endpoint, a span id and endpoint already in the table intern to no new strings |
| ProfileV1.Profile.InternEndpoint | profiling/src/profile/mod.rs:427-441 | the strings are the table after interning the label names (only the first time), then the span id and the endpoint; the ids returned resolve to them |
| ProfileV1.Profile.FindEndpoint | profiling/src/profile/mod.rs:504-513 | the loop finds exactly the endpoint determined by the first span-id label |
| ProfileV1.Profile.ExportSamples | profiling/src/profile/mod.rs:494-524 | each exported sample is its sample with the endpoint label appended when found |
| ProfileV1.Profile.ToPprof | profiling/src/profile/mod.rs:487-577 | the pprof holds the sample types, every sample with its endpoint label, mappings, locations and functions with id = position + 1, the strings, the saturated start time and the period |
| ProfileV1.Profile.Serialize | profiling/src/profile/mod.rs:451-480 | the encoded profile spans start to the given end or `now`, the duration is the saturated one, and the endpoint stats are carried along |
| ProfileV2.TraceResource | profiling/src/profile/v2/mod.rs:64-74 | the endpoint label is found exactly when some label is keyed by the span-id label and its string has an endpoint; it carries that endpoint |
| ProfileV2.TraceResourceByValue | profiling/src/profile/v2/mod.rs:64-74 | as written: found exactly when some label's string value equals the span-id label and that label id has an endpoint |
| ProfileV2.FindTraceResourceMissesKeyedLabel | profiling/src/profile/v2/mod.rs:64-74 | a sample whose span-id label is keyed correctly gets no endpoint from the lookup as written, but gets one from the keyed lookup |
| ProfileV2.ExportedLabelsExtend | profiling/src/profile/v2/mod.rs:178-195 | export keeps a sample's labels and adds at most one endpoint label, never when none is recorded |
| ProfileV2.Endpoints.constructor | profiling/src/profile/v2/mod.rs:45-51 | new endpoints have no mappings and the given label ids |
| ProfileV2.Endpoints.IsEmpty | profiling/src/profile/v2/mod.rs:53-55 | empty exactly when no span has an endpoint |
| ProfileV2.Endpoints.Add | profiling/src/profile/v2/mod.rs:60-62 | the span's endpoint is set, overwriting any earlier one |
| ProfileV2.Endpoints.FindTraceResource | profiling/src/profile/v2/mod.rs:64-74 | the loops compute the lookup as written |
| ProfileV2.Endpoints.AddTraceResourceLabel | profiling/src/profile/v2/mod.rs:76-80 | the sample is unchanged unless the lookup finds an endpoint label, which is then appended |
| ProfileV2.ClampedEnd | profiling/src/profile/v2/mod.rs:236-249 | the end used is never before the start, and it is the given end whenever that is not before the start |
| ProfileV2.SerializedDurationAsWritten | profiling/src/profile/v2/mod.rs:236-249 | as written: it panics exactly when no duration is given, none is stored and the end precedes the start |
| ProfileV2.SerializedDuration | profiling/src/profile/v2/mod.rs:236-249 | a given duration is kept when it fits in `i64`; otherwise the stored duration, or end − start measured to the clamped end |
| ProfileV2.SerializedDurationAgrees | profiling/src/profile/v2/mod.rs:236-249 | wherever the code as written does not panic, it stores the intended duration |
| ProfileV2.SerializePanicsBeforeStart | profiling/src/profile/v2/mod.rs:236-249 | start 10, no duration stored or given, end 5: the code panics, and the intended duration is 0 |
| ProfileV2.Profile.Init | profiling/src/profile/v2/mod.rs:83-93 | the profile holds exactly the given parts |
| ProfileV2.Profile.New | profiling/src/profile/v2/mod.rs:95-136 | a negative start time and then a negative duration are errors that leave the string table alone; otherwise the table is `insert_full` of "local root span id" then of "trace endpoint", whose ids become the two label ids, and the profile holds the other arguments as given |
| ProfileV2.Profile.AddSample | profiling/src/profile/v2/mod.rs:138-161 | a value count that does not match the sample types is an error and changes nothing; otherwise a new sample is appended and a known one has its values zip-added |
| ProfileV2.Profile.AddEndpoint | profiling/src/profile/v2/mod.rs:163-165 | the span's endpoint is recorded, overwriting any earlier one |
| ProfileV2.Profile.IntoPprof | profiling/src/profile/v2/mod.rs:167-224 | the pprof holds the sample types, each sample with its keyed endpoint label, the storage's functions, locations and mappings, the strings and the times |
| ProfileV2.Profile.Serialize | profiling/src/profile/v2/mod.rs:230-258 | the stored duration becomes the intended one; the encoded profile spans start to the clamped end and holds the export |
| TracerPayloads.ChunkCountAppend | trace-utils/src/tracer_payload.rs:98-105 | the chunk count of two payload lists joined is the sum of their counts |
| TracerPayloads.Appended | trace-utils/src/tracer_payload.rs:44-57 | same versions: the source's elements move to the end of the destination and the source is left empty; different versions: nothing changes |
| TracerPayloads.AppendedSize | trace-utils/src/tracer_payload.rs:44-57 | appending keeps the combined size, and with matching versions all of it ends in the destination |
| TracerPayloads.AppendEmpty | trace-utils/src/tracer_payload.rs:297-328 | appending an empty collection of the same version changes nothing |
| TracerPayloads.InsertSorted | trace-utils/src/tracer_payload.rs:70-82 | one insertion step keeps the payloads (as a multiset) and their chunks |
| TracerPayloads.InsertSortedSorted | trace-utils/src/tracer_payload.rs:70-82 | inserting into a sorted list keeps it sorted |
| TracerPayloads.SortBy | trace-utils/src/tracer_payload.rs:70-82 | the sort is a permutation that keeps every chunk |
| TracerPayloads.SortBySorted | trace-utils/src/tracer_payload.rs:70-82 | under a total preorder the result is sorted |
| TracerPayloads.AllChunksAppend | trace-utils/src/tracer_payload.rs:98-105 | the chunks of two payload lists joined are the first list's chunks followed by the second's |
| TracerPayloads.AllChunksSingle | trace-utils/src/tracer_payload.rs:70-82 | the chunks of a single payload are its own chunks |
| TracerPayloads.FoldChunks | trace-utils/src/tracer_payload.rs:75-79 | appending a dropped payload's chunks to the last kept payload appends them to all chunks |
| TracerPayloads.InsertSortedAllChunks | trace-utils/src/tracer_payload.rs:70-82 | one insertion step adds exactly the inserted payload's chunks, as a multiset |
| TracerPayloads.SortByAllChunks | trace-utils/src/tracer_payload.rs:70-82 | the sort keeps the multiset of all chunks |
| TracerPayloads.DedupFromChunks | trace-utils/src/tracer_payload.rs:70-82 | folding equal neighbours keeps the number of chunks |
| TracerPayloads.DedupFromAllChunks | trace-utils/src/tracer_payload.rs:75-79 | folding equal neighbours keeps every chunk in order: a dropped payload's chunks are appended to the kept one's |
| TracerPayloads.DedupFromStrict | trace-utils/src/tracer_payload.rs:70-82 | folding a sorted list leaves no two neighbours comparing Equal |
| TracerPayloads.MergedProperties | trace-utils/src/tracer_payload.rs:70-82 | `merge` keeps the number of chunks and leaves the payloads strictly ordered |
| TracerPayloads.MergedAllChunks | trace-utils/src/tracer_payload.rs:70-82 | `merge` keeps the multiset of all chunks |
| TracerPayloads.MergeTwoEqual | trace-utils/src/tracer_payload.rs:330-344 | two copies of one payload merge into one payload carrying both copies' chunks |
| TracerPayloads.TracerPayloadCollection.constructor | trace-utils/src/tracer_payload.rs:21-26 | the collection holds the given payloads |
| TracerPayloads.TracerPayloadCollection.Append | trace-utils/src/tracer_payload.rs:44-57 | both collections end as `Appended` says |
| TracerPayloads.TracerPayloadCollection.Merge | trace-utils/src/tracer_payload.rs:70-82 | v0.7 payloads become their merge; v0.4 traces stay as they are |
| TracerPayloads.TracerPayloadCollection.Size | trace-utils/src/tracer_payload.rs:98-105 | the number of chunks of a v0.7 collection, the number of traces of a v0.4 one |
| FfiVec.Vec.Elements | ddcommon-ffi/src/vec.rs:17-22 | the elements are the first `len` slots of the buffer |
| FfiVec.Vec.Default | ddcommon-ffi/src/vec.rs:124-128 | no elements and no capacity |
| FfiVec.Vec.FromStd | ddcommon-ffi/src/vec.rs:47-57 | the same elements and capacity as the standard vector |
| FfiVec.Vec.IntoStd | ddcommon-ffi/src/vec.rs:40-45 | gives back the same elements and capacity |
| FfiVec.Vec.Push | ddcommon-ffi/src/vec.rs:83-90 | the value goes after the last element; spare room keeps the buffer, and a full buffer is replaced by one of twice the capacity (at least 1) |
| FfiVec.Vec.Len | ddcommon-ffi/src/vec.rs:92-94 | the number of elements |
| FfiVec.Vec.IsEmpty | ddcommon-ffi/src/vec.rs:96-98 | as written: true exactly when the vector HAS elements |
| FfiVec.Vec.HasNoElements | ddcommon-ffi/src/vec.rs:96-98 | true exactly when there are no elements |
| FfiVec.Vec.Get | ddcommon-ffi/src/vec.rs:115-121 | none exactly past the end, otherwise the element at the index |
| FfiVec.Vec.Last | ddcommon-ffi/src/vec.rs:108-113 | none exactly when there are no elements, otherwise the final one |
| FfiVec.Equal | ddcommon-ffi/src/vec.rs:24-28 | equal exactly when the elements are equal, whatever the capacities |
| FfiVec.IsEmptyInverted | ddcommon-ffi/src/vec.rs:96-98 | `is_empty` as written is the negation of emptiness, so the empty vector claims not to be empty |

## Left out

- Protobuf encoding (`write_to_vec`, prost) and the error it can return: `EncodedProfile` holds the pprof value, not its bytes.
- `Mutex`, `Arc` and the `Locked*` wrappers: concurrency is not modelled. Every operation acts on an unshared object.
- `SystemTime::now` becomes a `now` parameter, and times are integers of nanoseconds since the epoch.
- SampleValues.ZipAdd: sample values are unbounded integers, so the `i64` overflow of `add_assign` (a panic in debug builds, wrap-around in release builds) is not modelled.
- ProfiledEndpoints.Counted: counts are unbounded, so the `i64` overflow of `add_assign(1)` is not modelled.
- ProfileV1.Profile.Intern: the `try_into().expect` on the id is left out, because a table of more than `i64::MAX` strings cannot arise.
- The `assert!(inserted)` of `dedup_ref`: it guards against a race that the unshared model cannot have.
- The FFI vector's raw pointers and `Drop` are left out. FfiVec.Vec.Push does not model the growth policy of Rust's `Vec`, which has a minimum capacity: the model doubles, with at least one slot.
- `From<anyhow::Error> for Vec<u8>`, `as_slice` and `iter` of the FFI vector: they format errors or borrow memory rather than changing the vector.
- The serde `Serialize` of the endpoint stats is left out, as is every JSON or msgpack encoding.
- TracerPayloads.SortBy: `sort_unstable_by` may put payloads that compare Equal in any relative order. The model fixes one order (insertion sort, which keeps input order). The proved properties hold for any such order.
- Spans are opaque values and payload headers carry no meta maps. `cmp_send_data_payloads` becomes a comparison parameter required to be a total preorder.
- TracerPayloads.MergedProperties: the comparison is a function of the payload header only; chunks take no part in it, so folding chunks into the kept payload cannot change how it compares.
- `TracerPayloadParams::try_into` and rmp decoding are not part of this model.
- `profiling/src/profile/api.rs` and `profiling/src/profile/pprof.rs` are not part of this model. The v1 pprof records reuse the shapes of `profiling/src/profile/v2/pprof.rs`; the API records are reconstructed from their use in `profiling/src/profile/mod.rs`.
- ProfileV1.Profile.Add: the mappings, functions and locations a sample adds are bounded in number and each is stated through `insert_full` by the per-location members; `Profile.Add` itself does not list them one by one.
- ProfileV1.Profile.AddEndpoint: the endpoint stats are held as the count map and updated with `ProfiledEndpoints.Counted`, the function `ProfiledEndpointsStats.AddEndpoint` is proved against; the stats object's own identity is not modelled.
- ProfileV1.AddLocations: the location at which an error stops `add` is one whose earlier locations are all stored and after which the tables are full; that the tables were not already full at an earlier location is not stated.
- ProfileV1.AddMapping, ProfileV1.AddFunction and ProfileV1.AddLocation take the four tables as a value and return the new tables. `Profile.Add` then assigns them to its fields. The in-place update is the same, seen through one assignment.
- ProfileV1.Profile.Build: interns into a local string table before storing it, which is equivalent to interning into the new profile's table.
- ProfileV1.Profile.Reset: the swap of two profiles is modelled through whole-state snapshots. Field-by-field aliasing inside `std::mem::swap` is not modelled.
- ProfileV2.Profile.Serialize uses the corrected duration (see Findings). The as-written panic is modelled separately by ProfileV2.SerializedDurationAsWritten.
- ProfileV2.Endpoints.AddTraceResourceLabel follows the lookup as written. ProfileV2.Profile.IntoPprof uses the keyed lookup its own loop performs.
- The FFI entry points (`ddprof-ffi`), the sidecar, IPC, telemetry, the mini agent and obfuscation are outside the modelled core.

## Findings

| source | as written | input that shows it | evidently intended | confidence | as-written member | corrected member |
|---|---|---|---|---|---|---|
| profiling/src/profile/v2/mod.rs:241-248 | with no duration given and none stored, `serialize` unwraps `end_time.duration_since(start)`, which fails when the end lies before the start | start 10, stored duration 0, end 5, no duration: it panics | clamp the end to the start, giving duration 0 | high, not executed | ProfileV2.SerializePanicsBeforeStart (with ProfileV2.SerializedDurationAsWritten) | ProfileV2.SerializedDuration (agreement on all non-panicking inputs: ProfileV2.SerializedDurationAgrees) |
| profiling/src/profile/v2/mod.rs:64-74 | `find_trace_resource` compares each label's `str` with the span-id label id, instead of its `key` | labels [key 1, str 5], span-id label 1, endpoints {5 ↦ 7}: no endpoint found | match the label keyed by the span-id label, as `into_pprof` does | medium, not executed | ProfileV2.FindTraceResourceMissesKeyedLabel (with ProfileV2.TraceResourceByValue, ProfileV2.Endpoints.FindTraceResource) | ProfileV2.TraceResource |
| ddcommon-ffi/src/vec.rs:96-98 | `is_empty` returns `len > 0` | a vector with no elements: `is_empty` is false | `len == 0` | high, not executed | FfiVec.IsEmptyInverted (with FfiVec.Vec.IsEmpty) | FfiVec.Vec.HasNoElements |
