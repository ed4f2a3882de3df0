# CreateHybridCollectionRequest in Dafny

This project models the request that creates a hybrid (scalar plus vector) collection in
Milvus, `CreateHybridCollectionRequest::OnExecute`. It runs as a pipeline with three steps:

1. **Name check.** It asks the collection-name validator for a status. A failing status
   is returned unchanged.
2. **Schema build.** It walks `field_types_` in iteration order. Each field name is
   looked up in `field_index_params_` and then in `field_params_`. One `FieldSchema`
   is appended per field. The running `dimension` and `vector_param` follow the last
   FLOAT_VECTOR or BINARY_VECTOR field. The collection attributes are then set:
   name, dimension, `segment_size`, and the metric and engine codes from the two
   enumeration tables.
3. **Create call.** It submits the schema to the storage engine and translates the
   answer. "Already exists" becomes an invalid collection name. Every exception becomes
   an unexpected error that carries the exception's message.

Modules:

- `Errors`: status codes, `Status`, the exceptions and their messages, and `Result`.
- `Json`: JSON values and the library operations the request uses: `contains`,
  `operator[]`, `get<uint16_t>`, `get<int64_t>` and conversion to `std::string`.
  `parse` and `dump` are collaborators, given as a `Codec`.
- `Meta`: `FieldSchema`, `CollectionSchema` and the data types.
- `TypeMapper`: lookups in the metric and engine tables.
- `SchemaBuilder`: the field loop as a specification. `FieldOutcome` is one pass of the
  loop and `BuildFrom`/`Build` fold it over the entries. `CollectionInfo` sets the
  attributes after the loop. The lemmas state what the loop produces.
- `Submission`: the storage engine and `Translate`. The engine is a class that
  records every create call it receives.
- `HybridRequest`: the request class (constructor and `OnExecute`) and `Prepare`
  (steps 1 and 2 as a function). The code is imperative. `BuildFieldsSchema` is the field
  loop of `OnExecute`: it appends to `fieldsSchema` and updates `dimension` and
  `vectorParam`, and it is proved equal to `Build`. `OnExecute` then updates
  `collectionInfo` step by step. Its postcondition ties the returned status and the engine's
  recorded calls to `Prepare` and `Translate`.

`field_types_` is an `unordered_map` whose iteration order is unspecified. The model
takes its entries as a sequence with distinct names, in iteration order. Every
order-sensitive property ("one schema per entry in order", "the last vector field
wins") is stated relative to that sequence. The two maps that are only looked up are
Dafny maps.

Notes on the code's behaviour:

- A field missing from a parameter map, or a metric or index type not found in its
  table, is not a dedicated error category. `.at` throws `std::out_of_range`, and the
  outer catch returns `SERVER_UNEXPECTED_ERROR` with that exception's message.
- `dimension` is not range-checked. `get<uint16_t>` keeps the value modulo 2^16.
- `segment_size` is never honoured, because the constructor does not store
  `extra_params` (see Findings).

## Model

| member | source | states |
|---|---|---|
| Json.AsString | core/src/server/delivery/hybrid_request/CreateHybridCollectionRequest.cpp:82-84 | conversion to string succeeds exactly on JSON strings and yields the string; otherwise a type error naming the actual type |
| Json.AsUint16 | core/src/server/delivery/hybrid_request/CreateHybridCollectionRequest.cpp:94-96 | numbers convert to a value below 2^16 congruent to the number modulo 2^16 (identity in range); true and false convert to 1 and 0; other values throw a type error |
| Json.AsInt64 | core/src/server/delivery/hybrid_request/CreateHybridCollectionRequest.cpp:102-104 | only numbers convert, to a signed 64-bit value congruent to the number modulo 2^64 (identity in range); every other value, booleans included, throws a type error |
| TypeMapper.LookupCode | core/src/server/delivery/hybrid_request/CreateHybridCollectionRequest.cpp:106-114 | the table lookup succeeds exactly when the key is a string in the table and yields its code; a non-string throws a type error, an unknown string throws out_of_range |
| SchemaBuilder.FieldOutcome | core/src/server/delivery/hybrid_request/CreateHybridCollectionRequest.cpp:76-97 | one pass: a missing index-param key throws first, then a non-string "name", then a missing field-param key; success exactly when all lookups, the parse and the dimension conversion succeed; the schema is joined from the entry; only vector fields carry parsed params, and they set a dimension exactly when "dimension" is present |
| SchemaBuilder.BuildFromAppends | core/src/server/delivery/hybrid_request/CreateHybridCollectionRequest.cpp:75-98 | a completed run from any state appends exactly one schema per entry, in order, and keeps the earlier schemas |
| SchemaBuilder.BuildFromStopsAtFirstError | core/src/server/delivery/hybrid_request/CreateHybridCollectionRequest.cpp:75-98 | a run throws the exception of the first entry whose pass throws |
| SchemaBuilder.BuildFromCompletes | core/src/server/delivery/hybrid_request/CreateHybridCollectionRequest.cpp:75-98 | a run completes when every entry's pass does |
| SchemaBuilder.BuildFromKeepsDimension | core/src/server/delivery/hybrid_request/CreateHybridCollectionRequest.cpp:91-97 | entries that set no dimension leave dimension unchanged |
| SchemaBuilder.BuildFromLastDimension | core/src/server/delivery/hybrid_request/CreateHybridCollectionRequest.cpp:91-97 | the final dimension is the converted "dimension" of the last entry that sets one |
| SchemaBuilder.BuildFromKeepsVectorParam | core/src/server/delivery/hybrid_request/CreateHybridCollectionRequest.cpp:91-97 | non-vector entries leave vector_param and dimension unchanged |
| SchemaBuilder.BuildFromLastVectorParam | core/src/server/delivery/hybrid_request/CreateHybridCollectionRequest.cpp:91-97 | the final vector_param is the parsed params of the last vector entry |
| SchemaBuilder.BuildFromDimensionBound | core/src/server/delivery/hybrid_request/CreateHybridCollectionRequest.cpp:73-97 | dimension stays below 2^16 |
| SchemaBuilder.BuildFailsAtFirstFailingField | core/src/server/delivery/hybrid_request/CreateHybridCollectionRequest.cpp:75-98 | the loop completes iff every entry's pass completes; otherwise it throws the first failing entry's exception |
| SchemaBuilder.MissingKeyAbortsBuild | core/src/server/delivery/hybrid_request/CreateHybridCollectionRequest.cpp:78-87 | a name missing from either map makes the loop throw; if the first failing entry misses its index params, the exception is out_of_range |
| SchemaBuilder.BuildJoinsFields | core/src/server/delivery/hybrid_request/CreateHybridCollectionRequest.cpp:75-89 | fields_schema has exactly one entry per field, in order, with collection id, name, type, index name ("name" member or empty), dumped index params and the raw param string |
| SchemaBuilder.BuildKeepsNamesDistinct | core/src/server/delivery/hybrid_request/CreateHybridCollectionRequest.cpp:75-89 | distinct names in field_types_ give distinct field names in fields_schema |
| SchemaBuilder.DimensionOfLastVectorField | core/src/server/delivery/hybrid_request/CreateHybridCollectionRequest.cpp:73-97 | dimension is 0 when no vector field carries "dimension", otherwise the uint16 value of the last one; always below 2^16 |
| SchemaBuilder.VectorParamOfLastVectorField | core/src/server/delivery/hybrid_request/CreateHybridCollectionRequest.cpp:74-97 | vector_param is null and dimension 0 without vector fields, otherwise the parsed params of the last vector field |
| SchemaBuilder.CollectionInfo | core/src/server/delivery/hybrid_request/CreateHybridCollectionRequest.cpp:100-114 | the collection gets the name and dimension; index_file_size, metric and engine codes come from "segment_size", "metric_type" and "index_type" when present, defaults otherwise; it fails exactly when a present value does not convert or is not in its table; an unknown metric string throws out_of_range |
| Submission.StorageEngine.CreateHybridCollection | core/src/server/delivery/hybrid_request/CreateHybridCollectionRequest.cpp:117 | the engine records exactly one call with the given schema and answers with its response |
| Submission.Translate | core/src/server/delivery/hybrid_request/CreateHybridCollectionRequest.cpp:117-131 | OK exactly on engine success (without the fault point); DB_ALREADY_EXIST becomes SERVER_INVALID_COLLECTION_NAME with the same message; other failures unchanged; a thrown exception becomes SERVER_UNEXPECTED_ERROR with its message; DB_ALREADY_EXIST never reaches the caller |
| HybridRequest.Prepare | core/src/server/delivery/hybrid_request/CreateHybridCollectionRequest.cpp:58-114 | a failing name check is returned unchanged and nothing is built; a throwing loop aborts with its exception; only a completed loop can be submitted |
| HybridRequest.ReadySchemaJoinsFields | core/src/server/delivery/hybrid_request/CreateHybridCollectionRequest.cpp:75-101 | a submitted schema has one joined FieldSchema per field, the request's name and a 16-bit dimension |
| HybridRequest.MissingFieldIsNeverSubmitted | core/src/server/delivery/hybrid_request/CreateHybridCollectionRequest.cpp:78-128 | a field missing from either parameter map aborts the request before submission |
| HybridRequest.UnknownMetricTypeIsNeverSubmitted | core/src/server/delivery/hybrid_request/CreateHybridCollectionRequest.cpp:106-128 | an unknown "metric_type" string of the last vector field aborts with out_of_range before submission (when "segment_size" is absent or converts, as it must to reach that lookup) |
| HybridRequest.ReadyDimension | core/src/server/delivery/hybrid_request/CreateHybridCollectionRequest.cpp:73-101 | a submitted schema's dimension is that of the last vector field that carries "dimension", even when a later vector field lacks it, and 0 when none does |
| HybridRequest.DimensionCarriedOverExample | core/src/server/delivery/hybrid_request/CreateHybridCollectionRequest.cpp:91-101 | vector fields v1 {"dimension": 64} then v2 {} submit dimension 64 |
| HybridRequest.ReadyVectorAttributes | core/src/server/delivery/hybrid_request/CreateHybridCollectionRequest.cpp:91-114 | a submitted schema carries the last vector field's metric and engine codes, or the default codes when its params lack them, and that field's "dimension" when it has one |
| HybridRequest.ReadyWithoutVectorField | core/src/server/delivery/hybrid_request/CreateHybridCollectionRequest.cpp:73-114 | without vector fields the submitted dimension is 0 and the metric and engine codes are the defaults |
| HybridRequest.SegmentSizeIgnoredAsWritten | core/src/server/delivery/hybrid_request/CreateHybridCollectionRequest.cpp:30-104 | with the null extra_params_ the constructor leaves, index_file_size is always the default |
| HybridRequest.SegmentSizeHonouredWhenStored | core/src/server/delivery/hybrid_request/CreateHybridCollectionRequest.cpp:102-104 | a stored 64-bit "segment_size" becomes index_file_size |
| HybridRequest.SegmentSizeDroppedByConstructor | core/src/server/delivery/hybrid_request/CreateHybridCollectionRequest.cpp:30-104 | for extra_params {"segment_size": 512}, the request as constructed submits the default size, while the intended one submits 512 |
| HybridRequest.SingleVectorFieldExample | core/src/server/delivery/hybrid_request/CreateHybridCollectionRequest.cpp:70-114 | one FLOAT_VECTOR field with dimension 128, "L2" and "IVF_FLAT" yields that dimension, both table codes, the default size and one FieldSchema |
| HybridRequest.CreateHybridCollectionRequest.constructor | core/src/server/delivery/hybrid_request/CreateHybridCollectionRequest.cpp:30-39 | stores name, field types and both parameter maps; extra_params_ stays null |
| HybridRequest.CreateHybridCollectionRequest.WithExtraParams | core/src/server/delivery/hybrid_request/CreateHybridCollectionRequest.cpp:30-39 | the intended constructor: stores extra_params as well |
| HybridRequest.CreateHybridCollectionRequest.BuildFieldsSchema | core/src/server/delivery/hybrid_request/CreateHybridCollectionRequest.cpp:73-98 | the field loop returns exactly the result of the specification Build: the first pass's exception, or one schema per field with the last vector field's dimension and params |
| HybridRequest.CreateHybridCollectionRequest.OnExecute | core/src/server/delivery/hybrid_request/CreateHybridCollectionRequest.cpp:53-132 | a rejected name is returned unchanged and an exception becomes SERVER_UNEXPECTED_ERROR, both with no engine call; otherwise the engine is called exactly once with the prepared schema and its answer is translated |

## Left out

- Timing instrumentation (`TimeRecorderAuto`, `RecordSection`) has no effect on behaviour and is left out.
- The two `fiu_do_on` fault points are modelled only as the flags of `Faults`.
- `ValidateCollectionName` is a given function from name to status. ValidationUtil is not part of this model.
- `DBWrapper::DB()->CreateHybridCollection` is modelled by the storage engine's response function. Persistence and concurrent creation are not modelled.
- JSON parsing and serialisation are the given `Codec`. Floating-point JSON numbers are not modelled, and neither are the unsigned/signed storage kinds of numbers.
- The contents of `s_map_metric_type` and `s_map_engine_type` are given as maps.
- The numeric values of error codes and of `DataType` enumerators are not modelled. utils/Error.h and MetaTypes.h are not part of this model, so codes are symbolic and `FieldSchema.fieldType` keeps the `DataType`.
- The schema defaults (index file size, metric type, engine type) are given as `Defaults`.
- Exception texts: every failing `.at` is given libstdc++'s unordered-map text. The enum tables' container type is not part of this model.
- The `Create` factory, `shared_ptr`, `Context` and `BaseRequest` plumbing construct objects only and are left out.

## Findings

| source | as written | input that shows it | evidently intended | confidence | as-written member | corrected member |
|---|---|---|---|---|---|---|
| core/src/server/delivery/hybrid_request/CreateHybridCollectionRequest.cpp:30-39 | the constructor takes `extra_params` but never stores it, so `extra_params_` stays null and the "segment_size" branch (lines 102-104) never runs | `extra_params = {"segment_size": 512}` with a default index file size other than 512 | `extra_params_(extra_params)` in the initialiser list, so index_file_size becomes 512 | high; not executed | HybridRequest.SegmentSizeDroppedByConstructor | HybridRequest.SegmentSizeHonouredWhenStored |

The as-written behaviour is `CreateHybridCollectionRequest.constructor`. The corrected
one is `CreateHybridCollectionRequest.WithExtraParams`.
