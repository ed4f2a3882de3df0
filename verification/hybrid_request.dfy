/** CreateHybridCollectionRequest: the request object and its OnExecute pipeline —
    validate the name, build the field schemas and collection attributes, submit them to
    the storage engine and translate the outcome into a status. */
module HybridRequest {
  import opened Errors
  import opened Json
  import opened Meta
  import opened TypeMapper
  import opened SchemaBuilder
  import opened Submission

  /** The two fault-injection points of OnExecute, as flags that force a failure. */
  datatype Faults = Faults(invalidCollectionName: bool, invalidDbExecute: bool)

  /** The collaborators OnExecute consults: the collection-name validator, the JSON
      codec, the metric-type and engine-type tables, the schema defaults, and the fault
      points. */
  datatype Environment = Environment(
    validate: string -> Status,
    codec: Codec,
    metricTable: map<string, int>,
    engineTable: map<string, int>,
    defaults: Defaults,
    faults: Faults)

  /** The members a request holds. */
  datatype Request = Request(
    collectionName: string,
    fieldTypes: seq<Entry>,
    fieldIndexParams: map<string, Json>,
    fieldParams: map<string, string>,
    extraParams: Json)

  /** The status of step 1: the validator's, unless the fault point forces a failure. */
  function NameCheck(name: string, env: Environment): Status {
    if env.faults.invalidCollectionName then Status(ServerUnexpectedError, "") else env.validate(name)
  }

  function ContextOf(req: Request, env: Environment): Context {
    Context(req.collectionName, req.fieldIndexParams, req.fieldParams, env.codec)
  }

  /** How far the pipeline gets before the storage engine: stopped by the name check,
      aborted by an exception, or ready to submit a schema. */
  datatype Prepared =
    | Rejected(status: Status)
    | Aborted(ex: Exception)
    | Ready(info: CollectionSchema, fields: seq<FieldSchema>)

  /** Steps 1 and 2 of OnExecute. */
  function Prepare(req: Request, env: Environment): (p: Prepared)
    ensures p.Rejected? <==> !NameCheck(req.collectionName, env).IsOk()
    ensures p.Rejected? ==> p.status == NameCheck(req.collectionName, env)
    ensures p.Ready? ==> Build(ContextOf(req, env), req.fieldTypes).Ok?
    ensures NameCheck(req.collectionName, env).IsOk() && Build(ContextOf(req, env), req.fieldTypes).Err? ==>
      p == Aborted(Build(ContextOf(req, env), req.fieldTypes).error)
  {
    var nameStatus := NameCheck(req.collectionName, env);
    if !nameStatus.IsOk() then Rejected(nameStatus)
    else match Build(ContextOf(req, env), req.fieldTypes)
      case Err(e) => Aborted(e)
      case Ok(st) =>
        match CollectionInfo(req.collectionName, st.dimension, st.vectorParam, req.extraParams,
                             env.metricTable, env.engineTable, env.defaults)
        case Err(e) => Aborted(e)
        case Ok(info) => Ready(info, st.fields)
  }

  /** A schema that reaches the storage engine has one FieldSchema per entry of
      field_types_, in iteration order, each joined from its entry; the collection carries
      the request's name and a dimension that fits 16 bits. */
  lemma ReadySchemaJoinsFields(req: Request, env: Environment)
    requires Prepare(req, env).Ready?
    ensures var p := Prepare(req, env);
      && |p.fields| == |req.fieldTypes|
      && (forall k :: 0 <= k < |req.fieldTypes| ==> JoinedFrom(ContextOf(req, env), req.fieldTypes[k], p.fields[k]))
      && p.info.collectionId == req.collectionName
      && p.info.dimension < 0x1_0000
  {
    var ctx := ContextOf(req, env);
    BuildJoinsFields(ctx, req.fieldTypes);
    DimensionOfLastVectorField(ctx, req.fieldTypes);
  }

  /** A field name of field_types_ missing from either parameter map means nothing is
      submitted: the request ends with an exception (after a passing name check). */
  lemma MissingFieldIsNeverSubmitted(req: Request, env: Environment, k: nat)
    requires NameCheck(req.collectionName, env).IsOk()
    requires k < |req.fieldTypes|
    requires req.fieldTypes[k].0 !in req.fieldIndexParams || req.fieldTypes[k].0 !in req.fieldParams
    ensures Prepare(req, env).Aborted?
  {
    MissingKeyAbortsBuild(ContextOf(req, env), req.fieldTypes, k);
  }

  /** A "metric_type" string of the last vector field that is not in the metric table
      means nothing is submitted: the request ends with the table's out-of-range
      exception. */
  lemma UnknownMetricTypeIsNeverSubmitted(req: Request, env: Environment, k: nat)
    requires NameCheck(req.collectionName, env).IsOk()
    requires Build(ContextOf(req, env), req.fieldTypes).Ok?
    requires !Contains(req.extraParams, "segment_size") || AsInt64(Member(req.extraParams, "segment_size")).Ok?
    requires k < |req.fieldTypes| && IsVector(req.fieldTypes[k].1)
    requires forall j :: k < j < |req.fieldTypes| ==> !IsVector(req.fieldTypes[j].1)
    requires HasParsedParams(ContextOf(req, env), req.fieldTypes[k])
    requires var param := ParsedParams(ContextOf(req, env), req.fieldTypes[k]);
      Contains(param, "metric_type") && Member(param, "metric_type").Str? &&
      Member(param, "metric_type").s !in env.metricTable
    ensures Prepare(req, env) == Aborted(OutOfRange)
  {
    VectorParamOfLastVectorField(ContextOf(req, env), req.fieldTypes);
  }

  /** A schema that reaches the storage engine carries, as dimension, the "dimension" of
      the last vector field that has one, in iteration order, even when a later vector
      field has none; it is 0 when no vector field has one. */
  lemma ReadyDimension(req: Request, env: Environment)
    requires Prepare(req, env).Ready?
    ensures var ctx := ContextOf(req, env);
      var es := req.fieldTypes;
      && ((forall j :: 0 <= j < |es| ==> !SetsDimension(ctx, es[j])) ==> Prepare(req, env).info.dimension == 0)
      && (forall k ::
            (0 <= k < |es| && SetsDimension(ctx, es[k]) && (forall j :: k < j < |es| ==> !SetsDimension(ctx, es[j]))) ==>
              AsUint16(Member(ParsedParams(ctx, es[k]), "dimension")) == Ok(Prepare(req, env).info.dimension))
  {
    DimensionOfLastVectorField(ContextOf(req, env), req.fieldTypes);
  }

  /** A dimension set by an earlier vector field survives a last vector field whose
      parameters lack "dimension": fields v1 {"dimension": 64} then v2 {} submit 64. */
  lemma DimensionCarriedOverExample(env: Environment, p1: string, p2: string)
    requires NameCheck("c", env).IsOk()
    requires env.codec.parse(p1) == Ok(Object(map["dimension" := Number(64)]))
    requires env.codec.parse(p2) == Ok(Object(map[]))
    ensures var req := Request("c", [("v1", FloatVector), ("v2", FloatVector)],
                               map["v1" := Object(map[]), "v2" := Object(map[])],
                               map["v1" := p1, "v2" := p2], Null);
      Prepare(req, env).Ready? && Prepare(req, env).info.dimension == 64
  {
  }

  /** A schema that reaches the storage engine carries the metric and engine codes of
      the last vector field's "metric_type" and "index_type" (the defaults when they are
      absent), and that field's "dimension" when it has one. */
  lemma ReadyVectorAttributes(req: Request, env: Environment, k: nat)
    requires Prepare(req, env).Ready?
    requires k < |req.fieldTypes| && IsVector(req.fieldTypes[k].1)
    requires forall j :: k < j < |req.fieldTypes| ==> !IsVector(req.fieldTypes[j].1)
    ensures HasParsedParams(ContextOf(req, env), req.fieldTypes[k])
    ensures var param := ParsedParams(ContextOf(req, env), req.fieldTypes[k]);
      var info := Prepare(req, env).info;
      && (Contains(param, "dimension") ==> AsUint16(Member(param, "dimension")) == Ok(info.dimension))
      && (!Contains(param, "metric_type") ==> info.metricType == env.defaults.metricType)
      && (Contains(param, "metric_type") ==>
            && Member(param, "metric_type").Str?
            && Member(param, "metric_type").s in env.metricTable
            && info.metricType == env.metricTable[Member(param, "metric_type").s])
      && (!Contains(param, "index_type") ==> info.engineType == env.defaults.engineType)
      && (Contains(param, "index_type") ==>
            && Member(param, "index_type").Str?
            && Member(param, "index_type").s in env.engineTable
            && info.engineType == env.engineTable[Member(param, "index_type").s])
  {
    var ctx := ContextOf(req, env);
    VectorParamOfLastVectorField(ctx, req.fieldTypes);
    DimensionOfLastVectorField(ctx, req.fieldTypes);
    var es := req.fieldTypes;
    if Contains(ParsedParams(ctx, es[k]), "dimension") {
      assert SetsDimension(ctx, es[k]);
      forall j | k < j < |es| ensures !SetsDimension(ctx, es[j]) { }
    }
  }

  /** Without any vector field, the submitted schema has dimension 0 and the default
      metric and engine codes. */
  lemma ReadyWithoutVectorField(req: Request, env: Environment)
    requires Prepare(req, env).Ready?
    requires forall k :: 0 <= k < |req.fieldTypes| ==> !IsVector(req.fieldTypes[k].1)
    ensures Prepare(req, env).info.dimension == 0
    ensures Prepare(req, env).info.metricType == env.defaults.metricType
    ensures Prepare(req, env).info.engineType == env.defaults.engineType
  {
    VectorParamOfLastVectorField(ContextOf(req, env), req.fieldTypes);
  }

  /** With a null extra_params_, which is what the constructor as written stores, the
      submitted index_file_size is always the default. */
  lemma SegmentSizeIgnoredAsWritten(req: Request, env: Environment)
    requires req.extraParams == Null
    requires Prepare(req, env).Ready?
    ensures Prepare(req, env).info.indexFileSize == env.defaults.indexFileSize
  {
  }

  /** When extra_params_ holds the caller's extra_params, a 64-bit "segment_size"
      becomes the submitted index_file_size. */
  lemma SegmentSizeHonouredWhenStored(req: Request, env: Environment, size: int)
    requires Contains(req.extraParams, "segment_size")
    requires Member(req.extraParams, "segment_size") == Number(size)
    requires -0x8000_0000_0000_0000 <= size < 0x8000_0000_0000_0000
    requires Prepare(req, env).Ready?
    ensures Prepare(req, env).info.indexFileSize == size
  {
  }

  /** The constructor as written drops a "segment_size" of 512: with the same name and
      no fields, the request it builds submits the default index_file_size, while a
      request that keeps the caller's extra_params submits 512. */
  lemma SegmentSizeDroppedByConstructor(env: Environment)
    requires NameCheck("coll1", env).IsOk()
    requires env.defaults.indexFileSize != 512
    ensures var extra := Object(map["segment_size" := Number(512)]);
      var asWritten := Prepare(Request("coll1", [], map[], map[], Null), env);
      var intended := Prepare(Request("coll1", [], map[], map[], extra), env);
      && asWritten.Ready? && asWritten.info.indexFileSize != 512
      && intended.Ready? && intended.info.indexFileSize == 512
  {
  }

  /** One FLOAT_VECTOR field "vec" whose parameters parse to dimension 128, metric "L2"
      and index "IVF_FLAT", with empty index parameters and no extra parameters: the
      prepared schema is the named collection with dimension 128, the two table codes and
      the default index_file_size, and a single FieldSchema for "vec". */
  lemma SingleVectorFieldExample(env: Environment, name: string, params: string)
    requires NameCheck(name, env).IsOk()
    requires env.codec.parse(params) ==
      Ok(Object(map["dimension" := Number(128), "metric_type" := Str("L2"), "index_type" := Str("IVF_FLAT")]))
    requires "L2" in env.metricTable && "IVF_FLAT" in env.engineTable
    ensures Prepare(Request(name, [("vec", FloatVector)], map["vec" := Object(map[])], map["vec" := params], Null), env)
      == Ready(CollectionSchema(name, 128, env.defaults.indexFileSize, env.metricTable["L2"], env.engineTable["IVF_FLAT"]),
               [FieldSchema(name, "vec", FloatVector, "", env.codec.dump(Object(map[])), params)])
  {
  }

  /** The request object. Its members are set once by the constructor and only read by
      OnExecute. */
  class CreateHybridCollectionRequest {
    const collectionName: string
    const fieldTypes: seq<Entry>
    const fieldIndexParams: map<string, Json>
    const fieldParams: map<string, string>
    const extraParams: Json

    /** As written: extraParams is accepted but not stored, so extra_params_ stays a
        default-constructed (null) JSON value. */
    constructor(collectionName: string, fieldTypes: seq<Entry>, fieldIndexParams: map<string, Json>,
                fieldParams: map<string, string>, extraParams: Json)
      requires DistinctNames(fieldTypes)
      ensures this.collectionName == collectionName && this.fieldTypes == fieldTypes
      ensures this.fieldIndexParams == fieldIndexParams && this.fieldParams == fieldParams
      ensures this.extraParams == Null
    {
      this.collectionName := collectionName;
      this.fieldTypes := fieldTypes;
      this.fieldIndexParams := fieldIndexParams;
      this.fieldParams := fieldParams;
      this.extraParams := Null;
    }

    /** The evidently intended constructor: extra_params is stored as well. */
    constructor WithExtraParams(collectionName: string, fieldTypes: seq<Entry>, fieldIndexParams: map<string, Json>,
                                fieldParams: map<string, string>, extraParams: Json)
      requires DistinctNames(fieldTypes)
      ensures this.collectionName == collectionName && this.fieldTypes == fieldTypes
      ensures this.fieldIndexParams == fieldIndexParams && this.fieldParams == fieldParams
      ensures this.extraParams == extraParams
    {
      this.collectionName := collectionName;
      this.fieldTypes := fieldTypes;
      this.fieldIndexParams := fieldIndexParams;
      this.fieldParams := fieldParams;
      this.extraParams := extraParams;
    }

    function Members(): Request {
      Request(collectionName, fieldTypes, fieldIndexParams, fieldParams, extraParams)
    }

    /** The field loop of step 2 (the schema of each field of field_types_, the running
        dimension and vector_param); an exception ends it. */
    method BuildFieldsSchema(codec: Codec) returns (built: Result<BuildState>)
      ensures built == Build(Context(collectionName, fieldIndexParams, fieldParams, codec), fieldTypes)
    {
      ghost var ctx := Context(collectionName, fieldIndexParams, fieldParams, codec);
      var fieldsSchema: seq<FieldSchema> := [];
      var dimension: nat := 0;
      var vectorParam: Json := Null;
      var i := 0;
      while i < |fieldTypes|
        invariant 0 <= i <= |fieldTypes|
        invariant Build(ctx, fieldTypes) == BuildFrom(ctx, BuildState(fieldsSchema, dimension, vectorParam), fieldTypes[i..])
      {
        assert fieldTypes[i..][0] == fieldTypes[i] && fieldTypes[i..][1..] == fieldTypes[i + 1..];
        var (fieldName, fieldType) := fieldTypes[i];
        if fieldName !in fieldIndexParams {
          built := Err(OutOfRange);
          return;
        }
        var indexParams := fieldIndexParams[fieldName];
        var schema := FieldSchema(collectionName, fieldName, fieldType, "", "", "");
        if Contains(indexParams, "name") {
          var indexName := AsString(Member(indexParams, "name"));
          if indexName.Err? {
            built := Err(indexName.error);
            return;
          }
          schema := schema.(indexName := indexName.value);
        }
        schema := schema.(indexParam := codec.dump(indexParams));

        if fieldName !in fieldParams {
          built := Err(OutOfRange);
          return;
        }
        var fieldParam := fieldParams[fieldName];
        schema := schema.(fieldParams := fieldParam);
        fieldsSchema := fieldsSchema + [schema];

        if IsVector(fieldType) {
          var parsed := codec.parse(fieldParam);
          if parsed.Err? {
            built := Err(parsed.error);
            return;
          }
          vectorParam := parsed.value;
          if Contains(vectorParam, "dimension") {
            var d := AsUint16(Member(vectorParam, "dimension"));
            if d.Err? {
              built := Err(d.error);
              return;
            }
            dimension := d.value;
          }
        }
        i := i + 1;
      }
      built := Ok(BuildState(fieldsSchema, dimension, vectorParam));
    }

    /** OnExecute. A rejected name is returned unchanged and an exception before the
        create call becomes an unexpected error; in both cases the storage engine is not
        called. Otherwise the engine is called exactly once, with the prepared schema,
        and its answer is translated. */
    method OnExecute(env: Environment, db: StorageEngine) returns (status: Status)
      modifies db
      ensures match Prepare(Members(), env)
        case Rejected(s) => status == s && db.submissions == old(db.submissions)
        case Aborted(e) => status == Unexpected(e) && db.submissions == old(db.submissions)
        case Ready(info, fields) =>
          && db.submissions == old(db.submissions) + [Submitted(info, fields)]
          && status == Translate(db.respond(info, fields), env.faults.invalidDbExecute)
    {
      // name check, with the fault point overriding the validator
      status := env.validate(collectionName);
      if env.faults.invalidCollectionName {
        status := Status(ServerUnexpectedError, "");
      }
      if !status.IsOk() {
        return;
      }

      // field loop, then the collection attributes one by one
      var built := BuildFieldsSchema(env.codec);
      if built.Err? {
        status := Unexpected(built.error);
        return;
      }
      var fieldsSchema, dimension, vectorParam := built.value.fields, built.value.dimension, built.value.vectorParam;
      ghost var info := CollectionInfo(collectionName, dimension, vectorParam, extraParams,
                                       env.metricTable, env.engineTable, env.defaults);
      assert Prepare(Members(), env) == if info.Ok? then Ready(info.value, fieldsSchema) else Aborted(info.error);

      var collectionInfo := NewCollection(env.defaults);
      collectionInfo := collectionInfo.(collectionId := collectionName);
      collectionInfo := collectionInfo.(dimension := dimension);
      if Contains(extraParams, "segment_size") {
        var size := AsInt64(Member(extraParams, "segment_size"));
        if size.Err? {
          status := Unexpected(size.error);
          return;
        }
        collectionInfo := collectionInfo.(indexFileSize := size.value);
      }
      if Contains(vectorParam, "metric_type") {
        var metricType := LookupCode(env.metricTable, Member(vectorParam, "metric_type"));
        if metricType.Err? {
          status := Unexpected(metricType.error);
          return;
        }
        collectionInfo := collectionInfo.(metricType := metricType.value);
      }
      if Contains(vectorParam, "index_type") {
        var engineType := LookupCode(env.engineTable, Member(vectorParam, "index_type"));
        if engineType.Err? {
          status := Unexpected(engineType.error);
          return;
        }
        collectionInfo := collectionInfo.(engineType := engineType.value);
      }

      assert Prepare(Members(), env) == Ready(collectionInfo, fieldsSchema);

      // submission and translation of the engine's answer
      var reply := db.CreateHybridCollection(collectionInfo, fieldsSchema);
      match reply
      case Threw(e) =>
        status := Unexpected(e);
        return;
      case Returned(s) =>
        status := s;
      if env.faults.invalidDbExecute {
        status := Status(ServerUnexpectedError, "");
      }
      if !status.IsOk() {
        if status.code == DbAlreadyExist {
          status := Status(ServerInvalidCollectionName, status.message);
        }
        return;
      }
      status := OK;
    }
  }
}
