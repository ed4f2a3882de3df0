/** The schema-building part of CreateHybridCollectionRequest::OnExecute, as a
    specification: the field loop (one FieldSchema per entry of field_types_, plus the
    running dimension and vector_param) and the collection attributes set after it. */
module SchemaBuilder {
  import opened Errors
  import opened Json
  import opened Meta
  import opened TypeMapper

  /** An entry of field_types_: a field name and its type. field_types_ is an unordered
      map, so the model takes its entries as a sequence in iteration order. */
  type Entry = (string, DataType)

  /** What one pass of the field loop reads besides its entry. */
  datatype Context = Context(
    collectionName: string,
    fieldIndexParams: map<string, Json>,
    fieldParams: map<string, string>,
    codec: Codec)

  /** What a field contributes to the loop's running vector state. */
  datatype DimensionUpdate = KeepDimension | SetDimension(value: nat)
  datatype VectorInfo = NotVector | VectorParams(param: Json, dimension: DimensionUpdate)

  /** The outcome of one pass: the field's schema and its vector contribution. */
  datatype FieldResult = FieldResult(schema: FieldSchema, vector: VectorInfo)

  /** The loop's state: fields_schema so far, dimension and vector_param. */
  datatype BuildState = BuildState(fields: seq<FieldSchema>, dimension: nat, vectorParam: Json)

  /** The state before the first pass: no fields, dimension 0, vector_param a null JSON value. */
  const Initial: BuildState := BuildState([], 0, Null)

  /** The field's index name: the "name" member of its index parameters as a string,
      or the empty string when there is no such member. */
  function IndexName(indexParams: Json): Result<string> {
    if Contains(indexParams, "name") then AsString(Member(indexParams, "name")) else Ok("")
  }

  /** The entry is vector-typed and its raw parameter string exists and parses. */
  predicate HasParsedParams(ctx: Context, e: Entry) {
    IsVector(e.1) && e.0 in ctx.fieldParams && ctx.codec.parse(ctx.fieldParams[e.0]).Ok?
  }

  function ParsedParams(ctx: Context, e: Entry): Json
    requires HasParsedParams(ctx, e)
  {
    ctx.codec.parse(ctx.fieldParams[e.0]).value
  }

  /** The entry is vector-typed and its parsed parameters carry "dimension". */
  predicate SetsDimension(ctx: Context, e: Entry) {
    HasParsedParams(ctx, e) && Contains(ParsedParams(ctx, e), "dimension")
  }

  /** The vector contribution of a field whose raw parameter string is fieldParam. */
  function VectorInfoOf(t: DataType, fieldParam: string, codec: Codec): Result<VectorInfo> {
    if !IsVector(t) then Ok(NotVector)
    else match codec.parse(fieldParam)
      case Err(e) => Err(e)
      case Ok(param) =>
        if !Contains(param, "dimension") then Ok(VectorParams(param, KeepDimension))
        else match AsUint16(Member(param, "dimension"))
          case Err(e) => Err(e)
          case Ok(d) => Ok(VectorParams(param, SetDimension(d)))
  }

  /** One pass of the field loop: look up the index parameters (throws when missing),
      take the index name, dump the index parameters, look up the raw field parameters
      (throws when missing), and for a vector field parse them and read "dimension". */
  function FieldOutcome(ctx: Context, e: Entry): (r: Result<FieldResult>)
    ensures e.0 !in ctx.fieldIndexParams ==> r == Err(OutOfRange)
    ensures e.0 in ctx.fieldIndexParams && IndexName(ctx.fieldIndexParams[e.0]).Err? ==>
      r == Err(IndexName(ctx.fieldIndexParams[e.0]).error)
    ensures e.0 in ctx.fieldIndexParams && IndexName(ctx.fieldIndexParams[e.0]).Ok? && e.0 !in ctx.fieldParams ==>
      r == Err(OutOfRange)
    ensures r.Ok? <==>
      e.0 in ctx.fieldIndexParams && IndexName(ctx.fieldIndexParams[e.0]).Ok? && e.0 in ctx.fieldParams &&
      (IsVector(e.1) ==>
         HasParsedParams(ctx, e) &&
         (SetsDimension(ctx, e) ==> AsUint16(Member(ParsedParams(ctx, e), "dimension")).Ok?))
    ensures r.Ok? ==> JoinedFrom(ctx, e, r.value.schema)
    ensures r.Ok? ==> (r.value.vector.NotVector? <==> !IsVector(e.1))
    ensures r.Ok? && r.value.vector.VectorParams? ==>
      HasParsedParams(ctx, e) && r.value.vector.param == ParsedParams(ctx, e) &&
      (r.value.vector.dimension.SetDimension? <==> SetsDimension(ctx, e))
    ensures r.Ok? && SetsDimension(ctx, e) ==>
      r.value.vector.VectorParams? && r.value.vector.dimension.SetDimension? &&
      AsUint16(Member(ParsedParams(ctx, e), "dimension")) == Ok(r.value.vector.dimension.value)
  {
    var (fieldName, fieldType) := e;
    if fieldName !in ctx.fieldIndexParams then Err(OutOfRange)
    else
      var indexParams := ctx.fieldIndexParams[fieldName];
      match IndexName(indexParams)
      case Err(x) => Err(x)
      case Ok(indexName) =>
        if fieldName !in ctx.fieldParams then Err(OutOfRange)
        else
          var fieldParam := ctx.fieldParams[fieldName];
          var schema := FieldSchema(ctx.collectionName, fieldName, fieldType, indexName,
                                    ctx.codec.dump(indexParams), fieldParam);
          match VectorInfoOf(fieldType, fieldParam, ctx.codec)
          case Err(x) => Err(x)
          case Ok(vector) => Ok(FieldResult(schema, vector))
  }

  /** The FieldSchema f is the join of entry e with its two looked-up parameter sets:
      the collection's name, the entry's name and type, the index name taken from the
      "name" member (empty when absent), the dumped index parameters and the raw,
      unparsed field parameter string. */
  predicate JoinedFrom(ctx: Context, e: Entry, f: FieldSchema) {
    e.0 in ctx.fieldIndexParams && e.0 in ctx.fieldParams &&
    var indexParams := ctx.fieldIndexParams[e.0];
    f.collectionId == ctx.collectionName &&
    f.fieldName == e.0 &&
    f.fieldType == e.1 &&
    (if Contains(indexParams, "name") then Member(indexParams, "name") == Str(f.indexName)
     else f.indexName == "") &&
    f.indexParam == ctx.codec.dump(indexParams) &&
    f.fieldParams == ctx.fieldParams[e.0]
  }

  /** The state after a pass that produced fr: the schema is appended; a vector field
      replaces vector_param, and replaces dimension when its parameters carry one. */
  function Apply(st: BuildState, fr: FieldResult): BuildState {
    match fr.vector
    case NotVector => st.(fields := st.fields + [fr.schema])
    case VectorParams(param, KeepDimension) => st.(fields := st.fields + [fr.schema], vectorParam := param)
    case VectorParams(param, SetDimension(d)) => BuildState(st.fields + [fr.schema], d, param)
  }

  /** The field loop run from state st over the remaining entries es; the first pass
      that throws ends it. */
  function BuildFrom(ctx: Context, st: BuildState, es: seq<Entry>): Result<BuildState>
    decreases |es|
  {
    if es == [] then Ok(st)
    else match FieldOutcome(ctx, es[0])
      case Err(x) => Err(x)
      case Ok(fr) => BuildFrom(ctx, Apply(st, fr), es[1..])
  }

  /** The whole field loop over field_types_ in iteration order. */
  function Build(ctx: Context, es: seq<Entry>): Result<BuildState> {
    BuildFrom(ctx, Initial, es)
  }

  lemma {:induction false} BuildFromAppends(ctx: Context, st: BuildState, es: seq<Entry>, st': BuildState)
    requires BuildFrom(ctx, st, es) == Ok(st')
    ensures |st'.fields| == |st.fields| + |es|
    ensures st'.fields[..|st.fields|] == st.fields
    ensures forall k :: 0 <= k < |es| ==>
      FieldOutcome(ctx, es[k]).Ok? && st'.fields[|st.fields| + k] == FieldOutcome(ctx, es[k]).value.schema
    decreases |es|
  {
    if es != [] {
      var fr := FieldOutcome(ctx, es[0]).value;
      var mid := Apply(st, fr);
      BuildFromAppends(ctx, mid, es[1..], st');
      forall k | 0 <= k < |es|
        ensures FieldOutcome(ctx, es[k]).Ok? && st'.fields[|st.fields| + k] == FieldOutcome(ctx, es[k]).value.schema
      {
        if k > 0 {
          assert es[k] == es[1..][k - 1];
        } else {
          assert st'.fields[|st.fields|] == st'.fields[..|mid.fields|][|st.fields|];
        }
      }
      calc {
        st'.fields[..|st.fields|];
        st'.fields[..|mid.fields|][..|st.fields|];
        mid.fields[..|st.fields|];
        st.fields;
      }
    }
  }

  lemma {:induction false} BuildFromStopsAtFirstError(ctx: Context, st: BuildState, es: seq<Entry>, k: nat)
    requires k < |es|
    requires FieldOutcome(ctx, es[k]).Err?
    requires forall j :: 0 <= j < k ==> FieldOutcome(ctx, es[j]).Ok?
    ensures BuildFrom(ctx, st, es) == Err(FieldOutcome(ctx, es[k]).error)
    decreases k
  {
    if k > 0 {
      var mid := Apply(st, FieldOutcome(ctx, es[0]).value);
      forall j | 0 <= j < k - 1
        ensures FieldOutcome(ctx, es[1..][j]).Ok?
      {
        assert es[1..][j] == es[j + 1];
      }
      assert es[1..][k - 1] == es[k];
      BuildFromStopsAtFirstError(ctx, mid, es[1..], k - 1);
    }
  }

  lemma {:induction false} BuildFromCompletes(ctx: Context, st: BuildState, es: seq<Entry>)
    requires forall k :: 0 <= k < |es| ==> FieldOutcome(ctx, es[k]).Ok?
    ensures BuildFrom(ctx, st, es).Ok?
    decreases |es|
  {
    if es != [] {
      assert FieldOutcome(ctx, es[0]).Ok?;
      forall k | 0 <= k < |es| - 1
        ensures FieldOutcome(ctx, es[1..][k]).Ok?
      {
        assert es[1..][k] == es[k + 1];
      }
      BuildFromCompletes(ctx, Apply(st, FieldOutcome(ctx, es[0]).value), es[1..]);
    }
  }

  lemma {:induction false} BuildFromKeepsDimension(ctx: Context, st: BuildState, es: seq<Entry>, st': BuildState)
    requires BuildFrom(ctx, st, es) == Ok(st')
    requires forall k :: 0 <= k < |es| ==> !SetsDimension(ctx, es[k])
    ensures st'.dimension == st.dimension
    decreases |es|
  {
    if es != [] {
      var fr := FieldOutcome(ctx, es[0]).value;
      forall k | 0 <= k < |es| - 1
        ensures !SetsDimension(ctx, es[1..][k])
      {
        assert es[1..][k] == es[k + 1];
      }
      BuildFromKeepsDimension(ctx, Apply(st, fr), es[1..], st');
    }
  }

  lemma {:induction false} BuildFromLastDimension(ctx: Context, st: BuildState, es: seq<Entry>, st': BuildState, k: nat)
    requires BuildFrom(ctx, st, es) == Ok(st')
    requires k < |es| && SetsDimension(ctx, es[k])
    requires forall j :: k < j < |es| ==> !SetsDimension(ctx, es[j])
    ensures AsUint16(Member(ParsedParams(ctx, es[k]), "dimension")) == Ok(st'.dimension)
    decreases |es|
  {
    var fr := FieldOutcome(ctx, es[0]).value;
    var mid := Apply(st, fr);
    if k == 0 {
      forall j | 0 <= j < |es| - 1
        ensures !SetsDimension(ctx, es[1..][j])
      {
        assert es[1..][j] == es[j + 1];
      }
      BuildFromKeepsDimension(ctx, mid, es[1..], st');
    } else {
      forall j | k - 1 < j < |es| - 1
        ensures !SetsDimension(ctx, es[1..][j])
      {
        assert es[1..][j] == es[j + 1];
      }
      assert es[1..][k - 1] == es[k];
      BuildFromLastDimension(ctx, mid, es[1..], st', k - 1);
    }
  }

  lemma {:induction false} BuildFromKeepsVectorParam(ctx: Context, st: BuildState, es: seq<Entry>, st': BuildState)
    requires BuildFrom(ctx, st, es) == Ok(st')
    requires forall k :: 0 <= k < |es| ==> !IsVector(es[k].1)
    ensures st'.vectorParam == st.vectorParam && st'.dimension == st.dimension
    decreases |es|
  {
    if es != [] {
      var fr := FieldOutcome(ctx, es[0]).value;
      forall k | 0 <= k < |es| - 1
        ensures !IsVector(es[1..][k].1)
      {
        assert es[1..][k] == es[k + 1];
      }
      BuildFromKeepsVectorParam(ctx, Apply(st, fr), es[1..], st');
    }
  }

  lemma {:induction false} BuildFromLastVectorParam(ctx: Context, st: BuildState, es: seq<Entry>, st': BuildState, k: nat)
    requires BuildFrom(ctx, st, es) == Ok(st')
    requires k < |es| && IsVector(es[k].1)
    requires forall j :: k < j < |es| ==> !IsVector(es[j].1)
    ensures HasParsedParams(ctx, es[k]) && st'.vectorParam == ParsedParams(ctx, es[k])
    decreases |es|
  {
    var fr := FieldOutcome(ctx, es[0]).value;
    var mid := Apply(st, fr);
    if k == 0 {
      forall j | 0 <= j < |es| - 1
        ensures !IsVector(es[1..][j].1)
      {
        assert es[1..][j] == es[j + 1];
      }
      BuildFromKeepsVectorParam(ctx, mid, es[1..], st');
    } else {
      forall j | k - 1 < j < |es| - 1
        ensures !IsVector(es[1..][j].1)
      {
        assert es[1..][j] == es[j + 1];
      }
      assert es[1..][k - 1] == es[k];
      BuildFromLastVectorParam(ctx, mid, es[1..], st', k - 1);
    }
  }

  lemma {:induction false} BuildFromDimensionBound(ctx: Context, st: BuildState, es: seq<Entry>, st': BuildState)
    requires BuildFrom(ctx, st, es) == Ok(st')
    requires st.dimension < 0x1_0000
    ensures st'.dimension < 0x1_0000
    decreases |es|
  {
    if es != [] {
      BuildFromDimensionBound(ctx, Apply(st, FieldOutcome(ctx, es[0]).value), es[1..], st');
    }
  }

  /** The loop completes exactly when every entry's pass completes; otherwise it throws
      the exception of the first entry, in iteration order, whose pass throws. */
  lemma BuildFailsAtFirstFailingField(ctx: Context, es: seq<Entry>)
    ensures Build(ctx, es).Ok? <==> forall k :: 0 <= k < |es| ==> FieldOutcome(ctx, es[k]).Ok?
    ensures forall k ::
      (0 <= k < |es| && FieldOutcome(ctx, es[k]).Err? && (forall j :: 0 <= j < k ==> FieldOutcome(ctx, es[j]).Ok?)) ==>
        Build(ctx, es) == Err(FieldOutcome(ctx, es[k]).error)
  {
    if Build(ctx, es).Ok? {
      BuildFromAppends(ctx, Initial, es, Build(ctx, es).value);
    }
    if forall k :: 0 <= k < |es| ==> FieldOutcome(ctx, es[k]).Ok? {
      BuildFromCompletes(ctx, Initial, es);
    }
    forall k | 0 <= k < |es| && FieldOutcome(ctx, es[k]).Err? &&
      (forall j :: 0 <= j < k ==> FieldOutcome(ctx, es[j]).Ok?)
      ensures Build(ctx, es) == Err(FieldOutcome(ctx, es[k]).error)
    {
      BuildFromStopsAtFirstError(ctx, Initial, es, k);
    }
  }

  /** A field name missing from the index-parameter map or the field-parameter map makes
      the loop throw; when the first entry that fails misses its index parameters, the
      exception is the out-of-range one of that lookup, which comes first. */
  lemma MissingKeyAbortsBuild(ctx: Context, es: seq<Entry>, k: nat)
    requires k < |es|
    requires es[k].0 !in ctx.fieldIndexParams || es[k].0 !in ctx.fieldParams
    ensures Build(ctx, es).Err?
    ensures es[k].0 !in ctx.fieldIndexParams && (forall j :: 0 <= j < k ==> FieldOutcome(ctx, es[j]).Ok?) ==>
      Build(ctx, es) == Err(OutOfRange)
  {
    BuildFailsAtFirstFailingField(ctx, es);
  }

  /** When the loop completes, fields_schema holds exactly one FieldSchema per entry of
      field_types_, in iteration order, each joined from its entry. */
  lemma BuildJoinsFields(ctx: Context, es: seq<Entry>)
    requires Build(ctx, es).Ok?
    ensures |Build(ctx, es).value.fields| == |es|
    ensures forall k :: 0 <= k < |es| ==> JoinedFrom(ctx, es[k], Build(ctx, es).value.fields[k])
  {
    var st := Build(ctx, es).value;
    BuildFromAppends(ctx, Initial, es, st);
    forall k | 0 <= k < |es|
      ensures JoinedFrom(ctx, es[k], st.fields[k])
    {
      var r := FieldOutcome(ctx, es[k]);
      assert st.fields[|Initial.fields| + k] == r.value.schema;
    }
  }

  /** field_types_ is a map: its entries have distinct names. */
  predicate DistinctNames(es: seq<Entry>) {
    forall i, j :: 0 <= i < j < |es| ==> es[i].0 != es[j].0
  }

  /** Distinct field names in field_types_ give distinct field names in fields_schema. */
  lemma BuildKeepsNamesDistinct(ctx: Context, es: seq<Entry>)
    requires Build(ctx, es).Ok?
    requires DistinctNames(es)
    ensures forall i, j :: 0 <= i < j < |Build(ctx, es).value.fields| ==>
      Build(ctx, es).value.fields[i].fieldName != Build(ctx, es).value.fields[j].fieldName
  {
    BuildJoinsFields(ctx, es);
  }

  /** dimension is 0 unless some vector field's parsed parameters carry "dimension";
      then it is the value of the last such field in iteration order, as a uint16. */
  lemma DimensionOfLastVectorField(ctx: Context, es: seq<Entry>)
    requires Build(ctx, es).Ok?
    ensures Build(ctx, es).value.dimension < 0x1_0000
    ensures (forall k :: 0 <= k < |es| ==> !SetsDimension(ctx, es[k])) ==> Build(ctx, es).value.dimension == 0
    ensures forall k ::
      (0 <= k < |es| && SetsDimension(ctx, es[k]) && (forall j :: k < j < |es| ==> !SetsDimension(ctx, es[j]))) ==>
        AsUint16(Member(ParsedParams(ctx, es[k]), "dimension")) == Ok(Build(ctx, es).value.dimension)
  {
    var st' := Build(ctx, es).value;
    BuildFromDimensionBound(ctx, Initial, es, st');
    if forall k :: 0 <= k < |es| ==> !SetsDimension(ctx, es[k]) {
      BuildFromKeepsDimension(ctx, Initial, es, st');
    }
    forall k | 0 <= k < |es| && SetsDimension(ctx, es[k]) && (forall j :: k < j < |es| ==> !SetsDimension(ctx, es[j]))
      ensures AsUint16(Member(ParsedParams(ctx, es[k]), "dimension")) == Ok(st'.dimension)
    {
      BuildFromLastDimension(ctx, Initial, es, st', k);
    }
  }

  /** vector_param is a null JSON value when no field is vector-typed, and otherwise the
      parsed parameters of the last vector-typed field in iteration order; non-vector
      fields change neither vector_param nor dimension. */
  lemma VectorParamOfLastVectorField(ctx: Context, es: seq<Entry>)
    requires Build(ctx, es).Ok?
    ensures (forall k :: 0 <= k < |es| ==> !IsVector(es[k].1)) ==>
      Build(ctx, es).value.vectorParam == Null && Build(ctx, es).value.dimension == 0
    ensures forall k :: 0 <= k < |es| && IsVector(es[k].1) && (forall j :: k < j < |es| ==> !IsVector(es[j].1)) ==>
      HasParsedParams(ctx, es[k]) && Build(ctx, es).value.vectorParam == ParsedParams(ctx, es[k])
  {
    var st' := Build(ctx, es).value;
    if forall k :: 0 <= k < |es| ==> !IsVector(es[k].1) {
      BuildFromKeepsVectorParam(ctx, Initial, es, st');
    }
    forall k | 0 <= k < |es| && IsVector(es[k].1) && (forall j :: k < j < |es| ==> !IsVector(es[j].1))
      ensures HasParsedParams(ctx, es[k]) && st'.vectorParam == ParsedParams(ctx, es[k])
    {
      BuildFromLastVectorParam(ctx, Initial, es, st', k);
    }
  }

  /** The collection attributes set after the loop, in source order: the name and the
      dimension, then index_file_size from extra_params' "segment_size", then the metric
      and engine codes of the last vector field's "metric_type" and "index_type". A
      conversion or a table lookup that fails throws. */
  function CollectionInfo(name: string, dimension: nat, vectorParam: Json, extraParams: Json,
                          metricTable: map<string, int>, engineTable: map<string, int>,
                          defaults: Defaults): (r: Result<CollectionSchema>)
    ensures r.Ok? <==>
      (Contains(extraParams, "segment_size") ==> AsInt64(Member(extraParams, "segment_size")).Ok?) &&
      (Contains(vectorParam, "metric_type") ==>
        Member(vectorParam, "metric_type").Str? && Member(vectorParam, "metric_type").s in metricTable) &&
      (Contains(vectorParam, "index_type") ==>
        Member(vectorParam, "index_type").Str? && Member(vectorParam, "index_type").s in engineTable)
    ensures r.Ok? ==> r.value.collectionId == name && r.value.dimension == dimension
    ensures r.Ok? ==>
      r.value.indexFileSize ==
        if Contains(extraParams, "segment_size") then AsInt64(Member(extraParams, "segment_size")).value
        else defaults.indexFileSize
    ensures r.Ok? ==>
      r.value.metricType ==
        if Contains(vectorParam, "metric_type") then metricTable[Member(vectorParam, "metric_type").s]
        else defaults.metricType
    ensures r.Ok? ==>
      r.value.engineType ==
        if Contains(vectorParam, "index_type") then engineTable[Member(vectorParam, "index_type").s]
        else defaults.engineType
    ensures
      (&& (!Contains(extraParams, "segment_size") || AsInt64(Member(extraParams, "segment_size")).Ok?)
       && Contains(vectorParam, "metric_type") && Member(vectorParam, "metric_type").Str?
       && Member(vectorParam, "metric_type").s !in metricTable) ==>
        r == Err(OutOfRange)
  {
    var info := NewCollection(defaults).(collectionId := name, dimension := dimension);
    var size := if Contains(extraParams, "segment_size") then AsInt64(Member(extraParams, "segment_size"))
                else Ok(info.indexFileSize);
    var metric := if Contains(vectorParam, "metric_type") then LookupCode(metricTable, Member(vectorParam, "metric_type"))
                  else Ok(info.metricType);
    var engine := if Contains(vectorParam, "index_type") then LookupCode(engineTable, Member(vectorParam, "index_type"))
                  else Ok(info.engineType);
    if size.Err? then Err(size.error)
    else if metric.Err? then Err(metric.error)
    else if engine.Err? then Err(engine.error)
    else Ok(info.(indexFileSize := size.value, metricType := metric.value, engineType := engine.value))
  }
}
