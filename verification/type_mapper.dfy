/** Resolution of the "metric_type" and "index_type" strings of a vector field through
    the fixed enumeration tables s_map_metric_type and s_map_engine_type. The tables'
    contents are defined outside this model and given as finite maps. */
module TypeMapper {
  import opened Errors
  import opened Json

  /** table.at(key), where the JSON key is first converted to std::string. */
  function LookupCode(table: map<string, int>, key: Json): (r: Result<int>)
    ensures r.Ok? <==> key.Str? && key.s in table
    ensures r.Ok? ==> r.value == table[key.s]
    ensures !key.Str? ==> r == Err(TypeError("string", TypeName(key)))
    ensures key.Str? && key.s !in table ==> r == Err(OutOfRange)
  {
    match AsString(key)
    case Err(e) => Err(e)
    case Ok(s) => if s in table then Ok(table[s]) else Err(OutOfRange)
  }
}
