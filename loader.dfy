/** `load_run_file`: split a decoded document into its run section and its encounter section. */
module Loader {
  import opened Wrappers
  import opened JsonValues

  /**
   * `data.get("run", {})` and `data.get("encounters", [])`. A document that is
   * not a JSON object has no `.get` (AttributeError). Present values are
   * returned as they are, whatever their type; only absent keys are defaulted.
   */
  function LoadRunFile(data: Json): (r: Result<(Json, Json)>)
    ensures r.Ok? <==> data.Obj?
    ensures !data.Obj? ==> r == Err(AttributeError)
    ensures data.Obj? && "run" in data.fields ==> r.value.0 == data.fields["run"]
    ensures data.Obj? && "run" !in data.fields ==> r.value.0 == Obj(map[])
    ensures data.Obj? && "encounters" in data.fields ==> r.value.1 == data.fields["encounters"]
    ensures data.Obj? && "encounters" !in data.fields ==> r.value.1 == Arr([])
  {
    match data
    case Obj(m) => Ok((GetOr(m, "run", Obj(map[])), GetOr(m, "encounters", Arr([]))))
    case _ => Err(AttributeError)
  }
}
