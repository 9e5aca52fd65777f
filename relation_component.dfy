/**
 * The collaborators that every relation component (database, schema, identifier) shares: the
 * component kinds, the rendering policy that prints a path segment, and the lookup of the single
 * record a component reads from the described-relation results.
 */
module RelationComponent {
  import opened Wrappers
  import opened RelationConfig

  /** `ComponentName`: the kind of path segment a component renders. */
  datatype ComponentName = Database | Schema | Identifier

  /**
   * The rendering policy. Its quoting and inclusion rules are not modelled: `part` is any function
   * of the component kind and the component's name, and `None` means the segment is omitted.
   */
  datatype RenderPolicy = RenderPolicy(part: (ComponentName, Value) -> Option<string>)

  /**
   * The single record stored under `grain`: missing grain is an error; a row is returned as it is;
   * a table must hold exactly one row, which is returned.
   */
  function ParseSingleRecord(results: DescribeRelationResults, grain: string): (r: Result<Row, Error>)
    ensures grain !in results ==> r == Failure(GrainMissing(grain))
    ensures r.Success? <==> grain in results && (results[grain].RowGrain? || |results[grain].table| == 1)
    ensures r.Success? && results[grain].RowGrain? ==> r.value == results[grain].row
    ensures r.Success? && results[grain].TableGrain? ==> r.value == results[grain].table[0]
    ensures grain in results && results[grain].TableGrain? && |results[grain].table| != 1 ==>
      r == Failure(GrainNotSingleRecord(grain, |results[grain].table|))
  {
    if grain !in results then
      Failure(GrainMissing(grain))
    else
      match results[grain]
      case RowGrain(row) => Success(row)
      case TableGrain(table) =>
        if |table| == 1 then Success(table[0]) else Failure(GrainNotSingleRecord(grain, |table|))
  }
}
