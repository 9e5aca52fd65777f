/**
 * `DatabaseRelation`: the database component of a relation path. It is a frozen config with one
 * field, `name`, built from a model node's `database` or from the `database_name` column of the
 * single "relation" record the database reports.
 */
module Database {
  import opened Wrappers
  import opened RelationConfig
  import Component = RelationComponent

  /** The only attribute of a parsed model node this component reads. */
  datatype ParsedNode = ParsedNode(database: Option<string>)

  /** A constructed database component: frozen, so no operation changes `name`. */
  datatype DatabaseRelation = DatabaseRelation(name: Value)

  /** The dataclass field table: `name`, without a default. */
  const FieldTable: Schema := map["name" := Required]

  /** The grain and column the metadata path reads. */
  const RelationGrain := "relation"
  const DatabaseNameColumn := "database_name"

  /** `parse_node`: the one-entry dictionary holding the node's database, null included. */
  function ParseNode(node: ParsedNode): (r: Kwargs)
    ensures r.Keys == {"name"}
    ensures r["name"].Some? <==> node.database.Some?
    ensures node.database.Some? ==> r["name"] == Some(Str(node.database.value))
  {
    map["name" := match node.database case Some(db) => Some(Str(db)) case None => None]
  }

  /** The model-node parser of a relation component, which hands the node to `parse_node`: it never fails. */
  function ParseModelNode(node: ParsedNode): (r: Result<Kwargs, Error>)
    ensures r.Success? && r.value == ParseNode(node)
  {
    Success(ParseNode(node))
  }

  /**
   * `parse_describe_relation_results`: the one-entry dictionary mapping `name` to the
   * `database_name` cell of the single "relation" record; a failed lookup or a missing column
   * is an error.
   */
  function ParseDescribeRelationResults(results: DescribeRelationResults): (r: Result<Kwargs, Error>)
    ensures Component.ParseSingleRecord(results, RelationGrain).Failure? ==>
      r == Failure(Component.ParseSingleRecord(results, RelationGrain).error)
    ensures r.Success? <==>
      Component.ParseSingleRecord(results, RelationGrain).Success? &&
      DatabaseNameColumn in Component.ParseSingleRecord(results, RelationGrain).value
    ensures r.Success? ==>
      r.value == map["name" := Component.ParseSingleRecord(results, RelationGrain).value[DatabaseNameColumn]]
    ensures Component.ParseSingleRecord(results, RelationGrain).Success? && r.Failure? ==>
      r.error == KeyError(DatabaseNameColumn)
  {
    var relation :- Component.ParseSingleRecord(results, RelationGrain);
    if DatabaseNameColumn in relation then
      Success(map["name" := relation[DatabaseNameColumn]])
    else
      Failure(KeyError(DatabaseNameColumn))
  }

  /** The `from_dict` override: it hands the dictionary unchanged to the base `from_dict`. */
  function PrepareFromDict(kwargs: Kwargs): Result<Kwargs, Error>
  {
    Success(kwargs)
  }

  /** `DatabaseRelation` as a config class: both parsers supplied, `from_dict` overridden. */
  const Class: RelationConfigClass<ParsedNode> :=
    RelationConfigClass(FieldTable, Some(ParseModelNode), Some(ParseDescribeRelationResults), Some(PrepareFromDict))

  /**
   * The frozen `DatabaseRelation` holding constructed fields (`name` is the only field, so it is
   * present); the instance and its field dictionary determine each other.
   */
  function Build(fields: Fields): (d: DatabaseRelation)
    requires fields.Keys == FieldTable.Keys && fields["name"].Some?
    ensures fields == map["name" := Some(d.name)]
  {
    DatabaseRelation(fields["name"].value)
  }

  /**
   * `DatabaseRelation.from_dict`: the shared constructor, always yielding a `DatabaseRelation`.
   * It succeeds exactly when `name` is the only non-null entry and it is present and non-null.
   */
  function FromDict(kwargs: Kwargs): (r: Result<DatabaseRelation, Error>)
    ensures r.Success? <==>
      (forall k :: k in kwargs && kwargs[k].Some? ==> k == "name") && "name" in kwargs && kwargs["name"].Some?
    ensures r.Success? ==> kwargs["name"] == Some(r.value.name)
    ensures r.Failure? ==>
      (r.error.UnexpectedKeywords? && "name" !in r.error.keys) || r.error == MissingArguments({"name"})
  {
    var fields :- RelationConfig.ClassFromDict(Class, kwargs);
    Success(Build(fields))
  }

  /** `from_model_node`: succeeds exactly when the node's database is not null, and then names it. */
  function FromModelNode(node: ParsedNode): (r: Result<DatabaseRelation, Error>)
    ensures r.Success? <==> node.database.Some?
    ensures r.Success? ==> r.value.name == Str(node.database.value)
    ensures r.Failure? ==> r.error == MissingArguments({"name"})
  {
    var fields :- RelationConfig.FromModelNode(Class, node);
    Success(Build(fields))
  }

  /** `from_describe_relation_results`: the component named by the reported `database_name`. */
  function FromDescribeRelationResults(results: DescribeRelationResults): (r: Result<DatabaseRelation, Error>)
    ensures r.Success? <==>
      var record := Component.ParseSingleRecord(results, RelationGrain);
      record.Success? && DatabaseNameColumn in record.value && record.value[DatabaseNameColumn].Some?
    ensures r.Success? ==>
      Component.ParseSingleRecord(results, RelationGrain).value[DatabaseNameColumn] == Some(r.value.name)
  {
    var fields :- RelationConfig.FromDescribeRelationResults(Class, results);
    Success(Build(fields))
  }

  /** `fully_qualified_path`: the segment the rendering policy prints for a database of this name. */
  function FullyQualifiedPath(d: DatabaseRelation, render: Component.RenderPolicy): (r: Option<string>)
    ensures r == render.part(Component.Database, d.name)
  {
    render.part(Component.Database, d.name)
  }

  /** `__str__`: the fully qualified path, or the empty string when there is none. */
  function ToString(d: DatabaseRelation, render: Component.RenderPolicy): (r: string)
    ensures FullyQualifiedPath(d, render).Some? ==> r == FullyQualifiedPath(d, render).value
    ensures FullyQualifiedPath(d, render).None? ==> r == ""
  {
    match FullyQualifiedPath(d, render)
    case Some(path) => path
    case None => ""
  }

  /** `from_model_node` is `parse_node` piped into `from_dict`, with no other processing. */
  lemma FromModelNodeIsComposition(node: ParsedNode)
    ensures FromModelNode(node) == FromDict(ParseNode(node))
  {
  }

  /** `from_describe_relation_results` is the metadata parser piped into `from_dict`. */
  lemma FromDescribeRelationResultsIsComposition(results: DescribeRelationResults)
    ensures ParseDescribeRelationResults(results).Failure? ==>
      FromDescribeRelationResults(results) == Failure(ParseDescribeRelationResults(results).error)
    ensures ParseDescribeRelationResults(results).Success? ==>
      FromDescribeRelationResults(results) == FromDict(ParseDescribeRelationResults(results).value)
  {
  }

  /**
   * When the "relation" record reports as `database_name` the database the model node declares,
   * the model path and the metadata path build the same component.
   */
  lemma ModelAndMetadataAgree(node: ParsedNode, results: DescribeRelationResults)
    requires node.database.Some?
    requires Component.ParseSingleRecord(results, RelationGrain).Success?
    requires DatabaseNameColumn in Component.ParseSingleRecord(results, RelationGrain).value
    requires Component.ParseSingleRecord(results, RelationGrain).value[DatabaseNameColumn] == Some(Str(node.database.value))
    ensures FromModelNode(node).Success?
    ensures FromModelNode(node) == FromDescribeRelationResults(results)
  {
  }

  /** Rebuilding a component from its own dictionary gives it back. */
  lemma FromDictOfOwnFields(d: DatabaseRelation)
    ensures FromDict(map["name" := Some(d.name)]) == Success(d)
  {
  }

  /** The path and string of a component built from a model node are what the policy renders for its database. */
  lemma ModelNodeString(node: ParsedNode, render: Component.RenderPolicy)
    requires node.database.Some?
    ensures FromModelNode(node).Success?
    ensures FullyQualifiedPath(FromModelNode(node).value, render) == render.part(Component.Database, Str(node.database.value))
    ensures var part := render.part(Component.Database, Str(node.database.value));
      ToString(FromModelNode(node).value, render) == if part.Some? then part.value else ""
  {
  }
}
