/**
 * The relation-config contract (`RelationConfig` in `_base.py`): every relation descriptor is
 * built either from a model node or from the metadata the database reports about the relation,
 * and both paths end in one shared constructor, `from_dict`, that drops null entries so that the
 * frozen dataclass applies its declared defaults.
 *
 * A config class is a `RelationConfigClass`: its dataclass field table, its two parsers (each
 * either supplied or inherited from the abstract base) and its `from_dict` (inherited or
 * overridden). The abstract base class itself is `Abstract`.
 */
module RelationConfig {
  import opened Wrappers
  import DbtUtils

  /** A value in a config dictionary or a cell of a described row: a string, a row, or a table. */
  datatype Value =
    | Str(s: string)
    | RowValue(row: map<string, Option<Value>>)
    | TableValue(rows: seq<map<string, Option<Value>>>)

  /** An `agate.Row`: column name to cell, where a cell may be null. */
  type Row = map<string, Option<Value>>

  /** An `agate.Table`: its rows, in order. */
  type Table = seq<Row>

  /** What the database reports at one grain: a single row or a table. */
  datatype Grain = RowGrain(row: Row) | TableGrain(table: Table)

  /** `DescribeRelationResults`: grain name (e.g. "relation", "indexes") to its result. */
  type DescribeRelationResults = map<string, Grain>

  /** The non-validated dictionary form of a config, as the parsers return it. */
  type Kwargs = map<string, Option<Value>>

  /** The field values of a constructed (frozen) config; a field may hold null (its default). */
  type Fields = map<string, Option<Value>>

  /** How a dataclass field is declared: without a default, or with one (which may be null). */
  datatype FieldDefault = Required | Default(value: Option<Value>)

  /** A dataclass's field table: each declared field with its default. */
  type Schema = map<string, FieldDefault>

  /** The errors the construction paths can raise. */
  datatype Error =
    | NotImplemented(message: string)             // NotImplementedError from an abstract parser
    | UnexpectedKeywords(keys: set<string>)       // TypeError: unexpected keyword argument
    | MissingArguments(keys: set<string>)         // TypeError: missing required argument
    | KeyError(key: string)                       // a column absent from a described row
    | GrainMissing(grain: string)                 // the expected grain is not in the results
    | GrainNotSingleRecord(grain: string, rows: nat) // a grain that should hold one row holds another number
    | AbstractInstantiation(methods: set<string>) // TypeError: can't instantiate an abstract class

  const ParseModelNodeMessage := "`parse_model_node()` needs to be implemented for this relation."
  const ParseDescribeRelationResultsMessage := "`parse_describe_relation_results()` needs to be implemented for this relation."

  /** The required fields of `schema` that `args` does not supply. */
  function MissingFields(schema: Schema, args: map<string, Value>): set<string>
  {
    set k | k in schema && schema[k].Required? && k !in args
  }

  /**
   * The generated `__init__` of a frozen dataclass called with keyword arguments only: an unknown
   * keyword is rejected first, then any field without a default that was not supplied; otherwise
   * every field takes its argument, or its default when none was given.
   */
  function Init(schema: Schema, args: map<string, Value>): (r: Result<Fields, Error>)
    ensures r.Success? <==> args.Keys <= schema.Keys && forall k :: k in schema && schema[k].Required? ==> k in args
    ensures !(args.Keys <= schema.Keys) ==> r == Failure(UnexpectedKeywords(args.Keys - schema.Keys))
    ensures args.Keys <= schema.Keys && r.Failure? ==>
      r.error.MissingArguments? && r.error.keys != {} &&
      forall k :: k in r.error.keys <==> k in schema && schema[k].Required? && k !in args
    ensures r.Success? ==> r.value.Keys == schema.Keys
    ensures r.Success? ==> forall k :: k in args ==> r.value[k] == Some(args[k])
    ensures r.Success? ==> forall k :: k in schema && k !in args ==> schema[k] == Default(r.value[k])
  {
    if !(args.Keys <= schema.Keys) then
      Failure(UnexpectedKeywords(args.Keys - schema.Keys))
    else
      var missing := MissingFields(schema, args);
      if missing != {} then
        assert forall k :: k in missing <==> k in schema && schema[k].Required? && k !in args;
        Failure(MissingArguments(missing))
      else
        assert forall k :: k in schema && k !in args ==> k !in missing;
        Success(map k | k in schema :: if k in args then Some(args[k]) else schema[k].value)
  }

  /** A parser a class supplies in place of the abstract one. */
  type ModelNodeParser<!N> = N -> Result<Kwargs, Error>
  type DescribeRelationResultsParser = DescribeRelationResults -> Result<Kwargs, Error>

  /**
   * A config class. A parser slot is `None` when the class inherits the abstract method. A
   * `from_dict` override, as the base docstring asks of it, prepares the dictionary and ends in
   * the base `from_dict`; `None` means the class inherits the base `from_dict`.
   */
  datatype RelationConfigClass<!N> = RelationConfigClass(
    schema: Schema,
    parseModelNode: Option<ModelNodeParser<N>>,
    parseDescribeRelationResults: Option<DescribeRelationResultsParser>,
    fromDictOverride: Option<Kwargs -> Result<Kwargs, Error>>)
  {
    /** The abstract methods the class still inherits; it can be instantiated only when there are none. */
    function AbstractMethods(): set<string>
    {
      (if parseModelNode.None? then {"parse_model_node"} else {}) +
      (if parseDescribeRelationResults.None? then {"parse_describe_relation_results"} else {})
    }
  }

  /** The base `parse_model_node`: always raises `NotImplementedError`. */
  function AbstractParseModelNode<N>(node: N): (r: Result<Kwargs, Error>)
    ensures r.Failure? && r.error.NotImplemented?
  {
    Failure(NotImplemented(ParseModelNodeMessage))
  }

  /** The base `parse_describe_relation_results`: always raises `NotImplementedError`. */
  function AbstractParseDescribeRelationResults(results: DescribeRelationResults): (r: Result<Kwargs, Error>)
    ensures r.Failure? && r.error.NotImplemented?
  {
    Failure(NotImplemented(ParseDescribeRelationResultsMessage))
  }

  /** `RelationConfig` itself: both parsers and `from_dict` inherited from the base. */
  function Abstract<N>(schema: Schema): (cls: RelationConfigClass<N>)
    ensures cls.schema == schema && cls.fromDictOverride.None?
    ensures cls.AbstractMethods() == {"parse_model_node", "parse_describe_relation_results"}
  {
    RelationConfigClass(schema, None, None, None)
  }

  /** `cls.parse_model_node`: the class's own parser, or the abstract one it inherits. */
  function ParseModelNode<N>(cls: RelationConfigClass<N>, node: N): (r: Result<Kwargs, Error>)
    ensures cls.parseModelNode.Some? ==> r == cls.parseModelNode.value(node)
    ensures cls.parseModelNode.None? ==> r == Failure(NotImplemented(ParseModelNodeMessage))
  {
    match cls.parseModelNode
    case Some(parse) => parse(node)
    case None => AbstractParseModelNode(node)
  }

  /** `cls.parse_describe_relation_results`: the class's own parser, or the abstract one. */
  function ParseDescribeRelationResults<N>(cls: RelationConfigClass<N>, results: DescribeRelationResults): (r: Result<Kwargs, Error>)
    ensures cls.parseDescribeRelationResults.Some? ==> r == cls.parseDescribeRelationResults.value(results)
    ensures cls.parseDescribeRelationResults.None? ==> r == Failure(NotImplemented(ParseDescribeRelationResultsMessage))
  {
    match cls.parseDescribeRelationResults
    case Some(parse) => parse(results)
    case None => AbstractParseDescribeRelationResults(results)
  }

  /**
   * The base `from_dict`: `cls(**filter_null_values(kwargs_dict))`. A class that still inherits an
   * abstract parser cannot be instantiated. Otherwise construction succeeds exactly when every
   * non-null entry names a declared field and every field without a default has a non-null entry;
   * then each field holds its non-null entry unchanged, and a null or absent entry yields the default.
   */
  function FromDict<N>(cls: RelationConfigClass<N>, kwargs: Kwargs): (r: Result<Fields, Error>)
    ensures cls.AbstractMethods() != {} ==> r == Failure(AbstractInstantiation(cls.AbstractMethods()))
    ensures r.Success? <==>
      cls.AbstractMethods() == {} &&
      (forall k :: k in kwargs && kwargs[k].Some? ==> k in cls.schema) &&
      (forall k :: k in cls.schema && cls.schema[k].Required? ==> k in kwargs && kwargs[k].Some?)
    ensures r.Success? ==> r.value.Keys == cls.schema.Keys
    ensures r.Success? ==> forall k :: k in kwargs && kwargs[k].Some? ==> r.value[k] == kwargs[k]
    ensures r.Success? ==>
      forall k :: k in cls.schema && (k !in kwargs || kwargs[k].None?) ==> cls.schema[k] == Default(r.value[k])
  {
    if cls.AbstractMethods() != {} then
      Failure(AbstractInstantiation(cls.AbstractMethods()))
    else
      Init(cls.schema, DbtUtils.FilterNullValues(kwargs))
  }

  /** `cls.from_dict`: the class's override, which prepares the dictionary, or the base `from_dict`. */
  function ClassFromDict<N>(cls: RelationConfigClass<N>, kwargs: Kwargs): (r: Result<Fields, Error>)
    ensures cls.fromDictOverride.None? ==> r == FromDict(cls, kwargs)
    ensures cls.fromDictOverride.Some? && cls.fromDictOverride.value(kwargs).Failure? ==>
      r == Failure(cls.fromDictOverride.value(kwargs).error)
    ensures cls.fromDictOverride.Some? && cls.fromDictOverride.value(kwargs).Success? ==>
      r == FromDict(cls, cls.fromDictOverride.value(kwargs).value)
    ensures r.Success? ==> cls.AbstractMethods() == {}
  {
    match cls.fromDictOverride
    case None => FromDict(cls, kwargs)
    case Some(prepare) =>
      var prepared :- prepare(kwargs);
      FromDict(cls, prepared)
  }

  /**
   * `from_model_node`: `cls.parse_model_node` piped into `cls.from_dict`; a parser error propagates,
   * and only a class that supplies both parsers can succeed.
   */
  function FromModelNode<N>(cls: RelationConfigClass<N>, node: N): (r: Result<Fields, Error>)
    ensures ParseModelNode(cls, node).Failure? ==> r == Failure(ParseModelNode(cls, node).error)
    ensures ParseModelNode(cls, node).Success? ==> r == ClassFromDict(cls, ParseModelNode(cls, node).value)
    ensures r.Success? ==> cls.parseModelNode.Some? && cls.parseDescribeRelationResults.Some?
  {
    var kwargs :- ParseModelNode(cls, node);
    ClassFromDict(cls, kwargs)
  }

  /**
   * `from_describe_relation_results`: `cls.parse_describe_relation_results` piped into
   * `cls.from_dict`; a parser error propagates, and only a class that supplies both parsers can succeed.
   */
  function FromDescribeRelationResults<N>(cls: RelationConfigClass<N>, results: DescribeRelationResults): (r: Result<Fields, Error>)
    ensures ParseDescribeRelationResults(cls, results).Failure? ==>
      r == Failure(ParseDescribeRelationResults(cls, results).error)
    ensures ParseDescribeRelationResults(cls, results).Success? ==>
      r == ClassFromDict(cls, ParseDescribeRelationResults(cls, results).value)
    ensures r.Success? ==> cls.parseModelNode.Some? && cls.parseDescribeRelationResults.Some?
  {
    var kwargs :- ParseDescribeRelationResults(cls, results);
    ClassFromDict(cls, kwargs)
  }

  /** Whatever its fields, the abstract base builds nothing: each path stops at its abstract parser. */
  lemma AbstractClassNeverConstructs<N>(schema: Schema, node: N, results: DescribeRelationResults, kwargs: Kwargs)
    ensures FromModelNode(Abstract(schema), node) == Failure(NotImplemented(ParseModelNodeMessage))
    ensures FromDescribeRelationResults(Abstract<N>(schema), results) == Failure(NotImplemented(ParseDescribeRelationResultsMessage))
    ensures FromDict(Abstract<N>(schema), kwargs) ==
      Failure(AbstractInstantiation({"parse_model_node", "parse_describe_relation_results"}))
  {
  }

  /**
   * A class that supplies only its model-node parser still cannot be instantiated: when the parser
   * returns a dictionary, `from_model_node` fails because `parse_describe_relation_results` is
   * abstract, whatever the dictionary holds.
   */
  lemma HalfConcreteClassNeverConstructs<N>(cls: RelationConfigClass<N>, node: N)
    requires cls.parseModelNode.Some? && cls.parseDescribeRelationResults.None? && cls.fromDictOverride.None?
    requires cls.parseModelNode.value(node).Success?
    ensures FromModelNode(cls, node) == Failure(AbstractInstantiation({"parse_describe_relation_results"}))
  {
    var kwargs := cls.parseModelNode.value(node).value;
    assert cls.AbstractMethods() == {"parse_describe_relation_results"};
    assert ClassFromDict(cls, kwargs) == FromDict(cls, kwargs);
  }

  /** A null-valued entry does not matter: setting a key to null builds what deleting it builds. */
  lemma FromDictIgnoresNullEntry<N>(cls: RelationConfigClass<N>, kwargs: Kwargs, k: string)
    ensures FromDict(cls, kwargs[k := None]) == FromDict(cls, kwargs - {k})
  {
    DbtUtils.FilterIgnoresNullEntry(kwargs, k);
  }

  /** Filtering the input first changes nothing, because `from_dict` filters it anyway. */
  lemma FromDictOfFilteredInput<N>(cls: RelationConfigClass<N>, kwargs: Kwargs)
    ensures FromDict(cls, DbtUtils.Lift(DbtUtils.FilterNullValues(kwargs))) == FromDict(cls, kwargs)
  {
    DbtUtils.FilterNullValuesIdempotent(kwargs);
  }

  /** Rebuilding a constructed config from the dictionary of its own fields gives the same config. */
  lemma {:induction false} FromDictRoundTrip<N>(cls: RelationConfigClass<N>, kwargs: Kwargs)
    requires FromDict(cls, kwargs).Success?
    ensures FromDict(cls, FromDict(cls, kwargs).value) == FromDict(cls, kwargs)
  {
    var fields := FromDict(cls, kwargs).value;
    var again := FromDict(cls, fields);
    assert again.Success?;
    assert again.value == fields;
  }
}
