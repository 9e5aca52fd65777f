# Relation configs: construction contract and the database component

This project models, in Dafny, how the adapter layer of dbt builds a relation descriptor
(a *relation config*) and proves what that construction promises.

A relation config is a frozen dataclass. It can be built from two sources:

- from a **model node**, by `parse_model_node` and then `from_dict`;
- from the **metadata the database reports** (`DescribeRelationResults`, a map from a grain
  name such as `"relation"` to a row or a table), by `parse_describe_relation_results` and then
  `from_dict`.

`from_dict` drops every null-valued entry, so that the dataclass's declared defaults apply, and
calls the dataclass constructor with the rest.

The modules follow the source:

- `RelationConfig` (`relation_config.dfy`) models the abstract base in `_base.py`. A config class
  is a `RelationConfigClass` with three parts:
  - its dataclass field table (`Schema`: field name to `Required` or `Default(v)`, where `v` may be null);
  - its two parsers, each either supplied or `None` when the class inherits the abstract method;
  - its `from_dict`, either inherited or an override.
- `RelationConfig` is an abstract base class. `FromDict` therefore fails with an
  abstract-instantiation error for any class that still inherits an abstract parser. Otherwise it
  calls `Init`, the dataclass constructor with keyword arguments. `Init` rejects unknown keywords
  first, then missing required fields; otherwise every field takes its argument or its default.
  `Abstract(schema)` is `RelationConfig` itself.
- `Database` (`database.dfy`) models `DatabaseRelation` in `_database.py`. It is a frozen config
  with one required field, `name`.
- `DbtUtils` (`dbt_utils.dfy`) holds `filter_null_values`. `RelationComponent`
  (`relation_component.dfy`) holds the shared component collaborators: `ComponentName`, the
  rendering policy, and the single-record lookup.
- `Wrappers` holds `Option` (a possibly null value) and `Result` (a value or a raised error).

The model stores Python's dictionaries as `map`s. It models raised exceptions as `Failure`
values of one `Error` datatype. A frozen dataclass is a Dafny datatype value: no operation can
change its fields after construction.

Assumptions about collaborators whose source is not part of this model:

- `core/dbt/adapters/relation/models/_relation_component.py` is not part of this model.
  - The model assumes that a component's `parse_model_node` hands the node to `parse_node`.
    Otherwise `DatabaseRelation`, which overrides only `parse_node`, would remain abstract.
  - It assumes that `RelationComponent` is a `RelationConfig` subclass. It is also assumed not to
    override `from_dict`, `from_model_node` or `from_describe_relation_results`, so the
    `super().from_dict` call in `DatabaseRelation.from_dict` reaches the base `from_dict`.
  - It treats `render` as a class-level collaborator and not as a dataclass field, so the field
    table of `DatabaseRelation` is `name` alone. `render` is passed as a `RenderPolicy` parameter
    whose `part` is an arbitrary function.
  - It models `_parse_single_record_from_describe_relation_results` as follows: a missing grain
    key is an error; a row grain is returned as it is; a table grain must hold exactly one row.
- `filter_null_values` (in `dbt.utils`) is modelled as keeping the entries whose value is not
  null.
- A `ParsedNode` is reduced to its `database` attribute, which may be null.

## Model

| member | source | states |
|---|---|---|
| DbtUtils.FilterNullValues | core/dbt/adapters/materialization_config/_base.py:50 | A key survives filtering exactly when its value is not null, and it keeps that value. |
| DbtUtils.FilterNullValuesIdempotent | core/dbt/adapters/materialization_config/_base.py:43-50 | Filtering an already filtered dictionary changes nothing. |
| DbtUtils.FilterIgnoresNullEntry | core/dbt/adapters/materialization_config/_base.py:50 | Setting a key to null and deleting it give the same filtered dictionary. |
| RelationConfig.Init | core/dbt/adapters/materialization_config/_base.py:35-36 | The frozen-dataclass constructor succeeds exactly when every keyword is a declared field and every field without a default is supplied. An unknown keyword fails with those keys. Otherwise a missing field fails with exactly the missing required fields. On success every field holds its argument, or its default when none was given. |
| RelationConfig.Abstract | core/dbt/adapters/materialization_config/_base.py:35-36 | `RelationConfig` itself has the given field table and inherits `from_dict`. Its abstract methods are exactly `parse_model_node` and `parse_describe_relation_results`. |
| RelationConfig.ParseModelNode | core/dbt/adapters/materialization_config/_base.py:69-91 | `cls.parse_model_node` runs the class's own parser, or raises not-implemented when the class inherits the abstract one. |
| RelationConfig.ParseDescribeRelationResults | core/dbt/adapters/materialization_config/_base.py:113-137 | `cls.parse_describe_relation_results` runs the class's own parser, or raises not-implemented when the class inherits the abstract one. |
| RelationConfig.FromDict | core/dbt/adapters/materialization_config/_base.py:35-50 | A class that still has abstract methods fails with exactly those methods named. Otherwise the call succeeds exactly when every non-null entry names a field and every required field has a non-null entry. Each non-null entry reaches its field unchanged. A null or absent entry yields the declared default. |
| RelationConfig.ClassFromDict | core/dbt/adapters/materialization_config/_base.py:38-50 | `cls.from_dict` is the base `from_dict`, or an override that prepares the dictionary (its error propagates) and ends in the base `from_dict`. It succeeds only for a class with no abstract methods. |
| RelationConfig.FromModelNode | core/dbt/adapters/materialization_config/_base.py:52-67 | A parser error propagates unchanged. Otherwise the result is `cls.from_dict` of the parsed dictionary. It succeeds only when the class supplies both parsers. |
| RelationConfig.FromDescribeRelationResults | core/dbt/adapters/materialization_config/_base.py:93-111 | A parser error propagates unchanged. Otherwise the result is `cls.from_dict` of the parsed dictionary. It succeeds only when the class supplies both parsers. |
| RelationConfig.AbstractParseModelNode | core/dbt/adapters/materialization_config/_base.py:69-91 | The base `parse_model_node` never returns a dictionary; it raises not-implemented. |
| RelationConfig.AbstractParseDescribeRelationResults | core/dbt/adapters/materialization_config/_base.py:113-137 | The base `parse_describe_relation_results` never returns a dictionary; it raises not-implemented. |
| RelationConfig.AbstractClassNeverConstructs | core/dbt/adapters/materialization_config/_base.py:35-137 | For any field table, `RelationConfig` itself fails on both construction paths with the not-implemented message of the parser it reached. Its `from_dict` fails because both parsers are abstract. |
| RelationConfig.HalfConcreteClassNeverConstructs | core/dbt/adapters/materialization_config/_base.py:35-67 | A class that supplies only `parse_model_node` cannot be built from a node either. Once the parser returns, instantiation fails because `parse_describe_relation_results` is still abstract. |
| RelationConfig.FromDictIgnoresNullEntry | core/dbt/adapters/materialization_config/_base.py:50 | Adding or removing a null-valued entry does not change what `from_dict` builds or the error it raises. |
| RelationConfig.FromDictOfFilteredInput | core/dbt/adapters/materialization_config/_base.py:43-50 | Filtering the input before `from_dict` changes nothing. |
| RelationConfig.FromDictRoundTrip | core/dbt/adapters/materialization_config/_base.py:38-50 | Calling `from_dict` on the field dictionary of a constructed config rebuilds the same config. |
| RelationComponent.ParseSingleRecord | core/dbt/adapters/relation/models/_database.py:81-83 | The assumed contract of the single-record lookup called here (see the assumptions above; its code is not part of this model): a missing grain is an error, a row grain is returned as it is, and a table grain yields its row when it holds exactly one and an error naming the row count otherwise. |
| Database.ParseNode | core/dbt/adapters/relation/models/_database.py:38-58 | The result has exactly the key `name`. Its value is null exactly when the node's database is null, and otherwise it is that database. |
| Database.ParseDescribeRelationResults | core/dbt/adapters/relation/models/_database.py:60-84 | A failed single-record lookup under `"relation"` propagates. A record without `database_name` raises a key error. Otherwise the result is exactly `{"name": record["database_name"]}`. |
| Database.ParseModelNode | core/dbt/adapters/relation/models/_database.py:38-58 | The model-node parser that the component base class is assumed to supply never fails, and returns `parse_node(node)`. |
| Database.Build | core/dbt/adapters/relation/models/_database.py:13-20 | The frozen `DatabaseRelation` built from the constructed fields has exactly the field dictionary `{"name": name}`, so instance and fields determine each other. |
| Database.FullyQualifiedPath | core/dbt/adapters/relation/models/_database.py:25-27 | The path is what the rendering policy prints for the `Database` component kind and this `name`. |
| Database.FromDict | core/dbt/adapters/relation/models/_database.py:29-36 | Yields a `DatabaseRelation` exactly when `name` is present and non-null and every other entry is null. Its `name` is that entry. Otherwise it fails with unexpected keywords (not including `name`) or with `name` missing. |
| Database.FromModelNode | core/dbt/adapters/relation/models/_database.py:38-58 | Succeeds exactly when the node's database is non-null, and then `name` is that database. A null database fails because `name` has no default. |
| Database.FromDescribeRelationResults | core/dbt/adapters/relation/models/_database.py:60-84 | Succeeds exactly when the single `"relation"` record exists and has a non-null `database_name`, and then `name` is that value. |
| Database.ToString | core/dbt/adapters/relation/models/_database.py:22-23 | `str(d)` is the fully qualified path when there is one, and `""` when it is `None`. |
| Database.FromModelNodeIsComposition | core/dbt/adapters/materialization_config/_base.py:65-67 | For `DatabaseRelation`, building from a node equals `from_dict(parse_node(node))`. |
| Database.FromDescribeRelationResultsIsComposition | core/dbt/adapters/materialization_config/_base.py:109-111 | For `DatabaseRelation`, building from metadata equals `from_dict` of the parsed metadata, and a parse error propagates. |
| Database.ModelAndMetadataAgree | core/dbt/adapters/relation/models/_database.py:58-84 | Suppose the `"relation"` record's `database_name` equals the node's non-null database. Then both paths succeed and build the same component. |
| Database.FromDictOfOwnFields | core/dbt/adapters/relation/models/_database.py:29-36 | Calling `from_dict` on `{"name": d.name}` gives back `d`. |
| Database.ModelNodeString | core/dbt/adapters/relation/models/_database.py:20-27 | Take a component built from a node with a non-null database. Its path is `render.part(Database, database)`. Its string is that path, or `""` when it is `None`. |

## Left out

- The configuration-change detector and the apply/skip/fail policy are not modelled. Their code is not part of this model; only their observable outcomes appear, in the integration tests.
- Composite descriptors (materialized views with index sets) are not modelled. Their code is not part of this model.
- The three test modules are not modelled. They drive the CLI and a live database.
- The quoting and rendering rules inside `render.part` are not modelled. `part` is an arbitrary function of the component kind and the name.
- The internals of `agate.Row` and `agate.Table` are not modelled. A row is a map from column name to a possibly null cell, and a table is a sequence of rows.
- The attributes of `ModelNode`/`ParsedNode` other than `database` are not modelled, and neither is manifest construction.
- RelationConfig.Init: the error for unknown keywords carries the whole set of unknown keys. Python's `TypeError` names only the first, in dictionary order, which a `map` does not keep.
- The `name` field of `DatabaseRelation` holds any `Value`, not only a string, because Python does not enforce the `name: str` annotation at construction.
- Database.FromDict: the `isinstance` assertion in the source holds by typing: the function's result type is `DatabaseRelation`. The model has no subclasses of `DatabaseRelation`.
- Exception messages other than the two not-implemented messages are not modelled.
- RelationConfig.ClassFromDict: an override of `from_dict` is modelled as a preparation of the dictionary that ends in the base `from_dict`, as the base docstring asks. An override that builds the instance some other way is not modelled.
- RelationComponent.ParseSingleRecord: the errors for a table with zero rows or several rows are a modelling choice. The lookup's code is not part of this model.
