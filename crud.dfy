/** BakeORM's Crud: each operation builds an argument bag, has the query
    builder turn it into SQL, hands the SQL and the parameters to the data
    mapper and decides its answer from the mapper's row count.

    The mapper methods Crud calls (`buildQueryParams`, `persist`,
    `numRows`, `results`, `getLastID`) are those of a collaborator outside
    the model: `Mapper` records each call and answers from
    `MapperAnswers`, which may depend on the calls made before. The
    builder's `searchQuery` is likewise taken as a given function of the
    builder's argument bag. */
module Crud {
  import opened Outcomes
  import opened OrderedMap
  import opened PhpStrings
  import opened PhpValues
  import opened QueryBuilder
  import DataMapper

  type Row = DataMapper.Row

  /** A call Crud makes on its mapper. */
  datatype MapperCall =
    | ParamsCall(args: seq<PhpValue>)
    | PersistCall(query: string, params: PhpValue)
    | NumRowsCall
    | ResultsCall
    | LastIdCall

  /** The mapper's answer to each call, given the calls made before it. */
  datatype MapperAnswers = MapperAnswers(
    queryParams: (seq<MapperCall>, seq<PhpValue>) -> Result<PhpValue>,
    persist: (seq<MapperCall>, string, PhpValue) -> Outcome,
    numRows: seq<MapperCall> -> Result<int>,
    results: seq<MapperCall> -> Result<seq<Row>>,
    lastId: seq<MapperCall> -> Result<int>)

  class Mapper {
    const answers: MapperAnswers
    /** The calls made so far, oldest first. */
    var calls: seq<MapperCall>

    constructor(answers: MapperAnswers)
      ensures this.answers == answers && calls == []
    {
      this.answers := answers;
      calls := [];
    }

    method BuildQueryParams(args: seq<PhpValue>) returns (r: Result<PhpValue>)
      modifies this`calls
      ensures r == answers.queryParams(old(calls), args)
      ensures calls == old(calls) + [ParamsCall(args)]
    {
      r := answers.queryParams(calls, args);
      calls := calls + [ParamsCall(args)];
    }

    method Persist(query: string, params: PhpValue) returns (r: Outcome)
      modifies this`calls
      ensures r == answers.persist(old(calls), query, params)
      ensures calls == old(calls) + [PersistCall(query, params)]
    {
      r := answers.persist(calls, query, params);
      calls := calls + [PersistCall(query, params)];
    }

    method NumRows() returns (r: Result<int>)
      modifies this`calls
      ensures r == answers.numRows(old(calls)) && calls == old(calls) + [NumRowsCall]
    {
      r := answers.numRows(calls);
      calls := calls + [NumRowsCall];
    }

    method Results() returns (r: Result<seq<Row>>)
      modifies this`calls
      ensures r == answers.results(old(calls)) && calls == old(calls) + [ResultsCall]
    {
      r := answers.results(calls);
      calls := calls + [ResultsCall];
    }

    method GetLastID() returns (r: Result<int>)
      modifies this`calls
      ensures r == answers.lastId(old(calls)) && calls == old(calls) + [LastIdCall]
    {
      r := answers.lastId(calls);
      calls := calls + [LastIdCall];
    }
  }

  /** `persist($query, buildQueryParams(...))` then `numRows()`, from the
      log `log`: the row count (or the first error) and the log after. The
      parameters are built before `persist` is called; a query that threw
      reaches the mapper not at all. */
  function Persisted(a: MapperAnswers, log: seq<MapperCall>, query: Result<string>, params: seq<PhpValue>)
    : (r: (Result<int>, seq<MapperCall>))
    ensures log <= r.1
    ensures query.Err? ==> r == (Err(query.error), log)
    ensures r.0.Ok? ==> |r.1| == |log| + 3 && r.1[|log| + 2] == NumRowsCall
  {
    if query.Err? then (Err(query.error), log)
    else
      var p := a.queryParams(log, params);
      var log1 := log + [ParamsCall(params)];
      if p.Err? then (Err(p.error), log1)
      else
        var log2 := log1 + [PersistCall(query.value, p.value)];
        match a.persist(log1, query.value, p.value)
        case Failed(err) => (Err(err), log2)
        case Done => (a.numRows(log2), log2 + [NumRowsCall])
  }

  /** The answer of create, update and delete: exactly one row affected. */
  function OneRow(n: Result<int>): (r: Result<bool>)
    ensures n.Err? <==> r.Err?
    ensures r.Ok? ==> (r.value <==> n.value == 1)
  {
    match n
    case Err(err) => Err(err)
    case Ok(count) => Ok(count == 1)
  }

  // ---------------------------------------------------------------- argument bags

  function CreateArgs(table: string, fields: PArray): PArray
  {
    [("table", VStr(table)), ("type", VStr("insert")), ("fields", VArray(fields))]
  }

  function ReadArgs(table: string, selectors: PArray, conditions: PArray, parameters: PArray, optional: PArray): PArray
  {
    [("table", VStr(table)), ("type", VStr("select")), ("selectors", VArray(selectors)),
     ("conditions", VArray(conditions)), ("params", VArray(parameters)), ("extras", VArray(optional))]
  }

  function UpdateArgs(table: string, fields: PArray, primaryKey: string): PArray
  {
    [("table", VStr(table)), ("type", VStr("update")), ("fields", VArray(fields)), ("primary_key", VStr(primaryKey))]
  }

  function DeleteArgs(table: string, conditions: PArray): PArray
  {
    [("table", VStr(table)), ("type", VStr("delete")), ("conditions", VArray(conditions))]
  }

  function SearchArgs(table: string, selectors: PhpValue, conditions: PhpValue): PArray
  {
    [("table", VStr(table)), ("type", VStr("select")), ("selectors", selectors), ("conditions", conditions)]
  }

  class Crud {
    const dataMapper: Mapper
    const queryBuilder: QueryBuilder
    /** The table name and its key column: set by the constructor only. */
    const tableSchema: string
    const tableSchemaID: string
    /** The builder's `searchQuery`, as a function of its argument bag. */
    const searchQuery: PArray -> Result<string>

    constructor(dataMapper: Mapper, queryBuilder: QueryBuilder, tableSchema: string, tableSchemaID: string,
                searchQuery: PArray -> Result<string>)
      ensures this.dataMapper == dataMapper && this.queryBuilder == queryBuilder
      ensures this.tableSchema == tableSchema && this.tableSchemaID == tableSchemaID
      ensures this.searchQuery == searchQuery
    {
      this.dataMapper := dataMapper;
      this.queryBuilder := queryBuilder;
      this.tableSchema := tableSchema;
      this.tableSchemaID := tableSchemaID;
      this.searchQuery := searchQuery;
    }

    function GetSchema(): (r: string)
      ensures r == tableSchema
    {
      tableSchema
    }

    function GetSchemaID(): (r: string)
      ensures r == tableSchemaID
    {
      tableSchemaID
    }

    method LastID() returns (r: Result<int>)
      modifies dataMapper`calls
      ensures r == dataMapper.answers.lastId(old(dataMapper.calls))
      ensures dataMapper.calls == old(dataMapper.calls) + [LastIdCall]
    {
      r := dataMapper.GetLastID();
    }

    /** Hand `query` to the mapper and count the affected rows. */
    method PersistAndCount(query: Result<string>, params: seq<PhpValue>) returns (r: Result<int>)
      modifies dataMapper`calls
      ensures (r, dataMapper.calls) == Persisted(dataMapper.answers, old(dataMapper.calls), query, params)
    {
      if query.Err? {
        return Err(query.error);
      }
      var p := dataMapper.BuildQueryParams(params);
      if p.Err? {
        return Err(p.error);
      }
      var stored := dataMapper.Persist(query.value, p.value);
      if stored.Failed? {
        return Err(stored.error);
      }
      r := dataMapper.NumRows();
    }

    method Create(fields: PArray) returns (r: Result<bool>)
      modifies queryBuilder, dataMapper`calls
      ensures queryBuilder.key == Some(Merged(CreateArgs(tableSchema, fields)))
      ensures var q := InsertSql(ReadsOf(Merged(CreateArgs(tableSchema, fields))));
        && queryBuilder.sqlQuery == (if q.Ok? && q.value != "" then q.value else old(queryBuilder.sqlQuery))
        && var (n, log) := Persisted(dataMapper.answers, old(dataMapper.calls), q, [VArray(fields)]);
           r == OneRow(n) && dataMapper.calls == log
    {
      var args := CreateArgs(tableSchema, fields);
      var built := queryBuilder.BuildQuery(args);
      var query := built.value.InsertQuery();
      var n := PersistAndCount(query, [VArray(fields)]);
      r := OneRow(n);
    }

    /** `read`: the rows, or [] when the count is not positive. */
    method Read(selectors: PArray, conditions: PArray, parameters: PArray, optional: PArray)
      returns (r: Result<seq<Row>>)
      modifies queryBuilder, dataMapper`calls
      ensures queryBuilder.key == Some(Merged(ReadArgs(tableSchema, selectors, conditions, parameters, optional)))
      ensures var q := SelectSql(ReadsOf(Merged(ReadArgs(tableSchema, selectors, conditions, parameters, optional))));
        var (n, log) := Persisted(dataMapper.answers, old(dataMapper.calls), q, [VArray(conditions), VArray(parameters)]);
        && (q.Ok? ==> queryBuilder.sqlQuery == q.value)
        && (n.Err? ==> r == Err(n.error) && dataMapper.calls == log)
        && (n.Ok? && n.value <= 0 ==> r == Ok([]) && dataMapper.calls == log)
        && (n.Ok? && n.value > 0 ==>
              r == dataMapper.answers.results(log) && dataMapper.calls == log + [ResultsCall])
    {
      var args := ReadArgs(tableSchema, selectors, conditions, parameters, optional);
      var built := queryBuilder.BuildQuery(args);
      var query := built.value.SelectQuery();
      var n := PersistAndCount(query, [VArray(conditions), VArray(parameters)]);
      if n.Err? {
        return Err(n.error);
      }
      if n.value > 0 {
        r := dataMapper.Results();
        return;
      }
      return Ok([]);
    }

    method Update(fields: PArray, primaryKey: string) returns (r: Result<bool>)
      modifies queryBuilder, dataMapper`calls
      ensures var a := ReadsOf(Merged(UpdateArgs(tableSchema, fields, primaryKey)));
        var q := UpdateSql(a);
        && queryBuilder.key == Some(if q.Ok? && UpdateDropsKey(a)
                                     then Remove(Merged(UpdateArgs(tableSchema, fields, primaryKey)), "primary_key")
                                     else Merged(UpdateArgs(tableSchema, fields, primaryKey)))
        && (q.Ok? && q.value != "" ==> queryBuilder.sqlQuery == q.value)
        && var (n, log) := Persisted(dataMapper.answers, old(dataMapper.calls), q, [VArray(fields)]);
           r == OneRow(n) && dataMapper.calls == log
    {
      var args := UpdateArgs(tableSchema, fields, primaryKey);
      var built := queryBuilder.BuildQuery(args);
      var query := built.value.UpdateQuery();
      var n := PersistAndCount(query, [VArray(fields)]);
      r := OneRow(n);
    }

    method Delete(conditions: PArray) returns (r: Result<bool>)
      modifies queryBuilder, dataMapper`calls
      ensures queryBuilder.key == Some(Merged(DeleteArgs(tableSchema, conditions)))
      ensures var d := DeleteSql(ReadsOf(Merged(DeleteArgs(tableSchema, conditions))), old(queryBuilder.sqlQuery));
        && queryBuilder.sqlQuery == d.1
        && var (n, log) := Persisted(dataMapper.answers, old(dataMapper.calls), d.0, [VArray(conditions)]);
           r == OneRow(n) && dataMapper.calls == log
    {
      var args := DeleteArgs(tableSchema, conditions);
      var built := queryBuilder.BuildQuery(args);
      var query := built.value.DeleteQuery();
      var n := PersistAndCount(query, [VArray(conditions)]);
      r := OneRow(n);
    }

    /** `search`: its parameters are untyped. */
    method Search(selectors: PhpValue, conditions: PhpValue) returns (r: Result<seq<Row>>)
      modifies queryBuilder`key, dataMapper`calls
      ensures queryBuilder.key == Some(Merged(SearchArgs(tableSchema, selectors, conditions)))
      ensures var q := searchQuery(Merged(SearchArgs(tableSchema, selectors, conditions)));
        var (n, log) := Persisted(dataMapper.answers, old(dataMapper.calls), q, [conditions]);
        && (n.Err? ==> r == Err(n.error) && dataMapper.calls == log)
        && (n.Ok? && n.value <= 0 ==> r == Ok([]) && dataMapper.calls == log)
        && (n.Ok? && n.value > 0 ==>
              r == dataMapper.answers.results(log) && dataMapper.calls == log + [ResultsCall])
    {
      var args := SearchArgs(tableSchema, selectors, conditions);
      var built := queryBuilder.BuildQuery(args);
      var query := searchQuery(built.value.key.value);
      var n := PersistAndCount(query, [conditions]);
      if n.Err? {
        return Err(n.error);
      }
      if n.value > 0 {
        r := dataMapper.Results();
        return;
      }
      return Ok([]);
    }

    /** `rawQuery` ignores its arguments. */
    method RawQuery(query: string, params: Option<PArray>) returns (r: seq<Row>)
      ensures r == []
    {
      return [];
    }
  }

  // ---------------------------------------------------------------- the SQL each operation builds

  lemma CreateLookups(table: string, fields: PArray)
    ensures DistinctKeys(CreateArgs(table, fields))
    ensures Lookup(CreateArgs(table, fields), "table") == Some(VStr(table))
    ensures Lookup(CreateArgs(table, fields), "fields") == Some(VArray(fields))
    ensures Lookup(CreateArgs(table, fields), "selectors") == None
    ensures Lookup(CreateArgs(table, fields), "conditions") == None
    ensures Lookup(CreateArgs(table, fields), "order_by") == None
    ensures Lookup(CreateArgs(table, fields), "limit") == None
    ensures Lookup(CreateArgs(table, fields), "offset") == None
    ensures Lookup(CreateArgs(table, fields), "primary_key") == None
  {
    var a := CreateArgs(table, fields);
    LookupAt(a, 0, "table");
    LookupAt(a, 2, "fields");
  }

  /** What the builder reads from create's bag: the fields and the table;
      everything else is the template's. */
  lemma CreateReads(table: string, fields: PArray)
    ensures ReadsOf(Merged(CreateArgs(table, fields))) ==
      Reads(Some(VArray(fields)), Some(VStr(table)), Some(VArray([])), Some(VArray([])), Some(VArray([])),
            None, None, Some(VStr("")))
  {
    CreateLookups(table, fields);
    MergedReads(CreateArgs(table, fields));
  }

  /** create inserts one column and one placeholder per field, in order;
      with no fields the builder returns ''. */
  lemma CreateStatement(table: string, fields: PArray)
    ensures InsertSql(ReadsOf(Merged(CreateArgs(table, fields)))) ==
      if |fields| > 0
      then Ok("INSERT INTO " + table + " (" + Implode(", ", Keys(fields)) + ") VALUES ("
              + Implode(", ", Prefixed(":", Keys(fields))) + ")")
      else Ok("")
  {
    CreateReads(table, fields);
    var a := ReadsOf(Merged(CreateArgs(table, fields)));
    if |fields| > 0 {
      InsertStatement(a, fields, table);
    } else {
      InsertNeedsFields(a);
    }
  }

  lemma ReadLookups(table: string, selectors: PArray, conditions: PArray, parameters: PArray, optional: PArray)
    ensures DistinctKeys(ReadArgs(table, selectors, conditions, parameters, optional))
    ensures Lookup(ReadArgs(table, selectors, conditions, parameters, optional), "table") == Some(VStr(table))
    ensures Lookup(ReadArgs(table, selectors, conditions, parameters, optional), "selectors") == Some(VArray(selectors))
    ensures Lookup(ReadArgs(table, selectors, conditions, parameters, optional), "conditions") == Some(VArray(conditions))
    ensures Lookup(ReadArgs(table, selectors, conditions, parameters, optional), "fields") == None
    ensures Lookup(ReadArgs(table, selectors, conditions, parameters, optional), "order_by") == None
    ensures Lookup(ReadArgs(table, selectors, conditions, parameters, optional), "limit") == None
    ensures Lookup(ReadArgs(table, selectors, conditions, parameters, optional), "offset") == None
    ensures Lookup(ReadArgs(table, selectors, conditions, parameters, optional), "primary_key") == None
  {
    var a := ReadArgs(table, selectors, conditions, parameters, optional);
    LookupAt(a, 0, "table");
    LookupAt(a, 2, "selectors");
    LookupAt(a, 3, "conditions");
  }

  lemma ReadReads(table: string, selectors: PArray, conditions: PArray, parameters: PArray, optional: PArray)
    ensures ReadsOf(Merged(ReadArgs(table, selectors, conditions, parameters, optional))) ==
      Reads(Some(VArray([])), Some(VStr(table)), Some(VArray(selectors)), Some(VArray(conditions)),
            Some(VArray([])), None, None, Some(VStr("")))
  {
    ReadLookups(table, selectors, conditions, parameters, optional);
    MergedReads(ReadArgs(table, selectors, conditions, parameters, optional));
  }

  /** read's `params` and `extras` are never read by the builder: they do
      not change the SQL. */
  lemma ReadIgnoresParameters(table: string, selectors: PArray, conditions: PArray,
                              p1: PArray, o1: PArray, p2: PArray, o2: PArray)
    ensures ReadsOf(Merged(ReadArgs(table, selectors, conditions, p1, o1)))
         == ReadsOf(Merged(ReadArgs(table, selectors, conditions, p2, o2)))
  {
    ReadReads(table, selectors, conditions, p1, o1);
    ReadReads(table, selectors, conditions, p2, o2);
  }

  /** read never leaves out `order_by`'s template value `[]`, which SELECT
      cannot interpolate: every read throws before the mapper is called. */
  lemma ReadNeverReachesMapper(table: string, selectors: PArray, conditions: PArray, parameters: PArray, optional: PArray)
    ensures SelectSql(ReadsOf(Merged(ReadArgs(table, selectors, conditions, parameters, optional))))
         == Err(ArrayToStringConversion)
  {
    ReadReads(table, selectors, conditions, parameters, optional);
    SelectOfArrayOrderBy(ReadsOf(Merged(ReadArgs(table, selectors, conditions, parameters, optional))));
  }

  /** So `read` hands nothing to the mapper: its log is unchanged and the
      warning is rethrown. */
  lemma ReadThrowsBeforeMapper(a: MapperAnswers, log: seq<MapperCall>, table: string, selectors: PArray,
                               conditions: PArray, parameters: PArray, optional: PArray)
    ensures Persisted(a, log, SelectSql(ReadsOf(Merged(ReadArgs(table, selectors, conditions, parameters, optional)))),
                      [VArray(conditions), VArray(parameters)])
         == (Err(ArrayToStringConversion), log)
  {
    ReadNeverReachesMapper(table, selectors, conditions, parameters, optional);
  }

  /** With a string table and array selectors, an array `order_by` is
      the first thing SELECT cannot convert. */
  lemma SelectOfArrayOrderBy(a: Reads)
    requires a.table.Some? && a.table.value.VStr? && a.selectors.Some? && a.selectors.value.VArray?
    requires a.orderBy.Some? && a.orderBy.value.VArray?
    ensures SelectSql(a) == Err(ArrayToStringConversion)
  {
  }

  lemma UpdateLookups(table: string, fields: PArray, primaryKey: string)
    ensures DistinctKeys(UpdateArgs(table, fields, primaryKey))
    ensures Lookup(UpdateArgs(table, fields, primaryKey), "table") == Some(VStr(table))
    ensures Lookup(UpdateArgs(table, fields, primaryKey), "fields") == Some(VArray(fields))
    ensures Lookup(UpdateArgs(table, fields, primaryKey), "primary_key") == Some(VStr(primaryKey))
    ensures Lookup(UpdateArgs(table, fields, primaryKey), "selectors") == None
    ensures Lookup(UpdateArgs(table, fields, primaryKey), "conditions") == None
    ensures Lookup(UpdateArgs(table, fields, primaryKey), "order_by") == None
    ensures Lookup(UpdateArgs(table, fields, primaryKey), "limit") == None
    ensures Lookup(UpdateArgs(table, fields, primaryKey), "offset") == None
  {
    var a := UpdateArgs(table, fields, primaryKey);
    LookupAt(a, 0, "table");
    LookupAt(a, 2, "fields");
    LookupAt(a, 3, "primary_key");
  }

  lemma UpdateReads(table: string, fields: PArray, primaryKey: string)
    ensures ReadsOf(Merged(UpdateArgs(table, fields, primaryKey))) ==
      Reads(Some(VArray(fields)), Some(VStr(table)), Some(VArray([])), Some(VArray([])), Some(VArray([])),
            None, None, Some(VStr(primaryKey)))
  {
    UpdateLookups(table, fields, primaryKey);
    MergedReads(UpdateArgs(table, fields, primaryKey));
  }

  /** update sets the last field value that is not the key string itself,
      keyed by the primary key with LIMIT 1, unless the key is '0'. */
  lemma UpdateStatement(table: string, fields: PArray, primaryKey: string)
    requires |fields| > 0
    ensures UpdateSql(ReadsOf(Merged(UpdateArgs(table, fields, primaryKey)))).Ok? ==>
      var j := LastNonKey(Values(fields), VStr(primaryKey));
      && 0 <= j < |fields| && StringOf(fields[j].1).Some?
      && var column := StringOf(fields[j].1).value;
         UpdateSql(ReadsOf(Merged(UpdateArgs(table, fields, primaryKey)))).value
           == UpdateText(table, column + " = :" + column, primaryKey, primaryKey != "0")
  {
    UpdateReads(table, fields, primaryKey);
    UpdateStatementOf(ReadsOf(Merged(UpdateArgs(table, fields, primaryKey))), table, fields, primaryKey);
  }

  lemma UpdateStatementOf(a: Reads, table: string, fields: PArray, primaryKey: string)
    requires |fields| > 0 && a.fields == Some(VArray(fields)) && a.table == Some(VStr(table))
    requires a.primaryKey == Some(VStr(primaryKey))
    ensures UpdateSql(a).Ok? ==>
      var j := LastNonKey(Values(fields), VStr(primaryKey));
      && 0 <= j < |fields| && StringOf(fields[j].1).Some?
      && var column := StringOf(fields[j].1).value;
         UpdateSql(a).value == UpdateText(table, column + " = :" + column, primaryKey, primaryKey != "0")
  {
    UpdateSetsLastValueOnly(a, fields, table, VStr(primaryKey));
  }

  lemma DeleteLookups(table: string, conditions: PArray)
    ensures DistinctKeys(DeleteArgs(table, conditions))
    ensures Lookup(DeleteArgs(table, conditions), "table") == Some(VStr(table))
    ensures Lookup(DeleteArgs(table, conditions), "conditions") == Some(VArray(conditions))
    ensures Lookup(DeleteArgs(table, conditions), "fields") == None
    ensures Lookup(DeleteArgs(table, conditions), "selectors") == None
    ensures Lookup(DeleteArgs(table, conditions), "order_by") == None
    ensures Lookup(DeleteArgs(table, conditions), "limit") == None
    ensures Lookup(DeleteArgs(table, conditions), "offset") == None
    ensures Lookup(DeleteArgs(table, conditions), "primary_key") == None
  {
    var a := DeleteArgs(table, conditions);
    LookupAt(a, 0, "table");
    LookupAt(a, 2, "conditions");
  }

  lemma DeleteReads(table: string, conditions: PArray)
    ensures ReadsOf(Merged(DeleteArgs(table, conditions))) ==
      Reads(Some(VArray([])), Some(VStr(table)), Some(VArray([])), Some(VArray(conditions)), Some(VArray([])),
            None, None, Some(VStr("")))
  {
    DeleteLookups(table, conditions);
    MergedReads(DeleteArgs(table, conditions));
  }

  /** delete passes no fields, so its statement always keeps LIMIT 1 and
      is keyed by the first condition; no condition throws. */
  lemma DeleteStatement(table: string, conditions: PArray, sql: string)
    ensures DeleteSql(ReadsOf(Merged(DeleteArgs(table, conditions))), sql).0 ==
      if |conditions| == 0 then Err(UndefinedKey)
      else Ok(DeleteText(table, conditions[0].0, true))
  {
    DeleteReads(table, conditions);
    DeleteOfDefaults(table, conditions, sql);
  }

  /** DELETE on the bag delete builds, once the reads are known. */
  lemma DeleteOfDefaults(table: string, conditions: PArray, sql: string)
    ensures DeleteSql(Reads(Some(VArray([])), Some(VStr(table)), Some(VArray([])), Some(VArray(conditions)),
                            Some(VArray([])), None, None, Some(VStr(""))), sql).0 ==
      if |conditions| == 0 then Err(UndefinedKey)
      else Ok(DeleteText(table, conditions[0].0, true))
  {
  }
}
