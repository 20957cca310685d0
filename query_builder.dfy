/** BakeORM's QueryBuilder: the argument bag of one query (`$key`, the
    defaults overlaid by the caller's arguments) and the SQL text the four
    generators derive from it (`$sqlQuery`).

    The generators read eight arguments of the bag; `Reads` collects them
    and the `*Sql` functions give what each generator computes from them.
    The methods of class QueryBuilder are proved against those functions,
    and the lemmas after the class state what the generated text is. */
module QueryBuilder {
  import opened Outcomes
  import opened OrderedMap
  import opened PhpStrings
  import opened PhpValues

  /** The template every argument bag is merged onto. */
  const SQL_DEFAULT: PArray := [
    ("conditions", VArray([])),
    ("selectors", VArray([])),
    ("replace", VBool(false)),
    ("distinct", VBool(false)),
    ("from", VArray([])),
    ("where", VArray([])),
    ("and", VArray([])),
    ("or", VArray([])),
    ("order_by", VArray([])),
    ("fields", VArray([])),
    ("primary_key", VStr("")),
    ("table", VStr("")),
    ("type", VStr("")),
    ("raw", VStr(""))
  ]

  const QUERY_TYPES: seq<string> := ["insert", "select", "update", "delete", "raw"]

  /** `array_merge(SQL_DEFAULT, $args)`: the template's keys are distinct
      strings, so merging it onto the empty array copies it (lemma
      MergedIsArrayMerge) and the caller's pairs are merged onto that. */
  function Merged(args: PArray): PArray
  {
    MergeInto(SQL_DEFAULT, args)
  }

  /** `in_array($type, QUERY_TYPES)`: the candidates are non-numeric
      strings, so loose comparison is string equality here, and the check
      accepts exactly the five query type names. */
  predicate IsQueryTypeValid(t: string)
    ensures IsQueryTypeValid(t) <==> t == "insert" || t == "select" || t == "update" || t == "delete" || t == "raw"
  {
    t in QUERY_TYPES
  }

  /** The arguments the generators read (None: the key is absent). */
  datatype Reads = Reads(
    fields: Option<PhpValue>,
    table: Option<PhpValue>,
    selectors: Option<PhpValue>,
    conditions: Option<PhpValue>,
    orderBy: Option<PhpValue>,
    limit: Option<PhpValue>,
    offset: Option<PhpValue>,
    primaryKey: Option<PhpValue>)

  function ReadsOf(k: PArray): Reads
  {
    Reads(Lookup(k, "fields"), Lookup(k, "table"), Lookup(k, "selectors"), Lookup(k, "conditions"),
          Lookup(k, "order_by"), Lookup(k, "limit"), Lookup(k, "offset"), Lookup(k, "primary_key"))
  }

  /** Reading an argument; a missing key is the "Undefined array key" warning. */
  function Field(o: Option<PhpValue>): Result<PhpValue>
  {
    match o
    case Some(v) => Ok(v)
    case None => Err(UndefinedKey)
  }

  /** An argument interpolated into a double-quoted string. */
  function Text(o: Option<PhpValue>): Result<string>
  {
    match o
    case None => Err(UndefinedKey)
    case Some(v) =>
      match StringOf(v)
      case Some(s) => Ok(s)
      case None => Err(ArrayToStringConversion)
  }

  /** `implode($sep, $values)`; an array element cannot be converted. */
  function ImplodeValues(sep: string, vs: seq<PhpValue>): (r: Result<string>)
    ensures r.Err? <==> exists i :: 0 <= i < |vs| && vs[i].VArray?
    ensures r.Err? ==> r.error == ArrayToStringConversion
  {
    if |vs| == 0 then Ok("")
    else
      match StringOf(vs[0])
      case None => Err(ArrayToStringConversion)
      case Some(s) =>
        if |vs| == 1 then Ok(s)
        else
          var rest := ImplodeValues(sep, vs[1..]);
          if rest.Err? then rest else Ok(s + sep + rest.value)
  }

  // ---------------------------------------------------------------- INSERT

  /** What `insertQuery` returns: the INSERT statement, or '' when
      `fields` is not a non-empty array. */
  function InsertSql(a: Reads): Result<string>
  {
    var f := Field(a.fields);
    if f.Err? then Err(f.error)
    else if f.value.VArray? && |f.value.a| > 0 then
      var index := Keys(f.value.a);
      var t := Text(a.table);
      if t.Err? then Err(t.error)
      else
        var placeholders := ":" + Implode(", :", index);
        Ok("INSERT INTO " + t.value + " (" + Implode(", ", index) + ") VALUES (" + placeholders + ")")
    else Ok("")
  }

  // ---------------------------------------------------------------- SELECT

  /** `SELECT <selectors|*> FROM <table>`, before the condition suffix. */
  function SelectHead(a: Reads): Result<string>
  {
    var selectors :=
      if a.selectors.None? || IsEmpty(a.selectors.value) then Ok("*")
      else if a.selectors.value.VArray? then ImplodeValues(", ", Values(a.selectors.value.a))
      else Err(TypeError);
    if selectors.Err? then selectors
    else
      var t := Text(a.table);
      if t.Err? then Err(t.error) else Ok("SELECT " + selectors.value + " FROM " + t.value)
  }

  /** The `col = :col` terms `hasConditions` collects, skipping the key ''. */
  function ConditionTerms(keys: seq<string>): seq<string>
  {
    if |keys| == 0 then []
    else
      var w := keys[|keys| - 1];
      ConditionTerms(keys[..|keys| - 1]) + (if w != "" then [w + " = :" + w] else [])
  }

  /** The statement after the WHERE step of `hasConditions`, from `sql`. */
  function WherePart(c: Option<PhpValue>, sql: string): string
  {
    if c.Some? && IsSet(c.value) && !LooseEqualsEmptyString(c.value) then
      if c.value.VArray? && |c.value.a| > 0 then
        sql + " WHERE " + Implode(" AND ", ConditionTerms(Keys(c.value.a)))
      else sql
    else if c.None? || IsEmpty(c.value) then " WHERE 1"
    else sql
  }

  /** The statement after the ORDER BY step of `hasConditions`. */
  function OrderPart(a: Reads, sql: string): Result<string>
  {
    if a.orderBy.Some? && IsSet(a.orderBy.value) && !LooseEqualsEmptyString(a.orderBy.value) then
      match StringOf(a.orderBy.value)
      case Some(s) => Ok(sql + " ORDER BY " + s + " ")
      case None => Err(ArrayToStringConversion)
    else Ok(sql)
  }

  /** The statement after the ORDER BY and LIMIT steps of `hasConditions`. */
  function OrderAndLimit(a: Reads, sql: string): Result<string>
  {
    var ordered := OrderPart(a, sql);
    if ordered.Err? then ordered
    else if a.limit.Some? && IsSet(a.limit.value) then
      match a.offset
      case None => Err(UndefinedKey)
      case Some(off) =>
        if !LooseEqualsInt(off, -1) then Ok(ordered.value + " LIMIT :limit OFFSET :offset ")
        else ordered
    else ordered
  }

  /** What `hasConditions` returns (and leaves stored), from `sql`. */
  function ConditionsSql(a: Reads, sql: string): Result<string>
  {
    OrderAndLimit(a, WherePart(a.conditions, sql))
  }

  /** The statement `hasConditions` leaves stored when it fails: the WHERE
      step has been applied, and so has ORDER BY unless ORDER BY is what
      failed (a missing offset fails after it). */
  function ConditionsFailedState(a: Reads, sql: string): string
  {
    var w := WherePart(a.conditions, sql);
    var o := OrderPart(a, w);
    if o.Err? then w else o.value
  }

  /** What `selectQuery` returns. */
  function SelectSql(a: Reads): Result<string>
  {
    var head := SelectHead(a);
    if head.Err? then head else ConditionsSql(a, head.value)
  }

  // ---------------------------------------------------------------- UPDATE

  /** `"{$v} = :{$v}, "`. */
  function Assignment(s: string): string
  {
    s + " = :" + s + ", "
  }

  /** `$values` after the `foreach` over the field values of `updateQuery`:
      every value not identical to the primary key REPLACES it (None:
      never assigned). */
  function UpdateValues(vs: seq<PhpValue>, pk: PhpValue): Result<Option<string>>
  {
    if |vs| == 0 then Ok(None)
    else
      var before := UpdateValues(vs[..|vs| - 1], pk);
      var v := vs[|vs| - 1];
      if before.Err? || v == pk then before
      else match StringOf(v)
        case None => Err(ArrayToStringConversion)
        case Some(s) => Ok(Some(Assignment(s)))
  }

  /** `substr_replace($s, '', -2)`: drop the last two characters. */
  function DropLastTwo(s: string): string
  {
    if |s| >= 2 then s[..|s| - 2] else ""
  }

  /** Does `updateQuery` reach the `'0'` branch (and unset the key)? */
  predicate UpdateDropsKey(a: Reads)
  {
    a.fields.Some? && a.fields.value.VArray? && |a.fields.value.a| > 0 && a.primaryKey == Some(VStr("0"))
  }

  /** What `updateQuery` returns. */
  function UpdateSql(a: Reads): Result<string>
  {
    var f := Field(a.fields);
    if f.Err? then Err(f.error)
    else if f.value.VArray? && |f.value.a| > 0 then
      var pk := Field(a.primaryKey);
      if pk.Err? then Err(pk.error)
      else
        var vals := UpdateValues(Values(f.value.a), pk.value);
        if vals.Err? then Err(vals.error)
        else if vals.value.None? then Err(UndefinedVariable)
        else
          var assigns := DropLastTwo(vals.value.value);
          var t := Text(a.table);
          if t.Err? then Err(t.error)
          else match StringOf(pk.value)
            case None => Err(ArrayToStringConversion)
            case Some(p) =>
              if pk.value == VStr("0") then Ok("UPDATE " + t.value + " SET " + assigns)
              else Ok("UPDATE " + t.value + " SET " + assigns + " WHERE " + p + " = :" + p + " LIMIT 1")
    else Ok("")
  }

  // ---------------------------------------------------------------- DELETE

  /** The DELETE statement on one column, with or without `LIMIT 1`. */
  function DeleteText(table: string, column: string, limited: bool): string
  {
    "DELETE FROM " + table + " WHERE " + column + " = :" + column + (if limited then " LIMIT 1" else "")
  }

  /** What `deleteQuery` returns, paired with the stored statement
      afterwards (it is stored before the `fields` check can throw). */
  function DeleteSql(a: Reads, sql: string): (Result<string>, string)
  {
    var c := Field(a.conditions);
    if c.Err? then (Err(c.error), sql)
    else if !c.value.VArray? then (Err(TypeError), sql)
    else
      var t := Text(a.table);
      if t.Err? then (Err(t.error), sql)
      else if |c.value.a| == 0 then (Err(UndefinedKey), sql)
      else
        var first := c.value.a[0].0;
        var limited := DeleteText(t.value, first, true);
        var f := Field(a.fields);
        if f.Err? then (Err(f.error), limited)
        else if !f.value.VArray? then (Err(TypeError), limited)
        else if |f.value.a| > 1 then
          var bulk := DeleteText(t.value, first, false);
          (Ok(bulk), bulk)
        else (Ok(limited), limited)
  }

  // ---------------------------------------------------------------- the class

  class QueryBuilder {
    /** The merged argument bag; None until `buildQuery` (an uninitialised
        typed property). */
    var key: Option<PArray>
    /** The last statement a generator stored. */
    var sqlQuery: string

    constructor()
      ensures key == None && sqlQuery == ""
    {
      key := None;
      sqlQuery := "";
    }

    /** `buildQuery`: store the template overlaid by `args`; returns itself. */
    method BuildQuery(args: PArray) returns (r: Result<QueryBuilder>)
      modifies this`key
      ensures r == Ok(this)
      ensures key == Some(Merged(args))
    {
      if |args| < 0 {
        return Err(QueryBuilderInvalidArgument);
      }
      key := Some(Merged(args));
      return Ok(this);
    }

    method InsertQuery() returns (r: Result<string>)
      modifies this`sqlQuery
      ensures key.None? ==> r == Err(UninitializedProperty) && sqlQuery == old(sqlQuery)
      ensures key.Some? ==> r == InsertSql(ReadsOf(key.value))
      ensures key.Some? ==> sqlQuery == if r.Ok? && r.value != "" then r.value else old(sqlQuery)
    {
      if IsQueryTypeValid("insert") {
        if key.None? {
          return Err(UninitializedProperty);
        }
        var a := ReadsOf(key.value);
        var f := Field(a.fields);
        if f.Err? {
          return Err(f.error);
        }
        if f.value.VArray? && |f.value.a| > 0 {
          var index := Keys(f.value.a);
          var columns := Implode(", ", index);
          var placeholders := ":" + Implode(", :", index);
          var t := Text(a.table);
          if t.Err? {
            return Err(t.error);
          }
          sqlQuery := "INSERT INTO " + t.value + " (" + columns + ") VALUES (" + placeholders + ")";
          return Ok(sqlQuery);
        }
      }
      return Ok("");
    }

    method SelectQuery() returns (r: Result<string>)
      modifies this`sqlQuery
      ensures key.None? ==> r == Err(UninitializedProperty) && sqlQuery == old(sqlQuery)
      ensures key.Some? ==> r == SelectSql(ReadsOf(key.value))
      ensures key.Some? && r.Ok? ==> sqlQuery == r.value
      ensures key.Some? && r.Err? ==>
        var head := SelectHead(ReadsOf(key.value));
        sqlQuery == if head.Err? then old(sqlQuery) else ConditionsFailedState(ReadsOf(key.value), head.value)
    {
      if IsQueryTypeValid("select") {
        if key.None? {
          return Err(UninitializedProperty);
        }
        var head := SelectHead(ReadsOf(key.value));
        if head.Err? {
          return head;
        }
        sqlQuery := head.value;
        r := HasConditions();
        return r;
      }
      return Ok("");
    }

    /** `hasConditions`: the WHERE step, then ORDER BY and LIMIT, on the
        stored statement. */
    method HasConditions() returns (r: Result<string>)
      requires key.Some?
      modifies this`sqlQuery
      ensures r == ConditionsSql(ReadsOf(key.value), old(sqlQuery))
      ensures r.Ok? ==> sqlQuery == r.value
      ensures r.Err? ==> sqlQuery == ConditionsFailedState(ReadsOf(key.value), old(sqlQuery))
    {
      var a := ReadsOf(key.value);
      ApplyWhere(a.conditions);
      var o := a.orderBy;
      if o.Some? && IsSet(o.value) && !LooseEqualsEmptyString(o.value) {
        var s := StringOf(o.value);
        if s.None? {
          return Err(ArrayToStringConversion);
        }
        sqlQuery := sqlQuery + " ORDER BY " + s.value + " ";
      }
      if a.limit.Some? && IsSet(a.limit.value) {
        if a.offset.None? {
          return Err(UndefinedKey);
        }
        if !LooseEqualsInt(a.offset.value, -1) {
          sqlQuery := sqlQuery + " LIMIT :limit OFFSET :offset ";
        }
      }
      return Ok(sqlQuery);
    }

    /** The WHERE step of `hasConditions`. */
    method ApplyWhere(c: Option<PhpValue>)
      modifies this`sqlQuery
      ensures sqlQuery == WherePart(c, old(sqlQuery))
    {
      if c.Some? && IsSet(c.value) && !LooseEqualsEmptyString(c.value) {
        if c.value.VArray? {
          var sort := ConditionClauses(Keys(c.value.a));
          if |c.value.a| > 0 {
            sqlQuery := sqlQuery + " WHERE " + Implode(" AND ", sort);
          }
        }
      } else if c.None? || IsEmpty(c.value) {
        sqlQuery := " WHERE 1";
      }
    }

    method UpdateQuery() returns (r: Result<string>)
      modifies this`sqlQuery, this`key
      ensures old(key).None? ==> r == Err(UninitializedProperty) && key == old(key) && sqlQuery == old(sqlQuery)
      ensures old(key).Some? ==> r == UpdateSql(ReadsOf(old(key).value))
      ensures old(key).Some? ==> sqlQuery == if r.Ok? && r.value != "" then r.value else old(sqlQuery)
      ensures old(key).Some? ==>
        key == if r.Ok? && UpdateDropsKey(ReadsOf(old(key).value)) then Some(Remove(old(key).value, "primary_key"))
               else old(key)
    {
      if IsQueryTypeValid("update") {
        if key.None? {
          return Err(UninitializedProperty);
        }
        var k := key.value;
        var a := ReadsOf(k);
        var f := Field(a.fields);
        if f.Err? {
          return Err(f.error);
        }
        if f.value.VArray? && |f.value.a| > 0 {
          var pk := Field(a.primaryKey);
          if pk.Err? {
            return Err(pk.error);
          }
          var collected := CollectAssignments(Values(f.value.a), pk.value);
          if collected.Err? {
            return Err(collected.error);
          }
          var values := collected.value;
          if values.None? {
            return Err(UndefinedVariable);
          }
          var assigns := DropLastTwo(values.value);
          var t := Text(a.table);
          if t.Err? {
            return Err(t.error);
          }
          var p := StringOf(pk.value);
          if p.None? {
            return Err(ArrayToStringConversion);
          }
          sqlQuery := "UPDATE " + t.value + " SET " + assigns + " WHERE " + p.value + " = :" + p.value + " LIMIT 1";
          if pk.value == VStr("0") {
            key := Some(Remove(k, "primary_key"));
            sqlQuery := "UPDATE " + t.value + " SET " + assigns;
          }
          return Ok(sqlQuery);
        }
      }
      return Ok("");
    }

    method DeleteQuery() returns (r: Result<string>)
      modifies this`sqlQuery
      ensures key.None? ==> r == Err(UninitializedProperty) && sqlQuery == old(sqlQuery)
      ensures key.Some? ==> (r, sqlQuery) == DeleteSql(ReadsOf(key.value), old(sqlQuery))
    {
      if IsQueryTypeValid("delete") {
        if key.None? {
          return Err(UninitializedProperty);
        }
        var a := ReadsOf(key.value);
        var c := Field(a.conditions);
        if c.Err? {
          return Err(c.error);
        }
        if !c.value.VArray? {
          return Err(TypeError);
        }
        var index := Keys(c.value.a);
        var t := Text(a.table);
        if t.Err? {
          return Err(t.error);
        }
        if |index| == 0 {
          return Err(UndefinedKey);
        }
        sqlQuery := "DELETE FROM " + t.value + " WHERE " + index[0] + " = :" + index[0] + " LIMIT 1";
        var f := Field(a.fields);
        if f.Err? {
          return Err(f.error);
        }
        if !f.value.VArray? {
          return Err(TypeError);
        }
        var bulkDelete := Values(f.value.a);
        if |bulkDelete| > 1 {
          var i := 0;
          while i < |bulkDelete|
            invariant 0 <= i <= |bulkDelete|
            invariant sqlQuery == DeleteText(t.value, index[0], i == 0)
          {
            sqlQuery := "DELETE FROM " + t.value + " WHERE " + index[0] + " = :" + index[0];
            i := i + 1;
          }
        }
        return Ok(sqlQuery);
      }
      return Ok("");
    }
  }

  /** The WHERE loop of `hasConditions`: one term per non-empty key. */
  method ConditionClauses(keys: seq<string>) returns (sort: seq<string>)
    ensures sort == ConditionTerms(keys)
  {
    sort := [];
    var i := 0;
    while i < |keys|
      invariant 0 <= i <= |keys|
      invariant sort == ConditionTerms(keys[..i])
    {
      var w := keys[i];
      if w != "" {
        sort := sort + [w + " = :" + w];
      }
      assert keys[..i + 1][..i] == keys[..i];
      i := i + 1;
    }
    assert keys[..|keys|] == keys;
  }

  /** The `foreach` of `updateQuery` over the field values. */
  method CollectAssignments(vs: seq<PhpValue>, pk: PhpValue) returns (r: Result<Option<string>>)
    ensures r == UpdateValues(vs, pk)
  {
    var values: Option<string> := None;
    var i := 0;
    while i < |vs|
      invariant 0 <= i <= |vs|
      invariant UpdateValues(vs[..i], pk) == Ok(values)
    {
      var field := vs[i];
      assert vs[..i + 1][..i] == vs[..i];
      if field != pk {
        var s := StringOf(field);
        if s.None? {
          assert UpdateValues(vs[..i + 1], pk) == Err(ArrayToStringConversion);
          UpdateValuesErrorSticks(vs, i + 1, pk);
          return Err(ArrayToStringConversion);
        }
        values := Some(Assignment(s.value));
      }
      i := i + 1;
    }
    assert vs[..|vs|] == vs;
    return Ok(values);
  }

  /** Once a value of the update loop fails to convert, the loop's outcome
      is that failure whatever follows. */
  lemma {:induction false} UpdateValuesErrorSticks(vs: seq<PhpValue>, i: nat, pk: PhpValue)
    requires i <= |vs| && UpdateValues(vs[..i], pk).Err?
    ensures UpdateValues(vs, pk) == UpdateValues(vs[..i], pk)
    decreases |vs| - i
  {
    if i < |vs| {
      assert vs[..i + 1][..i] == vs[..i];
      UpdateValuesErrorSticks(vs, i + 1, pk);
    } else {
      assert vs[..i] == vs;
    }
  }

  // ---------------------------------------------------------------- the template

  /** The template names every key once, and none is an integer key. */
  lemma TemplateDistinct()
    ensures DistinctKeys(SQL_DEFAULT) && NoIntKeys(SQL_DEFAULT)
  {
    TemplateKeysDistinct();
    assert forall i :: 0 <= i < |SQL_DEFAULT| ==> !IsDigit(SQL_DEFAULT[i].0[0]) && SQL_DEFAULT[i].0[0] != '-';
  }

  /** No two template keys agree in both first letter and length. */
  lemma TemplateKeysDistinct()
    ensures DistinctKeys(SQL_DEFAULT)
  {
    var m := SQL_DEFAULT;
    assert forall i, j :: 0 <= i < j < |m| ==> m[i].0[0] != m[j].0[0] || |m[i].0| != |m[j].0|;
  }

  lemma TemplateConditions()
    ensures Lookup(SQL_DEFAULT, "conditions") == Some(VArray([]))
  {
    TemplateDistinct();
    LookupAt(SQL_DEFAULT, 0, "conditions");
  }

  lemma TemplateSelectors()
    ensures Lookup(SQL_DEFAULT, "selectors") == Some(VArray([]))
  {
    TemplateDistinct();
    LookupAt(SQL_DEFAULT, 1, "selectors");
  }

  lemma TemplateOrderBy()
    ensures Lookup(SQL_DEFAULT, "order_by") == Some(VArray([]))
  {
    TemplateDistinct();
    LookupAt(SQL_DEFAULT, 8, "order_by");
  }

  lemma TemplateFields()
    ensures Lookup(SQL_DEFAULT, "fields") == Some(VArray([]))
  {
    TemplateDistinct();
    LookupAt(SQL_DEFAULT, 9, "fields");
  }

  lemma TemplatePrimaryKey()
    ensures Lookup(SQL_DEFAULT, "primary_key") == Some(VStr(""))
  {
    TemplateDistinct();
    LookupAt(SQL_DEFAULT, 10, "primary_key");
  }

  lemma TemplateTable()
    ensures Lookup(SQL_DEFAULT, "table") == Some(VStr(""))
  {
    TemplateDistinct();
    LookupAt(SQL_DEFAULT, 11, "table");
  }

  lemma TemplateLimit()
    ensures Lookup(SQL_DEFAULT, "limit") == None
  {
    assert forall i :: 0 <= i < |SQL_DEFAULT| ==> SQL_DEFAULT[i].0 != "limit";
  }

  lemma TemplateOffset()
    ensures Lookup(SQL_DEFAULT, "offset") == None
  {
    assert forall i :: 0 <= i < |SQL_DEFAULT| ==> SQL_DEFAULT[i].0 != "offset";
  }

  /** What the generators read from the bare template. */
  lemma TemplateReads()
    ensures ReadsOf(SQL_DEFAULT) ==
      Reads(Some(VArray([])), Some(VStr("")), Some(VArray([])), Some(VArray([])), Some(VArray([])),
            None, None, Some(VStr("")))
  {
    TemplateConditions();
    TemplateSelectors();
    TemplateOrderBy();
    TemplateFields();
    TemplatePrimaryKey();
    TemplateTable();
    TemplateLimit();
    TemplateOffset();
  }

  /** `Merged` is `array_merge(SQL_DEFAULT, $args)`. */
  lemma MergedIsArrayMerge(args: PArray)
    ensures ArrayMerge(SQL_DEFAULT, args) == Merged(args)
  {
    TemplateDistinct();
    assert [] + SQL_DEFAULT == SQL_DEFAULT;
    MergeIntoFreshStringKeys([], SQL_DEFAULT);
  }

  /** `$a ?? $b` on reads. */
  function Prefer(x: Option<PhpValue>, y: Option<PhpValue>): Option<PhpValue>
  {
    if x.Some? then x else y
  }

  /** A string-keyed argument of the merged bag is the caller's when the
      caller gives it, and the template's otherwise. */
  lemma MergedLookup(args: PArray, name: string)
    requires DistinctKeys(args) && !IsIntKey(name)
    ensures Lookup(Merged(args), name) == Prefer(Lookup(args, name), Lookup(SQL_DEFAULT, name))
  {
    MergeIntoLookup(SQL_DEFAULT, args, name);
  }

  lemma MergedFields(args: PArray)
    requires DistinctKeys(args)
    ensures Lookup(Merged(args), "fields") == Prefer(Lookup(args, "fields"), Some(VArray([])))
  {
    MergedLookup(args, "fields");
    TemplateFields();
  }

  lemma MergedTable(args: PArray)
    requires DistinctKeys(args)
    ensures Lookup(Merged(args), "table") == Prefer(Lookup(args, "table"), Some(VStr("")))
  {
    MergedLookup(args, "table");
    TemplateTable();
  }

  lemma MergedSelectors(args: PArray)
    requires DistinctKeys(args)
    ensures Lookup(Merged(args), "selectors") == Prefer(Lookup(args, "selectors"), Some(VArray([])))
  {
    MergedLookup(args, "selectors");
    TemplateSelectors();
  }

  lemma MergedConditions(args: PArray)
    requires DistinctKeys(args)
    ensures Lookup(Merged(args), "conditions") == Prefer(Lookup(args, "conditions"), Some(VArray([])))
  {
    MergedLookup(args, "conditions");
    TemplateConditions();
  }

  lemma MergedOrderBy(args: PArray)
    requires DistinctKeys(args)
    ensures Lookup(Merged(args), "order_by") == Prefer(Lookup(args, "order_by"), Some(VArray([])))
  {
    MergedLookup(args, "order_by");
    TemplateOrderBy();
  }

  lemma MergedLimit(args: PArray)
    requires DistinctKeys(args)
    ensures Lookup(Merged(args), "limit") == Prefer(Lookup(args, "limit"), None)
  {
    MergedLookup(args, "limit");
    TemplateLimit();
  }

  lemma MergedOffset(args: PArray)
    requires DistinctKeys(args)
    ensures Lookup(Merged(args), "offset") == Prefer(Lookup(args, "offset"), None)
  {
    MergedLookup(args, "offset");
    TemplateOffset();
  }

  lemma MergedPrimaryKey(args: PArray)
    requires DistinctKeys(args)
    ensures Lookup(Merged(args), "primary_key") == Prefer(Lookup(args, "primary_key"), Some(VStr("")))
  {
    MergedLookup(args, "primary_key");
    TemplatePrimaryKey();
  }

  /** What the generators read from a merged bag: each argument the
      caller gives, and the template's value for the others. */
  lemma MergedReads(args: PArray)
    requires DistinctKeys(args)
    ensures ReadsOf(Merged(args)) == Reads(
      Prefer(Lookup(args, "fields"), Some(VArray([]))),
      Prefer(Lookup(args, "table"), Some(VStr(""))),
      Prefer(Lookup(args, "selectors"), Some(VArray([]))),
      Prefer(Lookup(args, "conditions"), Some(VArray([]))),
      Prefer(Lookup(args, "order_by"), Some(VArray([]))),
      Prefer(Lookup(args, "limit"), None),
      Prefer(Lookup(args, "offset"), None),
      Prefer(Lookup(args, "primary_key"), Some(VStr(""))))
  {
    MergedFields(args);
    MergedTable(args);
    MergedSelectors(args);
    MergedConditions(args);
    MergedOrderBy(args);
    MergedLimit(args);
    MergedOffset(args);
    MergedPrimaryKey(args);
  }

  // ---------------------------------------------------------------- properties

  /** The `type` argument is stored but never read: whatever it says, the
      merged bag gives the generators the same arguments. */
  lemma TypeNeverRead(args: PArray, t: PhpValue)
    requires DistinctKeys(args)
    ensures ReadsOf(Merged(Put(args, "type", t))) == ReadsOf(Merged(args))
  {
    var typed := Put(args, "type", t);
    MergedReads(typed);
    MergedReads(args);
    PutTypeKeepsReads(args, t);
  }

  lemma PutTypeKeepsReads(k: PArray, t: PhpValue)
    ensures ReadsOf(Put(k, "type", t)) == ReadsOf(k)
  {
  }

  /** INSERT names the columns in the order of `fields` and binds each to
      the placeholder of the same name. */
  lemma InsertStatement(a: Reads, f: PArray, table: string)
    requires a.fields == Some(VArray(f)) && |f| > 0 && a.table == Some(VStr(table))
    ensures InsertSql(a) == Ok("INSERT INTO " + table + " (" + Implode(", ", Keys(f)) + ") VALUES ("
                               + Implode(", ", Prefixed(":", Keys(f))) + ")")
  {
    PlaceholderList(Keys(f));
  }

  /** Without fields there is no INSERT. */
  lemma InsertNeedsFields(a: Reads)
    requires a.fields.Some? && !(a.fields.value.VArray? && |a.fields.value.a| > 0)
    ensures InsertSql(a) == Ok("")
  {
  }

  /** One `col = :col` term per condition key, in key order. */
  lemma {:induction false} ConditionTermsOnePerKey(keys: seq<string>)
    requires forall i :: 0 <= i < |keys| ==> keys[i] != ""
    ensures |ConditionTerms(keys)| == |keys|
    ensures forall i :: 0 <= i < |keys| ==> ConditionTerms(keys)[i] == keys[i] + " = :" + keys[i]
  {
    if |keys| > 0 {
      ConditionTermsOnePerKey(keys[..|keys| - 1]);
    }
  }

  /** Only absent, null, false or '' conditions make the WHERE step replace
      the statement by ` WHERE 1`; any other value keeps what was built in
      front, and an empty array adds nothing at all. */
  lemma WhereStep(c: Option<PhpValue>, sql: string)
    ensures c.None? || LooseEqualsEmptyString(c.value) ==> WherePart(c, sql) == " WHERE 1"
    ensures c.Some? && !LooseEqualsEmptyString(c.value) ==> sql <= WherePart(c, sql)
    ensures c == Some(VArray([])) ==> WherePart(c, sql) == sql
  {
  }

  /** An array `order_by` cannot be interpolated: SELECT then always
      throws, whatever else the arguments say. */
  lemma SelectArrayOrderByFails(a: Reads)
    requires a.orderBy.Some? && a.orderBy.value.VArray?
    ensures SelectSql(a).Err?
  {
  }

  /** The template's `order_by` is an array: a SELECT whose caller does not
      override it with a scalar always throws. */
  lemma SelectWithDefaultOrderByFails(args: PArray)
    requires DistinctKeys(args)
    requires Lookup(args, "order_by").None? || Lookup(args, "order_by").value.VArray?
    ensures SelectSql(ReadsOf(Merged(args))).Err?
  {
    MergedReads(args);
    SelectArrayOrderByFails(ReadsOf(Merged(args)));
  }

  /** A SELECT that fails on an array `order_by` leaves its head with the
      WHERE step stored, and no ORDER BY. */
  lemma ArrayOrderByLeavesWhere(a: Reads)
    requires a.orderBy.Some? && a.orderBy.value.VArray? && SelectHead(a).Ok?
    ensures SelectSql(a) == Err(ArrayToStringConversion)
    ensures ConditionsFailedState(a, SelectHead(a).value) == WherePart(a.conditions, SelectHead(a).value)
  {
  }

  /** Index of the last value not identical to `pk`, or -1. */
  function LastNonKey(vs: seq<PhpValue>, pk: PhpValue): (j: int)
    ensures -1 <= j < |vs|
    ensures j >= 0 ==> vs[j] != pk
    ensures forall t :: j < t < |vs| ==> vs[t] == pk
  {
    if |vs| == 0 then -1
    else if vs[|vs| - 1] != pk then |vs| - 1
    else LastNonKey(vs[..|vs| - 1], pk)
  }

  /** The update loop keeps only the assignment of the LAST value not
      identical to the primary key, and assigns nothing exactly when there
      is none. */
  lemma {:induction false} UpdateValuesKeepsLast(vs: seq<PhpValue>, pk: PhpValue)
    requires UpdateValues(vs, pk).Ok?
    ensures var j := LastNonKey(vs, pk);
      && (UpdateValues(vs, pk).value.None? <==> j == -1)
      && (j >= 0 ==> StringOf(vs[j]).Some? && UpdateValues(vs, pk).value == Some(Assignment(StringOf(vs[j]).value)))
  {
    if |vs| > 0 && vs[|vs| - 1] == pk {
      var init := vs[..|vs| - 1];
      UpdateValuesKeepsLast(init, pk);
    }
  }

  /** The UPDATE text with the given SET clause, keyed by the primary key
      or not. */
  function UpdateText(table: string, assigns: string, pkText: string, keyed: bool): string
  {
    if keyed then "UPDATE " + table + " SET " + assigns + " WHERE " + pkText + " = :" + pkText + " LIMIT 1"
    else "UPDATE " + table + " SET " + assigns
  }

  lemma DropAssignmentSeparator(s: string)
    ensures DropLastTwo(Assignment(s)) == s + " = :" + s
  {
    assert Assignment(s) == (s + " = :" + s) + ", ";
  }

  /** A successful UPDATE sets exactly one column, the last field value not
      identical to the primary key, and is keyed by the primary key unless
      the key is the string '0'. */
  lemma UpdateSetsLastValueOnly(a: Reads, f: PArray, table: string, pk: PhpValue)
    requires a.fields == Some(VArray(f)) && |f| > 0 && a.table == Some(VStr(table))
    requires a.primaryKey == Some(pk) && StringOf(pk).Some?
    ensures UpdateSql(a).Ok? ==>
      var j := LastNonKey(Values(f), pk);
      && 0 <= j < |f| && StringOf(f[j].1).Some?
      && var column := StringOf(f[j].1).value;
         UpdateSql(a).value == UpdateText(table, column + " = :" + column, StringOf(pk).value, pk != VStr("0"))
  {
    var vs := Values(f);
    if UpdateSql(a).Ok? {
      assert UpdateValues(vs, pk).Ok?;
      UpdateValuesKeepsLast(vs, pk);
      var j := LastNonKey(vs, pk);
      DropAssignmentSeparator(StringOf(vs[j]).value);
    }
  }

  /** When every field value is the primary key itself, `$values` is never
      assigned and UPDATE throws. */
  lemma UpdateOnlyKeyValuesFails(a: Reads, f: PArray, pk: PhpValue)
    requires a.fields == Some(VArray(f)) && |f| > 0 && a.primaryKey == Some(pk)
    requires forall t :: 0 <= t < |f| ==> f[t].1 == pk
    ensures UpdateSql(a) == Err(UndefinedVariable)
  {
    var vs := Values(f);
    NoneDifferFromKey(vs, pk);
  }

  /** With every value identical to the key, the loop neither assigns nor
      fails. */
  lemma {:induction false} NoneDifferFromKey(vs: seq<PhpValue>, pk: PhpValue)
    requires forall t :: 0 <= t < |vs| ==> vs[t] == pk
    ensures UpdateValues(vs, pk) == Ok(None)
  {
    if |vs| > 0 {
      NoneDifferFromKey(vs[..|vs| - 1], pk);
    }
  }

  /** DELETE is keyed by the FIRST condition column only: conditions that
      agree on it give the same statement. */
  lemma DeleteIgnoresLaterConditions(a1: Reads, a2: Reads, c1: PArray, c2: PArray, sql: string)
    requires a1.table == a2.table && a1.fields == a2.fields
    requires a1.conditions == Some(VArray(c1)) && a2.conditions == Some(VArray(c2))
    requires |c1| > 0 && |c2| > 0 && c1[0].0 == c2[0].0
    ensures DeleteSql(a1, sql) == DeleteSql(a2, sql)
  {
  }

  /** DELETE keeps `LIMIT 1` exactly when `fields` has at most one value,
      and stores the statement it returns. */
  lemma DeleteLimit(a: Reads, sql: string)
    requires DeleteSql(a, sql).0.Ok?
    ensures a.fields.Some? && a.fields.value.VArray? && a.conditions.Some? && a.conditions.value.VArray?
    ensures var c := a.conditions.value.a;
      && |c| > 0 && Text(a.table).Ok?
      && DeleteSql(a, sql).0.value == DeleteText(Text(a.table).value, c[0].0, |a.fields.value.a| <= 1)
      && DeleteSql(a, sql).1 == DeleteSql(a, sql).0.value
  {
  }
}
