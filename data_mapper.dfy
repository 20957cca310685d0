/** BakeORM's DataMapper: it prepares one statement at a time on a
    connection and binds field values to its named placeholders, with a
    PDO parameter type chosen by `bind`.

    PDO itself is outside the model. `Engine` collects what the
    connection and the statement answer: whether opening the connection
    fails, whether preparing or binding fails, and what execute, row
    count, fetch, fetchAll and lastInsertId give for a statement. */
module DataMapper {
  import opened Outcomes
  import opened OrderedMap
  import opened PhpStrings
  import opened PhpValues

  /** The PDO::PARAM_* constants `bind` can choose. */
  datatype ParamType = ParamNull | ParamInt | ParamStr

  /** A value bound to a placeholder, with its declared type. */
  datatype Binding = Binding(value: PhpValue, ptype: ParamType)

  /** A prepared statement: its SQL text and its bindings by placeholder
      name (binding a name again replaces its value). */
  datatype Statement = Statement(sql: string, bindings: OMap<Binding>)

  /** A fetched row (a PDO::FETCH_OBJ object, as property/value pairs). */
  type Row = PArray

  /** The answers of the database connection and its statements. */
  datatype Engine = Engine(
    connect: Option<ErrorKind>,                      // `open()` throws this
    prepareFault: string -> Option<ErrorKind>,       // `prepare($sql)` throws this
    bindFault: (string, string) -> Option<ErrorKind>,  // `bindValue($name, …)` on statement `sql` throws this
    executeAnswer: Statement -> Result<bool>,
    rowCount: Statement -> int,
    fetch: Statement -> Option<Row>,                 // None: `fetch` returned false
    fetchAll: Statement -> seq<Row>,
    lastInsertId: Option<string>)                    // None: `lastInsertId` returned false

  /** How `prepare($sql)` fails, if it does: opening the connection first. */
  function PrepareFault(e: Engine, sql: string): Option<ErrorKind>
  {
    if e.connect.Some? then e.connect else e.prepareFault(sql)
  }

  /** `bind($value)`: `switch ($value)` compares the value loosely with
      each case expression in turn, and those are booleans. */
  function BindType(v: PhpValue): (r: ParamType)
    ensures r != ParamNull
    ensures r == ParamInt <==> !Truthy(v) || v.VBool? || v.VInt?
    ensures r == ParamStr <==> Truthy(v) && (v.VStr? || v.VArray?)
  {
    if LooseEqualsBool(v, v.VBool?) || LooseEqualsBool(v, v.VInt?) then ParamInt
    else if LooseEqualsBool(v, v.VNull?) then ParamNull
    else ParamStr
  }

  /** The value `bindValues` (as is) or `bindSearchValues` (`"%{$value}%"`)
      passes to PDO; None: interpolating an array warns. */
  function BoundValue(v: PhpValue, search: bool): Option<PhpValue>
  {
    if !search then Some(v)
    else
      match StringOf(v)
      case None => None
      case Some(t) => Some(VStr("%" + t + "%"))
  }

  /** Binding `fields` in order onto `s`: the statement afterwards and the
      error that stopped the loop, if any. */
  function Bound(e: Engine, s: Statement, fields: PArray, search: bool): (r: (Statement, Option<ErrorKind>))
    ensures r.0.sql == s.sql
    decreases |fields|
  {
    if |fields| == 0 then (s, None)
    else
      var name := ":" + fields[0].0;
      var v := fields[0].1;
      match BoundValue(v, search)
      case None => (s, Some(ArrayToStringConversion))
      case Some(x) =>
        if e.bindFault(s.sql, name).Some? then (s, e.bindFault(s.sql, name))
        else Bound(e, Statement(s.sql, Put(s.bindings, name, Binding(x, BindType(v)))), fields[1..], search)
  }

  /** No `bindValue` on the statement with this SQL throws. */
  ghost predicate NoBindFaults(e: Engine, sql: string)
  {
    forall name :: e.bindFault(sql, name).None?
  }

  /** Every value can be bound (a search cannot bind an array). */
  predicate Bindable(fields: PArray, search: bool)
  {
    forall i :: 0 <= i < |fields| ==> BoundValue(fields[i].1, search).Some?
  }

  /** The bindings one pass over `fields` adds: one per field, in order,
      named `:key`, typed by the field's own value. */
  function Expected(fields: PArray, search: bool): (r: OMap<Binding>)
    requires Bindable(fields, search)
    ensures |r| == |fields|
  {
    seq(|fields|, i requires 0 <= i < |fields| =>
      (":" + fields[i].0, Binding(BoundValue(fields[i].1, search).value, BindType(fields[i].1))))
  }

  lemma ExpectedTail(fields: PArray, search: bool)
    requires |fields| > 0 && Bindable(fields, search)
    ensures Bindable(fields[1..], search)
    ensures Expected(fields, search) == [Expected(fields, search)[0]] + Expected(fields[1..], search)
  {
    assert forall i :: 0 <= i < |fields| - 1 ==> fields[1..][i] == fields[i + 1];
  }

  /** When nothing fails, binding onto a statement whose placeholder names
      are new appends exactly the expected bindings. */
  lemma {:induction false} BoundAppends(e: Engine, s: Statement, fields: PArray, search: bool)
    requires NoBindFaults(e, s.sql) && Bindable(fields, search)
    requires DistinctKeys(s.bindings + Expected(fields, search))
    ensures Bound(e, s, fields, search) == (Statement(s.sql, s.bindings + Expected(fields, search)), None)
    decreases |fields|
  {
    if |fields| > 0 {
      var x := Expected(fields, search);
      ExpectedTail(fields, search);
      var acc := s.bindings;
      assert !HasKey(acc, x[0].0) by {
        assert forall i :: 0 <= i < |acc| ==> (acc + x)[i] == acc[i];
        assert (acc + x)[|acc|] == x[0];
      }
      assert e.bindFault(s.sql, x[0].0).None?;
      assert Put(acc, x[0].0, x[0].1) == acc + [x[0]];
      assert acc + x == (acc + [x[0]]) + Expected(fields[1..], search);
      assert Bound(e, s, fields, search) == Bound(e, Statement(s.sql, acc + [x[0]]), fields[1..], search);
      BoundAppends(e, Statement(s.sql, acc + [x[0]]), fields[1..], search);
    } else {
      assert s.bindings + Expected(fields, search) == s.bindings;
    }
  }

  lemma ExpectedDistinct(fields: PArray, search: bool)
    requires DistinctKeys(fields) && Bindable(fields, search)
    ensures DistinctKeys(Expected(fields, search))
  {
    var x := Expected(fields, search);
    forall i, j | 0 <= i < j < |x| ensures x[i].0 != x[j].0 {
      assert x[i].0[1..] == fields[i].0 && x[j].0[1..] == fields[j].0;
    }
  }

  /** Binding a field map onto a freshly prepared statement gives one
      binding per field, in the map's order, each named `:key` and
      carrying the value bound and `bind`'s type of the field's value. */
  lemma FreshStatementBinding(e: Engine, sql: string, fields: PArray, search: bool)
    requires NoBindFaults(e, sql) && Bindable(fields, search) && DistinctKeys(fields)
    ensures Bound(e, Statement(sql, []), fields, search) == (Statement(sql, Expected(fields, search)), None)
  {
    ExpectedDistinct(fields, search);
    assert [] + Expected(fields, search) == Expected(fields, search);
    BoundAppends(e, Statement(sql, []), fields, search);
  }

  /** A search binding of an array value stops the loop with the "Array to
      string conversion" warning; the bindings made before it remain. */
  lemma {:induction false} SearchStopsAtArray(e: Engine, s: Statement, fields: PArray, i: nat)
    requires NoBindFaults(e, s.sql)
    requires i < |fields| && fields[i].1.VArray?
    ensures Bound(e, s, fields, true).1 == Some(ArrayToStringConversion)
    decreases i
  {
    if i > 0 && !fields[0].1.VArray? {
      var name := ":" + fields[0].0;
      assert e.bindFault(s.sql, name).None?;
      var x := BoundValue(fields[0].1, true).value;
      SearchStopsAtArray(e, Statement(s.sql, Put(s.bindings, name, Binding(x, BindType(fields[0].1)))), fields[1..], i - 1);
    }
  }

  /** A search binds the wrapped text but types it by the unwrapped value:
      the string '0' is bound as `%0%` with PDO::PARAM_INT. */
  lemma SearchTypesByRawValue(e: Engine, sql: string)
    requires NoBindFaults(e, sql)
    ensures Bound(e, Statement(sql, []), [("q", VStr("0"))], true)
      == (Statement(sql, [(":q", Binding(VStr("%0%"), ParamInt))]), None)
  {
    var fields := [("q", VStr("0"))];
    assert e.bindFault(sql, ":q").None?;
    assert StringOf(VStr("0")) == Some("0");
    assert "%" + "0" + "%" == "%0%";
    assert BoundValue(VStr("0"), true) == Some(VStr("%0%"));
    assert BindType(VStr("0")) == ParamInt;
    assert Put([], ":q", Binding(VStr("%0%"), ParamInt)) == [(":q", Binding(VStr("%0%"), ParamInt))];
    assert fields[1..] == [];
    assert ":" + fields[0].0 == ":q";
    var next := Statement(sql, [(":q", Binding(VStr("%0%"), ParamInt))]);
    assert Bound(e, Statement(sql, []), fields, true) == Bound(e, next, fields[1..], true);
  }

  /** `lastInsertId()` as `getLastID` returns it: 0 when empty ('' , '0' or
      false), otherwise cast to int. */
  function LastId(id: Option<string>): int
  {
    match id
    case None => 0
    case Some(t) => if t == "" || t == "0" then 0 else IntCast(t)
  }

  /** The id the database reports as decimal text is the id returned. */
  lemma LastIdRoundTrip(n: int)
    ensures LastId(Some(IntString(n))) == n
  {
    IntCastOfIntString(n);
    if n > 0 {
      NatStringIsCanonical(n);
      var t := NatString(n);
      assert DigitsValue(t) == DigitsValue(t[..|t| - 1]) * 10 + DigitValue(t[|t| - 1]);
    }
  }

  class DataMapper {
    /** The connection. */
    const dbh: Engine
    /** The current statement; None until the first `prepare` (a typed
        property without a default). */
    var stmt: Option<Statement>

    constructor(dbh: Engine)
      ensures this.dbh == dbh && stmt == None
    {
      this.dbh := dbh;
      stmt := None;
    }

    /** `prepare($sql)`: the new statement replaces the current one;
        returns itself. */
    method Prepare(sql: string) returns (r: Result<DataMapper>)
      modifies this`stmt
      ensures PrepareFault(dbh, sql).Some? ==> r == Err(PrepareFault(dbh, sql).value) && stmt == old(stmt)
      ensures PrepareFault(dbh, sql).None? ==> r == Ok(this) && stmt == Some(Statement(sql, []))
    {
      var fault := PrepareFault(dbh, sql);
      if fault.Some? {
        return Err(fault.value);
      }
      stmt := Some(Statement(sql, []));
      return Ok(this);
    }

    /** The loop of `bindValues` (`search` false) and `bindSearchValues`
        (`search` true), then `return $this->stmt`. */
    method BindFields(fields: PArray, search: bool) returns (r: Result<Statement>)
      modifies this`stmt
      ensures old(stmt).None? ==> r == Err(UninitializedProperty) && stmt == None
      ensures old(stmt).Some? ==> stmt == Some(Bound(dbh, old(stmt).value, fields, search).0)
      ensures old(stmt).Some? ==> r == match Bound(dbh, old(stmt).value, fields, search).1
                                       case Some(err) => Err(err)
                                       case None => Ok(stmt.value)
    {
      if stmt.None? {
        return Err(UninitializedProperty);
      }
      var i := 0;
      while i < |fields|
        invariant 0 <= i <= |fields| && stmt.Some?
        invariant Bound(dbh, stmt.value, fields[i..], search) == Bound(dbh, old(stmt).value, fields, search)
      {
        var name := ":" + fields[i].0;
        var v := fields[i].1;
        var x := BoundValue(v, search);
        assert fields[i..][0] == fields[i] && fields[i..][1..] == fields[i + 1..];
        if x.None? {
          return Err(ArrayToStringConversion);
        }
        var fault := dbh.bindFault(stmt.value.sql, name);
        if fault.Some? {
          return Err(fault.value);
        }
        stmt := Some(Statement(stmt.value.sql, Put(stmt.value.bindings, name, Binding(x.value, BindType(v)))));
        i := i + 1;
      }
      return Ok(stmt.value);
    }

    method BindValues(fields: PArray) returns (r: Result<Statement>)
      modifies this`stmt
      ensures old(stmt).None? ==> r == Err(UninitializedProperty) && stmt == None
      ensures old(stmt).Some? ==> stmt == Some(Bound(dbh, old(stmt).value, fields, false).0)
      ensures old(stmt).Some? ==> r == match Bound(dbh, old(stmt).value, fields, false).1
                                       case Some(err) => Err(err)
                                       case None => Ok(stmt.value)
    {
      r := BindFields(fields, false);
    }

    method BindSearchValues(fields: PArray) returns (r: Result<Statement>)
      modifies this`stmt
      ensures old(stmt).None? ==> r == Err(UninitializedProperty) && stmt == None
      ensures old(stmt).Some? ==> stmt == Some(Bound(dbh, old(stmt).value, fields, true).0)
      ensures old(stmt).Some? ==> r == match Bound(dbh, old(stmt).value, fields, true).1
                                       case Some(err) => Err(err)
                                       case None => Ok(stmt.value)
    {
      r := BindFields(fields, true);
    }

    /** `bindParams($fields, $isSearch)`: the statement returned is an
        object, hence truthy, so the result is the mapper itself whenever
        binding did not throw, for an empty array too. */
    method BindParams(fields: PArray, isSearch: bool) returns (r: Result<DataMapper>)
      modifies this`stmt
      ensures old(stmt).None? ==> r == Err(UninitializedProperty) && stmt == None
      ensures old(stmt).Some? ==> stmt == Some(Bound(dbh, old(stmt).value, fields, isSearch).0)
      ensures old(stmt).Some? ==> r == match Bound(dbh, old(stmt).value, fields, isSearch).1
                                       case Some(err) => Err(err)
                                       case None => Ok(this)
    {
      var bound;
      if !isSearch {
        bound := BindValues(fields);
      } else {
        bound := BindSearchValues(fields);
      }
      if bound.Err? {
        return Err(bound.error);
      }
      return Ok(this);
    }

    /** `execute()`: the statement's own answer; reading the statement
        before any `prepare` is an Error, so the coded `false` is never
        returned. */
    method Execute() returns (r: Result<bool>)
      ensures stmt.None? ==> r == Err(UninitializedProperty)
      ensures stmt.Some? ==> r == dbh.executeAnswer(stmt.value)
    {
      if stmt.None? {
        return Err(UninitializedProperty);
      }
      r := dbh.executeAnswer(stmt.value);
    }

    method NumRows() returns (r: Result<int>)
      ensures stmt.None? ==> r == Err(UninitializedProperty)
      ensures stmt.Some? ==> r == Ok(dbh.rowCount(stmt.value))
    {
      if stmt.None? {
        return Err(UninitializedProperty);
      }
      return Ok(dbh.rowCount(stmt.value));
    }

    /** `result()`: a `fetch` that gives false violates the `object`
        return type. */
    method Result() returns (r: Result<Row>)
      ensures stmt.None? ==> r == Err(UninitializedProperty)
      ensures stmt.Some? && dbh.fetch(stmt.value).None? ==> r == Err(TypeError)
      ensures stmt.Some? && dbh.fetch(stmt.value).Some? ==> r == Ok(dbh.fetch(stmt.value).value)
    {
      if stmt.None? {
        return Err(UninitializedProperty);
      }
      var row := dbh.fetch(stmt.value);
      if row.None? {
        return Err(TypeError);
      }
      return Ok(row.value);
    }

    method Results() returns (r: Result<seq<Row>>)
      ensures stmt.None? ==> r == Err(UninitializedProperty)
      ensures stmt.Some? ==> r == Ok(dbh.fetchAll(stmt.value))
    {
      if stmt.None? {
        return Err(UninitializedProperty);
      }
      return Ok(dbh.fetchAll(stmt.value));
    }

    /** `getLastID()`: opening the connection either throws or gives a
        (truthy) PDO object, which is asked for the last insert id. */
    method GetLastID() returns (r: Result<int>)
      ensures dbh.connect.Some? ==> r == Err(dbh.connect.value)
      ensures dbh.connect.None? ==> r == Ok(LastId(dbh.lastInsertId))
      ensures dbh.connect.None? && dbh.lastInsertId.Some? && IsNatKey(dbh.lastInsertId.value)
        ==> r == Ok(DigitsValue(dbh.lastInsertId.value))
    {
      if dbh.connect.Some? {
        return Err(dbh.connect.value);
      }
      var lastId := dbh.lastInsertId;
      if lastId.Some? && lastId.value != "" && lastId.value != "0" {
        if IsNatKey(lastId.value) {
          CastOfNatKey(lastId.value);
        }
        return Ok(IntCast(lastId.value));
      }
      return Ok(0);
    }
  }

  /** A canonical decimal id casts to the number it denotes. */
  lemma CastOfNatKey(t: string)
    requires IsNatKey(t)
    ensures IntCast(t) == DigitsValue(t)
  {
    LeadingDigitsOfDigits(t);
  }
}
