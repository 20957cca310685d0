/** BakeORM's DataRepository: finders over an entity's Crud. The Crud is
    taken as a collaborator whose answers are given: `CrudOracle` records
    every call made on it and answers from `CrudAnswers` (the answers may
    depend on the calls made before). Its table key column is the
    `schemaID` it was built with. */
module DataRepository {
  import opened Outcomes
  import opened OrderedMap
  import opened PhpStrings
  import opened PhpValues
  import DataMapper

  type Row = DataMapper.Row

  /** A call on the Crud that changes or reads the database. */
  datatype CrudCall =
    | ReadCall(selectors: PArray, conditions: PArray, params: PArray, optional: PArray)
    | SearchCall(selectors: PArray, conditions: PArray)
    | DeleteCall(conditions: PArray)
    | UpdateCall(fields: PArray, primaryKey: string)

  datatype CrudAnswers = CrudAnswers(
    rows: (seq<CrudCall>, CrudCall) -> Result<seq<Row>>,   // read and search
    written: (seq<CrudCall>, CrudCall) -> Result<bool>)    // delete and update

  class CrudOracle {
    const answers: CrudAnswers
    const schemaID: string
    /** The calls made so far, oldest first. */
    var calls: seq<CrudCall>

    constructor(answers: CrudAnswers, schemaID: string)
      ensures this.answers == answers && this.schemaID == schemaID && calls == []
    {
      this.answers := answers;
      this.schemaID := schemaID;
      calls := [];
    }

    method Rows(c: CrudCall) returns (r: Result<seq<Row>>)
      requires c.ReadCall? || c.SearchCall?
      modifies this`calls
      ensures r == answers.rows(old(calls), c) && calls == old(calls) + [c]
    {
      r := answers.rows(calls, c);
      calls := calls + [c];
    }

    method Write(c: CrudCall) returns (r: Result<bool>)
      requires c.DeleteCall? || c.UpdateCall?
      modifies this`calls
      ensures r == answers.written(old(calls), c) && calls == old(calls) + [c]
    {
      r := answers.written(calls, c);
      calls := calls + [c];
    }

    function GetSchemaID(): (r: string)
      ensures r == schemaID
    {
      schemaID
    }
  }

  /** The conditions `find($id)` looks up: the column is literally `id`. */
  function IdConditions(id: int): PArray
  {
    [("id", VInt(id))]
  }

  /** `$result != null && count($result) > 0` for an array result: `[]`
      is loosely equal to null, so this is non-emptiness. */
  predicate Found(rows: seq<Row>)
  {
    |rows| > 0
  }

  /** The payload `findByIdAndUpdate` passes to `update`:
      `array_merge([schemaID => id], fields)`, or `fields` when empty. */
  function UpdatePayload(schemaID: string, id: int, fields: PArray): PArray
  {
    if IsEmpty(VArray(fields)) then fields else ArrayMerge([(schemaID, VInt(id))], fields)
  }

  /** For a non-numeric key column the payload starts with it, and holds
      the caller's value for it when `fields` has one, else the id. */
  lemma UpdatePayloadKey(schemaID: string, id: int, fields: PArray)
    requires |fields| > 0 && DistinctKeys(fields) && !IsIntKey(schemaID)
    ensures |UpdatePayload(schemaID, id, fields)| > 0 && UpdatePayload(schemaID, id, fields)[0].0 == schemaID
    ensures Lookup(UpdatePayload(schemaID, id, fields), schemaID) ==
      if HasKey(fields, schemaID) then Lookup(fields, schemaID) else Some(VInt(id))
  {
    var head: PArray := [(schemaID, VInt(id))];
    assert head[1..] == [];
    assert MergeInto([], head) == head;
    MergeIntoKeepsPrefix(head, fields);
    ArrayMergeLookup(head, fields, schemaID);
  }

  /** Every other string key of the payload is the caller's. */
  lemma UpdatePayloadOthers(schemaID: string, id: int, fields: PArray, k: string)
    requires |fields| > 0 && DistinctKeys(fields) && !IsIntKey(k) && k != schemaID
    ensures Lookup(UpdatePayload(schemaID, id, fields), k) == Lookup(fields, k)
  {
    var head: PArray := [(schemaID, VInt(id))];
    ArrayMergeLookup(head, fields, k);
  }

  /** A numeric key column is renumbered by `array_merge`: the payload
      then starts with key 0 instead of the column. */
  lemma UpdatePayloadNumericKey(schemaID: string, id: int, fields: PArray)
    requires |fields| > 0 && IsIntKey(schemaID)
    ensures |UpdatePayload(schemaID, id, fields)| > 0 && UpdatePayload(schemaID, id, fields)[0].0 == "0"
  {
    MergeIntKeyPair(schemaID, VInt(id));
    MergeIntoKeepsPrefix(MergeInto([], [(schemaID, VInt(id))]), fields);
  }

  class DataRepository {
    const crud: CrudOracle

    constructor(crud: CrudOracle)
      ensures this.crud == crud
    {
      this.crud := crud;
    }

    /** `find($id)`: 0 is rejected before any Crud call. */
    method Find(id: int) returns (r: Result<seq<Row>>)
      modifies crud`calls
      ensures id == 0 ==> r == Err(DataRepositoryInvalidArgument) && crud.calls == old(crud.calls)
      ensures id != 0 ==> r == crud.answers.rows(old(crud.calls), ReadCall([], IdConditions(id), [], []))
      ensures id != 0 ==> crud.calls == old(crud.calls) + [ReadCall([], IdConditions(id), [], [])]
    {
      if IsEmpty(VInt(id)) {
        return Err(DataRepositoryInvalidArgument);
      }
      r := FindOneBy(IdConditions(id));
    }

    method FindAll() returns (r: Result<seq<Row>>)
      modifies crud`calls
      ensures r == crud.answers.rows(old(crud.calls), ReadCall([], [], [], []))
      ensures crud.calls == old(crud.calls) + [ReadCall([], [], [], [])]
    {
      r := crud.Rows(ReadCall([], [], [], []));
    }

    method FindBy(selectors: PArray, conditions: PArray, params: PArray, optional: PArray) returns (r: Result<seq<Row>>)
      modifies crud`calls
      ensures r == crud.answers.rows(old(crud.calls), ReadCall(selectors, conditions, params, optional))
      ensures crud.calls == old(crud.calls) + [ReadCall(selectors, conditions, params, optional)]
    {
      r := crud.Rows(ReadCall(selectors, conditions, params, optional));
    }

    /** `findOneBy`: the read's rows as they are, not cut down to one. */
    method FindOneBy(conditions: PArray) returns (r: Result<seq<Row>>)
      modifies crud`calls
      ensures r == crud.answers.rows(old(crud.calls), ReadCall([], conditions, [], []))
      ensures crud.calls == old(crud.calls) + [ReadCall([], conditions, [], [])]
    {
      r := crud.Rows(ReadCall([], conditions, [], []));
    }

    /** `findBySearch`: Crud's `search` takes only the selectors and the
        conditions; the other two arguments are dropped. */
    method FindBySearch(selectors: PArray, conditions: PArray, params: PArray, optional: PArray) returns (r: Result<seq<Row>>)
      modifies crud`calls
      ensures r == crud.answers.rows(old(crud.calls), SearchCall(selectors, conditions))
      ensures crud.calls == old(crud.calls) + [SearchCall(selectors, conditions)]
    {
      r := crud.Rows(SearchCall(selectors, conditions));
    }

    /** `findByIdAndDelete($conditions, $id)`: `$id` is unused; delete
        is called only after a read that found rows. */
    method FindByIdAndDelete(conditions: PhpValue, id: PhpValue) returns (r: Result<bool>)
      modifies crud`calls
      ensures !conditions.VArray? ==> r == Err(TypeError) && crud.calls == old(crud.calls)
      ensures conditions.VArray? ==>
        var read := ReadCall([], conditions.a, [], []);
        var found := crud.answers.rows(old(crud.calls), read);
        var log := old(crud.calls) + [read];
        && (found.Err? ==> r == Err(found.error) && crud.calls == log)
        && (found.Ok? && !Found(found.value) ==> r == Ok(false) && crud.calls == log)
        && (found.Ok? && Found(found.value) ==>
              crud.calls == log + [DeleteCall(conditions.a)] &&
              r == crud.answers.written(log, DeleteCall(conditions.a)))
    {
      if !conditions.VArray? {
        return Err(TypeError);
      }
      var result := FindOneBy(conditions.a);
      if result.Err? {
        return Err(result.error);
      }
      if Found(result.value) {
        var deleted := crud.Write(DeleteCall(conditions.a));
        if deleted.Err? {
          return Err(deleted.error);
        }
        if deleted.value {
          return Ok(true);
        }
      }
      return Ok(false);
    }

    /** `findByIdAndUpdate($fields, $id)`: update is called only after
        the row keyed by the key column was found. */
    method FindByIdAndUpdate(fields: PArray, id: int) returns (r: Result<bool>)
      modifies crud`calls
      ensures var read := ReadCall([], [(crud.schemaID, VInt(id))], [], []);
        var found := crud.answers.rows(old(crud.calls), read);
        var log := old(crud.calls) + [read];
        var update := UpdateCall(UpdatePayload(crud.schemaID, id, fields), crud.schemaID);
        && (found.Err? ==> r == Err(found.error) && crud.calls == log)
        && (found.Ok? && !Found(found.value) ==> r == Ok(false) && crud.calls == log)
        && (found.Ok? && Found(found.value) ==>
              crud.calls == log + [update] && r == crud.answers.written(log, update))
    {
      var result := FindOneBy([(crud.GetSchemaID(), VInt(id))]);
      if result.Err? {
        return Err(result.error);
      }
      if Found(result.value) {
        var params := if !IsEmpty(VArray(fields)) then ArrayMerge([(crud.GetSchemaID(), VInt(id))], fields) else fields;
        var updated := crud.Write(UpdateCall(params, crud.GetSchemaID()));
        if updated.Err? {
          return Err(updated.error);
        }
        if updated.value {
          return Ok(true);
        }
      }
      return Ok(false);
    }
  }
}
