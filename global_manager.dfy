/** GlobalManager: named process-wide values (`$GLOBALS`), written freely
    and read back only when set and not PHP-empty. */
module GlobalManager {
  import opened Outcomes
  import opened OrderedMap
  import opened PhpValues

  /** `isGlobalValid($key)`: a missing or null entry, then an empty one,
      is rejected. */
  function GlobalCheck(globals: PArray, key: string): (r: Outcome)
    ensures r == Done <==> Lookup(globals, key).Some? && Truthy(Lookup(globals, key).value)
    ensures r == Failed(GlobalManagerInvalidArgument(true)) <==>
      Lookup(globals, key).None? || Lookup(globals, key).value == VNull
    ensures r.Failed? ==> r.error.GlobalManagerInvalidArgument?
  {
    if !IssetIn(globals, key) then Failed(GlobalManagerInvalidArgument(true))
    else if IsEmpty(Lookup(globals, key).value) then Failed(GlobalManagerInvalidArgument(false))
    else Done
  }

  /** What `get($key)` returns or throws. */
  function GlobalGet(globals: PArray, key: string): (r: Result<PhpValue>)
    ensures r.Ok? <==> GlobalCheck(globals, key) == Done
    ensures r.Ok? ==> Lookup(globals, key) == Some(r.value) && Truthy(r.value)
    ensures r.Err? ==> Failed(r.error) == GlobalCheck(globals, key)
  {
    match GlobalCheck(globals, key)
    case Failed(e) => Err(e)
    case Done => Ok(Lookup(globals, key).value)
  }

  /** Reading back what was set: a truthy value comes back as it was; a
      null one counts as never set, any other PHP-empty one as empty. */
  lemma SetThenGet(globals: PArray, key: string, v: PhpValue)
    ensures Truthy(v) ==> GlobalGet(Put(globals, key, v), key) == Ok(v)
    ensures !Truthy(v) ==> GlobalGet(Put(globals, key, v), key) == Err(GlobalManagerInvalidArgument(v == VNull))
  {
  }

  /** Setting one key leaves what `get` gives for every other key. */
  lemma SetOtherKey(globals: PArray, key: string, other: string, v: PhpValue)
    requires other != key
    ensures GlobalGet(Put(globals, key, v), other) == GlobalGet(globals, other)
  {
  }

  class GlobalManager {
    /** `$GLOBALS`. */
    var globals: PArray

    constructor(globals: PArray)
      ensures this.globals == globals
    {
      this.globals := globals;
    }

    /** `set($key, $value)`: overwrites whatever was there. */
    method Set(key: string, value: PhpValue)
      modifies this
      ensures globals == Put(old(globals), key, value)
      ensures Lookup(globals, key) == Some(value)
      ensures forall k :: k != key ==> Lookup(globals, k) == Lookup(old(globals), k)
    {
      globals := Put(globals, key, value);
    }

    method IsGlobalValid(key: string) returns (r: Outcome)
      ensures r == GlobalCheck(globals, key)
    {
      if !IssetIn(globals, key) {
        return Failed(GlobalManagerInvalidArgument(true));
      }
      if IsEmpty(Lookup(globals, key).value) {
        return Failed(GlobalManagerInvalidArgument(false));
      }
      return Done;
    }

    /** `get($key)`: changes nothing. */
    method Get(key: string) returns (r: Result<PhpValue>)
      ensures r == GlobalGet(globals, key)
    {
      var check := IsGlobalValid(key);
      if check.Failed? {
        return Err(check.error);
      }
      return Ok(Lookup(globals, key).value);
    }
  }
}
