/** BakeORM's DataMapperEnvConfig: the database credentials of one
    driver, looked up in a nested credentials array after one
    validation. */
module DataMapperEnvConfig {
  import opened Outcomes
  import opened OrderedMap
  import opened PhpValues

  /** `areCredentialsValid($driver)`. The first two checks cannot fire:
      `$driver` is declared string and `$credentials` array. The third
      reads `$credentials[$driver]` (a warning if absent), takes its keys
      (an array is required) and looks for the driver among them. Loose
      `in_array` is modelled as string equality of the key texts. */
  function CredentialsCheck(credentials: PArray, driver: string): (r: Outcome)
    ensures r == Done <==>
      Lookup(credentials, driver).Some? && Lookup(credentials, driver).value.VArray? &&
      HasKey(Lookup(credentials, driver).value.a, driver)
    ensures r.Failed? ==> r.error == UndefinedKey || r.error == TypeError || r.error == DataMapperInvalidArgument
    ensures r == Failed(UndefinedKey) <==> !HasKey(credentials, driver)
  {
    match Lookup(credentials, driver)
    case None => Failed(UndefinedKey)
    case Some(entry) =>
      if !entry.VArray? then Failed(TypeError)
      else
        InKeys(entry.a, driver);
        if driver !in Keys(entry.a) then Failed(DataMapperInvalidArgument) else Done
  }

  /** The `foreach` of `getDBCredentials` over `credentials`, from the
      value `found` so far: each entry holding the driver replaces it; an
      entry that is not an array makes `array_key_exists` throw. */
  function Scan(credentials: PArray, driver: string, found: PhpValue): Result<PhpValue>
    decreases |credentials|
  {
    if |credentials| == 0 then Ok(found)
    else
      var entry := credentials[0].1;
      if !entry.VArray? then Err(TypeError)
      else
        var next := if HasKey(entry.a, driver) then Lookup(entry.a, driver).value else found;
        Scan(credentials[1..], driver, next)
  }

  /** `getDBCredentials($driver)`; the `array` return type rejects a
      non-array result. */
  function DBCredentials(credentials: PArray, driver: string): Result<PArray>
  {
    match CredentialsCheck(credentials, driver)
    case Failed(err) => Err(err)
    case Done =>
      match Scan(credentials, driver, VArray([]))
      case Err(err) => Err(err)
      case Ok(v) => if v.VArray? then Ok(v.a) else Err(TypeError)
  }

  /** Every entry is an array (so `array_key_exists` never throws). */
  predicate AllArrays(credentials: PArray)
  {
    forall i :: 0 <= i < |credentials| ==> credentials[i].1.VArray?
  }

  predicate Holds(credentials: PArray, driver: string, i: int)
    requires AllArrays(credentials) && 0 <= i < |credentials|
  {
    HasKey(credentials[i].1.a, driver)
  }

  /** The position of the last entry that has the driver as a key. */
  function LastHolder(credentials: PArray, driver: string): (r: int)
    requires AllArrays(credentials)
    ensures -1 <= r < |credentials|
    ensures r >= 0 ==> Holds(credentials, driver, r)
    ensures forall j :: r < j < |credentials| ==> !Holds(credentials, driver, j)
    decreases |credentials|
  {
    if |credentials| == 0 then -1
    else if Holds(credentials, driver, |credentials| - 1) then |credentials| - 1
    else
      var init := credentials[..|credentials| - 1];
      assert forall j :: 0 <= j < |init| ==> init[j] == credentials[j];
      assert forall j :: 0 <= j < |init| ==> Holds(init, driver, j) == Holds(credentials, driver, j);
      LastHolder(init, driver)
  }

  /** The credentials found are those of the LAST entry that has the
      driver, in iteration order; `found` stays when none has it. */
  lemma {:induction false} ScanLastWins(credentials: PArray, driver: string, found: PhpValue)
    requires AllArrays(credentials)
    ensures Scan(credentials, driver, found) ==
      var j := LastHolder(credentials, driver);
      if j < 0 then Ok(found) else Ok(Lookup(credentials[j].1.a, driver).value)
    decreases |credentials|
  {
    if |credentials| > 0 {
      var entry := credentials[0].1;
      var next := if HasKey(entry.a, driver) then Lookup(entry.a, driver).value else found;
      var rest := credentials[1..];
      assert AllArrays(rest) by {
        assert forall i :: 0 <= i < |rest| ==> rest[i] == credentials[i + 1];
      }
      ScanLastWins(rest, driver, next);
      LastHolderOfTail(credentials, driver);
    }
  }

  /** The last holder of the whole array is the tail's, shifted by one,
      or the head when the tail has none. */
  lemma LastHolderOfTail(credentials: PArray, driver: string)
    requires AllArrays(credentials) && |credentials| > 0
    ensures AllArrays(credentials[1..])
    ensures LastHolder(credentials, driver) ==
      var t := LastHolder(credentials[1..], driver);
      if t >= 0 then t + 1 else if Holds(credentials, driver, 0) then 0 else -1
  {
    var rest := credentials[1..];
    assert forall i :: 0 <= i < |rest| ==> rest[i] == credentials[i + 1];
    var t := LastHolder(rest, driver);
    var j := LastHolder(credentials, driver);
    if t >= 0 {
      assert Holds(credentials, driver, t + 1);
    }
    if j > 0 {
      assert Holds(rest, driver, j - 1);
    }
  }

  /** Once the check passes the entry named by the driver holds the
      driver itself, so some entry matches and the initial `[]` is never
      what is returned. */
  lemma CheckedDriverIsFound(credentials: PArray, driver: string)
    requires DistinctKeys(credentials) && AllArrays(credentials)
    requires CredentialsCheck(credentials, driver) == Done
    ensures LastHolder(credentials, driver) >= IndexOf(credentials, driver)
    ensures Scan(credentials, driver, VArray([])) ==
      Ok(Lookup(credentials[LastHolder(credentials, driver)].1.a, driver).value)
  {
    var i := IndexOf(credentials, driver);
    assert Holds(credentials, driver, i);
    ScanLastWins(credentials, driver, VArray([]));
  }

  /** The factory builds this class from an empty credentials array, so
      every lookup fails with the "Undefined array key" warning. */
  lemma EmptyCredentialsFail(driver: string)
    ensures DBCredentials([], driver) == Err(UndefinedKey)
  {
  }

  class DataMapperEnvConfig {
    /** Set by the constructor and never written again. */
    const credentials: PArray

    constructor(credentials: PArray)
      ensures this.credentials == credentials
    {
      this.credentials := credentials;
    }

    method AreCredentialsValid(driver: string) returns (r: Outcome)
      ensures r == CredentialsCheck(credentials, driver)
    {
      var entry := Lookup(credentials, driver);
      if entry.None? {
        return Failed(UndefinedKey);
      }
      if !entry.value.VArray? {
        return Failed(TypeError);
      }
      if driver !in Keys(entry.value.a) {
        return Failed(DataMapperInvalidArgument);
      }
      return Done;
    }

    method GetDBCredentials(driver: string) returns (r: Result<PArray>)
      ensures r == DBCredentials(credentials, driver)
    {
      var connection := VArray([]);
      var check := AreCredentialsValid(driver);
      if check.Failed? {
        return Err(check.error);
      }
      var i := 0;
      while i < |credentials|
        invariant 0 <= i <= |credentials|
        invariant Scan(credentials[i..], driver, connection) == Scan(credentials, driver, VArray([]))
      {
        var entry := credentials[i].1;
        assert credentials[i..][1..] == credentials[i + 1..];
        if !entry.VArray? {
          return Err(TypeError);
        }
        if HasKey(entry.a, driver) {
          connection := Lookup(entry.a, driver).value;
        }
        i := i + 1;
      }
      if !connection.VArray? {
        return Err(TypeError);
      }
      return Ok(connection.a);
    }
  }
}
