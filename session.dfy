/** Session: validated keys over a session storage. Every operation but
    `invalidate` first checks the key against the session key pattern;
    storage failures are rethrown as the session's own failure, except by
    `has`. */
module Session {
  import opened Outcomes
  import opened OrderedMap
  import opened PhpValues
  import opened NativeSessionStorage

  /** A character of `[a-zA-Z0-9_\.]`. */
  predicate IsKeyChar(c: char)
  {
    ('a' <= c <= 'z') || ('A' <= c <= 'Z') || ('0' <= c <= '9') || c == '_' || c == '.'
  }

  predicate AllKeyChars(s: string)
  {
    forall i :: 0 <= i < |s| ==> IsKeyChar(s[i])
  }

  /** `preg_match('/^[a-zA-Z0-9_\.]{1,64}$/', $key) === 1`. Without the D
      modifier `$` also matches before a final newline, so one trailing
      "\n" is accepted. */
  function IsSessionKeyValid(s: string): (r: bool)
    ensures r <==>
      (1 <= |s| <= 64 && AllKeyChars(s)) ||
      (2 <= |s| <= 65 && s[|s| - 1] == '\n' && AllKeyChars(s[..|s| - 1]))
  {
    var word := if |s| > 0 && s[|s| - 1] == '\n' then s[..|s| - 1] else s;
    assert |s| > 0 && s[|s| - 1] == '\n' ==> !AllKeyChars(s) by {
      if |s| > 0 && s[|s| - 1] == '\n' {
        assert !IsKeyChar(s[|s| - 1]);
      }
    }
    1 <= |word| <= 64 && AllKeyChars(word)
  }

  /** The empty name is rejected, so the session manager, which names its
      session '', never obtains one. */
  lemma EmptyNameInvalid()
    ensures !IsSessionKeyValid("")
  {
  }

  /** One trailing newline is accepted, two are not. */
  lemma OneTrailingNewlineOnly(w: string)
    requires 1 <= |w| <= 63 && AllKeyChars(w)
    ensures IsSessionKeyValid(w + "\n")
    ensures !IsSessionKeyValid(w + "\n\n")
  {
    assert (w + "\n")[..|w|] == w;
    var s := w + "\n\n";
    assert s[|s| - 2] == '\n' && s[..|s| - 1] == w + "\n";
    assert !IsKeyChar(s[..|s| - 1][|w|]);
  }

  class Session {
    const storage: NativeSessionStorage
    const sessionName: string

    /** Only a valid name gets this far; see `Open` for the rejection. */
    constructor(sessionName: string, storage: NativeSessionStorage)
      requires IsSessionKeyValid(sessionName)
      ensures this.sessionName == sessionName && this.storage == storage
    {
      this.sessionName := sessionName;
      this.storage := storage;
    }

    /** `ensureSessionKeyIsValid($key)`. */
    function EnsureSessionKeyIsValid(key: string): (r: Outcome)
      ensures r == Done <==> IsSessionKeyValid(key)
      ensures r.Failed? ==> r.error == SessionInvalidArgument
    {
      if IsSessionKeyValid(key) then Done else Failed(SessionInvalidArgument)
    }

    method Set(key: string, value: PhpValue) returns (r: Outcome)
      modifies storage
      ensures !IsSessionKeyValid(key) ==> r == Failed(SessionInvalidArgument) && storage.session == old(storage.session)
      ensures IsSessionKeyValid(key) ==> r == Done && storage.session == Put(old(storage.session), key, value)
    {
      r := EnsureSessionKeyIsValid(key);
      if r.Failed? {
        return;
      }
      storage.SetSession(key, value);
    }

    method SetArray(key: string, value: PArray) returns (r: Outcome)
      modifies storage
      ensures !IsSessionKeyValid(key) ==> r == Failed(SessionInvalidArgument) && storage.session == old(storage.session)
      ensures IsSessionKeyValid(key) ==>
        var appended := AppendedAt(old(storage.session), key, value);
        && (appended.Err? ==> r == Failed(SessionFailure) && storage.session == old(storage.session))
        && (appended.Ok? ==> r == Done && storage.session == appended.value)
    {
      r := EnsureSessionKeyIsValid(key);
      if r.Failed? {
        return;
      }
      var stored := storage.SetSessionArray(key, value);
      if stored.Failed? {
        return Failed(SessionFailure);
      }
    }

    /** `get($key, $default)`: the storage's answer, unchanged. */
    method Get(key: string, default: PhpValue) returns (r: Result<PhpValue>)
      ensures !IsSessionKeyValid(key) ==> r == Err(SessionInvalidArgument)
      ensures IsSessionKeyValid(key) && storage.SessionHas(key) ==> r == Ok(Lookup(storage.session, key).value)
      ensures IsSessionKeyValid(key) && !storage.SessionHas(key) ==> r == Ok(default)
    {
      var check := EnsureSessionKeyIsValid(key);
      if check.Failed? {
        return Err(check.error);
      }
      var value := storage.GetSession(key, default);
      return Ok(value);
    }

    /** `delete($key)`: true whether or not storage had the key. */
    method Delete(key: string) returns (r: Result<bool>)
      modifies storage
      ensures !IsSessionKeyValid(key) ==> r == Err(SessionInvalidArgument) && storage.session == old(storage.session)
      ensures IsSessionKeyValid(key) ==>
        && r == Ok(true)
        && storage.session == if old(storage.SessionHas(key)) then Remove(old(storage.session), key) else old(storage.session)
    {
      var check := EnsureSessionKeyIsValid(key);
      if check.Failed? {
        return Err(check.error);
      }
      var _ := storage.DeleteSession(key);
      return Ok(true);
    }

    /** `flush($key, $value)`: the storage's flush with `$value` as its
        default; the flushed value itself is not returned. */
    method Flush(key: string, value: PhpValue) returns (r: Outcome)
      modifies storage
      ensures !IsSessionKeyValid(key) ==> r == Failed(SessionInvalidArgument) && storage.session == old(storage.session)
      ensures IsSessionKeyValid(key) ==> r == Done && storage.session == Flushed(old(storage.session), key, value).1
    {
      r := EnsureSessionKeyIsValid(key);
      if r.Failed? {
        return;
      }
      var _ := storage.Flush(key, value);
    }

    method Has(key: string) returns (r: Result<bool>)
      ensures !IsSessionKeyValid(key) ==> r == Err(SessionInvalidArgument)
      ensures IsSessionKeyValid(key) ==> r == Ok(IssetIn(storage.session, key))
    {
      var check := EnsureSessionKeyIsValid(key);
      if check.Failed? {
        return Err(check.error);
      }
      return Ok(storage.SessionHas(key));
    }
  }

  /** `new Session($sessionName, $storage)`: an invalid name throws. */
  method Open(sessionName: string, storage: NativeSessionStorage) returns (r: Result<Session>)
    ensures r.Err? <==> !IsSessionKeyValid(sessionName)
    ensures r.Err? ==> r.error == SessionInvalidArgument
    ensures r.Ok? ==> fresh(r.value) && r.value.sessionName == sessionName && r.value.storage == storage
  {
    if !IsSessionKeyValid(sessionName) {
      return Err(SessionInvalidArgument);
    }
    var session := new Session(sessionName, storage);
    return Ok(session);
  }
}
