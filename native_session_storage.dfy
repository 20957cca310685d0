/** NativeSessionStorage: the session variables of the running request
    (`$_SESSION`), read and changed in place. Starting the native session
    and its cookie are outside the model. */
module NativeSessionStorage {
  import opened Outcomes
  import opened OrderedMap
  import opened PhpStrings
  import opened PhpValues

  /** `$_SESSION[$k][] = $v`: an absent or null entry becomes a one-element
      list, a list gets `$v` as its new last element; any other value is a
      scalar that cannot be appended to. */
  function AppendedAt(m: PArray, k: string, v: PArray): Result<PArray>
  {
    var entry := Lookup(m, k);
    if entry.None? || entry.value.VNull? then Ok(Put(m, k, VArray(Append([], VArray(v)))))
    else if entry.value.VArray? then Ok(Put(m, k, VArray(Append(entry.value.a, VArray(v)))))
    else Err(ScalarUsedAsArray)
  }

  /** The elements an entry holds as a list: none when it is absent or null. */
  function ListAt(m: PArray, k: string): seq<PhpValue>
  {
    var entry := Lookup(m, k);
    if entry.Some? && entry.value.VArray? then Values(entry.value.a) else []
  }

  /** Appending keeps the earlier elements, puts `v` last and touches no
      other key; it fails exactly on a scalar entry. */
  lemma AppendedAtList(m: PArray, k: string, v: PArray)
    ensures AppendedAt(m, k, v).Err? <==> Lookup(m, k).Some? && !Lookup(m, k).value.VNull? && !Lookup(m, k).value.VArray?
    ensures AppendedAt(m, k, v).Ok? ==>
      && Lookup(AppendedAt(m, k, v).value, k).value.VArray?
      && ListAt(AppendedAt(m, k, v).value, k) == ListAt(m, k) + [VArray(v)]
      && forall k' :: k' != k ==> Lookup(AppendedAt(m, k, v).value, k') == Lookup(m, k')
  {
    assert Values<PhpValue>([]) == [];
  }

  /** `flush($k, $default)`: the value returned and the new variables. */
  function Flushed(m: PArray, k: string, default: PhpValue): (PhpValue, PArray)
  {
    if IssetIn(m, k) then (Lookup(m, k).value, Remove(m, k)) else (default, m)
  }

  /** A second flush of the same key finds nothing and returns its default. */
  lemma FlushTwice(m: PArray, k: string, d1: PhpValue, d2: PhpValue)
    requires DistinctKeys(m)
    ensures Flushed(Flushed(m, k, d1).1, k, d2) == (d2, Flushed(m, k, d1).1)
  {
  }

  class NativeSessionStorage {
    /** `$_SESSION`. */
    var session: PArray

    constructor(session: PArray)
      ensures this.session == session
    {
      this.session := session;
    }

    /** `sessionHas($k)`: `isset`, so a null entry counts as absent. */
    predicate SessionHas(k: string)
      reads this
      ensures SessionHas(k) <==> Lookup(session, k).Some? && !Lookup(session, k).value.VNull?
    {
      IssetIn(session, k)
    }

    method SetSession(k: string, v: PhpValue)
      modifies this
      ensures session == Put(old(session), k, v)
      ensures Lookup(session, k) == Some(v)
      ensures forall k' :: k' != k ==> Lookup(session, k') == Lookup(old(session), k')
    {
      session := Put(session, k, v);
    }

    /** `setSessionArray($k, $v)`; on a scalar entry the engine's error is
        raised and nothing changes. */
    method SetSessionArray(k: string, v: PArray) returns (r: Outcome)
      modifies this
      ensures AppendedAt(old(session), k, v).Err? ==> r == Failed(ScalarUsedAsArray) && session == old(session)
      ensures AppendedAt(old(session), k, v).Ok? ==> r == Done && session == AppendedAt(old(session), k, v).value
    {
      var entry := Lookup(session, k);
      if entry.None? || entry.value.VNull? {
        session := Put(session, k, VArray(Append([], VArray(v))));
      } else if entry.value.VArray? {
        session := Put(session, k, VArray(Append(entry.value.a, VArray(v))));
      } else {
        return Failed(ScalarUsedAsArray);
      }
      return Done;
    }

    method GetSession(k: string, default: PhpValue) returns (r: PhpValue)
      ensures SessionHas(k) ==> Lookup(session, k) == Some(r)
      ensures !SessionHas(k) ==> r == default
    {
      if SessionHas(k) {
        return Lookup(session, k).value;
      }
      return default;
    }

    method DeleteSession(k: string) returns (r: bool)
      modifies this
      ensures r == old(SessionHas(k))
      ensures r ==> session == Remove(old(session), k)
      ensures !r ==> session == old(session)
    {
      if SessionHas(k) {
        session := Remove(session, k);
        return true;
      }
      return false;
    }

    /** The clearing line of `invalidate`. */
    method Invalidate()
      modifies this
      ensures session == []
    {
      session := [];
    }

    method Flush(k: string, default: PhpValue) returns (r: PhpValue)
      modifies this
      ensures (r, session) == Flushed(old(session), k, default)
    {
      if SessionHas(k) {
        var value := Lookup(session, k).value;
        var _ := DeleteSession(k);
        return value;
      }
      return default;
    }
  }
}
