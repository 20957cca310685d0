/** Flash: one-shot messages kept in the session under a fixed key, as a
    list of `['message' => ..., 'type' => ...]` records. The session is
    the one the global `global_session` holds; it is passed in here. */
module Flash {
  import opened Outcomes
  import opened OrderedMap
  import opened PhpValues
  import opened NativeSessionStorage
  import opened Session

  const FlashKey: string := "flash_message"

  // The message types.
  const Success: string := "success"
  const Info: string := "info"
  const Warning: string := "warning"
  const Danger: string := "danger"

  /** The flash key passes the session key check, so the session never
      rejects it. */
  lemma FlashKeyIsValid()
    ensures IsSessionKeyValid(FlashKey)
  {
    assert AllKeyChars(FlashKey) by {
      forall i | 0 <= i < |FlashKey| ensures IsKeyChar(FlashKey[i]) {
        assert FlashKey[i] in "abcdefghijklmnopqrstuvwxyz_";
      }
    }
  }

  function Record(message: string, kind: string): PArray
  {
    [("message", VStr(message)), ("type", VStr(kind))]
  }

  /** The session variables after `add($message, $type)`: the key is
      first set to `[]` unless it is set, then the record is appended. */
  function FlashAdded(m: PArray, message: string, kind: string): Result<PArray>
  {
    var prepared := if IssetIn(m, FlashKey) then m else Put(m, FlashKey, VArray([]));
    match AppendedAt(prepared, FlashKey, Record(message, kind))
    case Err(_) => Err(SessionFailure)
    case Ok(next) => Ok(next)
  }

  /** The flash entry can take another record: absent, null or a list. */
  predicate Appendable(m: PArray)
  {
    Lookup(m, FlashKey).None? || Lookup(m, FlashKey).value.VNull? || Lookup(m, FlashKey).value.VArray?
  }

  /** One add puts exactly one record after the existing ones and touches
      no other variable; it fails exactly when the entry holds a scalar. */
  lemma AddAppendsOne(m: PArray, message: string, kind: string)
    ensures FlashAdded(m, message, kind).Ok? <==> Appendable(m)
    ensures FlashAdded(m, message, kind).Ok? ==>
      && Appendable(FlashAdded(m, message, kind).value)
      && ListAt(FlashAdded(m, message, kind).value, FlashKey) == ListAt(m, FlashKey) + [VArray(Record(message, kind))]
      && forall k :: k != FlashKey ==> Lookup(FlashAdded(m, message, kind).value, k) == Lookup(m, k)
  {
    var prepared := if IssetIn(m, FlashKey) then m else Put(m, FlashKey, VArray([]));
    assert ListAt(prepared, FlashKey) == ListAt(m, FlashKey) by {
      assert Values<PhpValue>([]) == [];
    }
    AppendedAtList(prepared, FlashKey, Record(message, kind));
  }

  /** Several adds in a row, in call order. */
  function AddedAll(m: PArray, messages: seq<(string, string)>): Result<PArray>
    decreases |messages|
  {
    if |messages| == 0 then Ok(m)
    else
      match FlashAdded(m, messages[0].0, messages[0].1)
      case Err(e) => Err(e)
      case Ok(next) => AddedAll(next, messages[1..])
  }

  function Records(messages: seq<(string, string)>): seq<PhpValue>
  {
    seq(|messages|, i requires 0 <= i < |messages| => VArray(Record(messages[i].0, messages[i].1)))
  }

  lemma RecordsCons(messages: seq<(string, string)>)
    requires |messages| > 0
    ensures Records(messages) == [VArray(Record(messages[0].0, messages[0].1))] + Records(messages[1..])
  {
  }

  /** n adds give n more records, in call order. */
  lemma {:induction false} AddsInCallOrder(m: PArray, messages: seq<(string, string)>)
    requires Appendable(m)
    ensures AddedAll(m, messages).Ok?
    ensures ListAt(AddedAll(m, messages).value, FlashKey) == ListAt(m, FlashKey) + Records(messages)
    decreases |messages|
  {
    if |messages| > 0 {
      var head, tail := messages[0], messages[1..];
      AddAppendsOne(m, head.0, head.1);
      var next := FlashAdded(m, head.0, head.1).value;
      assert AddedAll(m, messages) == AddedAll(next, tail);
      AddsInCallOrder(next, tail);
      var first := VArray(Record(head.0, head.1));
      RecordsCons(messages);
      assert (ListAt(m, FlashKey) + [first]) + Records(tail) == ListAt(m, FlashKey) + ([first] + Records(tail));
    }
  }

  /** `add($message, $type)`; the type defaults to `success`. */
  method Add(session: Session, message: string, kind: string := Success) returns (r: Outcome)
    modifies session.storage
    ensures var added := FlashAdded(old(session.storage.session), message, kind);
      && (added.Err? ==> r == Failed(SessionFailure) && session.storage.session == old(session.storage.session))
      && (added.Ok? ==> r == Done && session.storage.session == added.value)
  {
    FlashKeyIsValid();
    var has := session.Has(FlashKey);
    if !(has.Ok? && has.value) {
      var _ := session.Set(FlashKey, VArray([]));
    }
    r := session.SetArray(FlashKey, Record(message, kind));
  }

  /** `get()` as written: it calls the session's two-argument `flush`
      with one argument, which throws before anything is flushed. */
  method Get(session: Session) returns (r: Outcome)
    ensures r == Failed(ArgumentCountError)
  {
    return Failed(ArgumentCountError);
  }

  /** `get()` as evidently intended: the flash records are removed and
      returned (null when there are none). */
  method GetFlushing(session: Session) returns (r: PhpValue)
    modifies session.storage
    ensures (r, session.storage.session) == Flushed(old(session.storage.session), FlashKey, VNull)
  {
    r := session.storage.Flush(FlashKey, VNull);
  }

  /** What was added comes back once from the intended `get`, and the
      next `get` finds nothing. */
  lemma AddedThenFlushed(m: PArray, messages: seq<(string, string)>)
    requires DistinctKeys(m) && Lookup(m, FlashKey).None?
    requires |messages| > 0
    ensures AddedAll(m, messages).Ok?
    ensures var after := AddedAll(m, messages).value;
      && Flushed(after, FlashKey, VNull).0.VArray?
      && Values(Flushed(after, FlashKey, VNull).0.a) == Records(messages)
      && Flushed(Flushed(after, FlashKey, VNull).1, FlashKey, VNull).0 == VNull
  {
    AddsInCallOrder(m, messages);
    var after := AddedAll(m, messages).value;
    AddedAllDistinct(m, messages);
    var list := ListAt(after, FlashKey);
    assert |list| > 0;
    FlushTwice(after, FlashKey, VNull, VNull);
  }

  lemma {:induction false} AddedAllDistinct(m: PArray, messages: seq<(string, string)>)
    requires DistinctKeys(m) && AddedAll(m, messages).Ok?
    ensures DistinctKeys(AddedAll(m, messages).value)
    decreases |messages|
  {
    if |messages| > 0 {
      var next := FlashAdded(m, messages[0].0, messages[0].1).value;
      AddedAllDistinct(next, messages[1..]);
    }
  }
}
