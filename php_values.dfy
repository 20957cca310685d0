/** PHP values (without floats and objects) and the parts of PHP's
    semantics the framework depends on: truthiness, `isset`, loose
    comparison against the constants it compares with, string
    conversion, appending to an array and `array_merge`. */
module PhpValues {
  import opened Outcomes
  import opened OrderedMap
  import opened PhpStrings

  datatype PhpValue =
    | VNull
    | VBool(b: bool)
    | VInt(i: int)
    | VStr(s: string)
    | VArray(a: OMap<PhpValue>)

  /** A PHP array of values. */
  type PArray = OMap<PhpValue>

  /** `isset` of a value that is present: anything but null. */
  predicate IsSet(v: PhpValue)
  {
    !v.VNull?
  }

  /** PHP's conversion to bool. */
  predicate Truthy(v: PhpValue)
  {
    match v
    case VNull => false
    case VBool(b) => b
    case VInt(i) => i != 0
    case VStr(s) => s != "" && s != "0"
    case VArray(a) => |a| > 0
  }

  /** `empty($v)`. */
  predicate IsEmpty(v: PhpValue)
  {
    !Truthy(v)
  }

  /** `isset($m[$k])`. */
  predicate IssetIn(m: PArray, k: string)
  {
    Lookup(m, k).Some? && IsSet(Lookup(m, k).value)
  }

  /** `$v == ''` under PHP 8 loose comparison: null and false convert to '',
      an int is compared as its decimal text, an array is never equal. */
  predicate LooseEqualsEmptyString(v: PhpValue)
  {
    v == VNull || v == VBool(false) || v == VStr("")
  }

  /** `$v == $b` for a bool `$b`: the other side is converted to bool. */
  predicate LooseEqualsBool(v: PhpValue, b: bool)
  {
    Truthy(v) == b
  }

  /** `$v == $n` for an int `$n` (a string is compared by its canonical
      decimal text; other numeric spellings are not modelled). */
  predicate LooseEqualsInt(v: PhpValue, n: int)
  {
    match v
    case VNull => n == 0
    case VBool(b) => b == (n != 0)
    case VInt(i) => i == n
    case VStr(s) => s == IntString(n)
    case VArray(_) => false
  }

  /** String interpolation of a value; an array gives the
      "Array to string conversion" warning, modelled as None. */
  function StringOf(v: PhpValue): Option<string>
  {
    match v
    case VNull => Some("")
    case VBool(b) => Some(if b then "1" else "")
    case VInt(i) => Some(IntString(i))
    case VStr(s) => Some(s)
    case VArray(_) => None
  }

  /** The index `$m[] = ...` uses: one more than the largest non-negative
      integer key, or 0. */
  function NextIndex<V>(m: OMap<V>): nat
  {
    if |m| == 0 then 0
    else
      var last := m[|m| - 1].0;
      var below := NextIndex(m[..|m| - 1]);
      var here := if IsNatKey(last) then DigitsValue(last) + 1 else 0;
      if below < here then here else below
  }

  lemma {:induction false} NextIndexAbove<V>(m: OMap<V>, i: nat)
    requires i < |m| && IsNatKey(m[i].0)
    ensures DigitsValue(m[i].0) < NextIndex(m)
  {
    if i < |m| - 1 {
      assert m[..|m| - 1][i] == m[i];
      NextIndexAbove(m[..|m| - 1], i);
    }
  }

  /** `$m[] = $v`. */
  function Append<V>(m: OMap<V>, v: V): (r: OMap<V>)
    ensures |r| == |m| + 1 && r[..|m|] == m && r[|m|].1 == v && IsNatKey(r[|m|].0)
    ensures !HasKey(m, r[|m|].0)
    ensures Values(r) == Values(m) + [v]
    ensures DistinctKeys(m) ==> DistinctKeys(r)
    ensures forall k :: !IsIntKey(k) ==> Lookup(r, k) == Lookup(m, k)
  {
    var n := NextIndex(m);
    var key := NatString(n);
    NatStringIsCanonical(n);
    assert forall i :: 0 <= i < |m| ==> m[i].0 != key by {
      forall i | 0 <= i < |m| ensures m[i].0 != key {
        if IsNatKey(m[i].0) { NextIndexAbove(m, i); }
      }
    }
    var r := m + [(key, v)];
    assert forall k :: k != key ==> Lookup(r, k) == Lookup(m, k) by {
      forall k | k != key ensures Lookup(r, k) == Lookup(m, k) { IndexOfConcat(m, [(key, v)], k); }
    }
    assert r[..|m|] == m;
    r
  }

  /** Appending to an empty array uses key 0. */
  lemma AppendToEmpty<V>(v: V)
    ensures Append([], v) == [("0", v)]
  {
    assert NatString(0) == "0";
  }

  /** `array_merge` renumbers an integer key: a one-pair array becomes `[0 => v]`. */
  lemma MergeIntKeyPair<V>(k: string, v: V)
    requires IsIntKey(k)
    ensures MergeInto([], [(k, v)]) == [("0", v)]
  {
    var pair := [(k, v)];
    assert pair[1..] == [];
    AppendToEmpty(v);
    assert MergeInto([], pair) == MergeInto(MergeStep([], pair[0]), pair[1..]);
  }

  /** One pair of `array_merge`: integer keys are renumbered by appending,
      string keys overwrite in place. */
  function MergeStep<V>(acc: OMap<V>, kv: (string, V)): OMap<V>
  {
    if IsIntKey(kv.0) then Append(acc, kv.1) else Put(acc, kv.0, kv.1)
  }

  /** Merge the pairs of `s`, in order, into `acc`. */
  function MergeInto<V>(acc: OMap<V>, s: OMap<V>): OMap<V>
    decreases |s|
  {
    if |s| == 0 then acc else MergeInto(MergeStep(acc, s[0]), s[1..])
  }

  /** `array_merge($a, $b)`. */
  function ArrayMerge<V>(a: OMap<V>, b: OMap<V>): OMap<V>
  {
    MergeInto(MergeInto([], a), b)
  }

  /** A string key of a merge holds the value of the last array that has it. */
  lemma {:induction false} MergeIntoLookup<V>(acc: OMap<V>, s: OMap<V>, k: string)
    requires DistinctKeys(s) && !IsIntKey(k)
    ensures Lookup(MergeInto(acc, s), k) == if HasKey(s, k) then Lookup(s, k) else Lookup(acc, k)
    decreases |s|
  {
    if |s| > 0 {
      var next := MergeStep(acc, s[0]);
      MergeIntoLookup(next, s[1..], k);
      if s[0].0 == k {
        assert forall t :: 0 <= t < |s| - 1 ==> s[1..][t].0 == s[t + 1].0 != k;
      }
    }
  }

  /** Merging never moves a key that is already there. */
  lemma {:induction false} MergeIntoKeepsPrefix<V>(acc: OMap<V>, s: OMap<V>)
    ensures |MergeInto(acc, s)| >= |acc|
    ensures forall i :: 0 <= i < |acc| ==> MergeInto(acc, s)[i].0 == acc[i].0
    decreases |s|
  {
    if |s| > 0 {
      MergeIntoKeepsPrefix(MergeStep(acc, s[0]), s[1..]);
    }
  }

  lemma {:induction false} MergeIntoDistinct<V>(acc: OMap<V>, s: OMap<V>)
    requires DistinctKeys(acc)
    ensures DistinctKeys(MergeInto(acc, s))
    decreases |s|
  {
    if |s| > 0 {
      MergeIntoDistinct(MergeStep(acc, s[0]), s[1..]);
    }
  }

  predicate NoIntKeys<V>(m: OMap<V>)
  {
    forall i :: 0 <= i < |m| ==> !IsIntKey(m[i].0)
  }

  /** Merging string-keyed pairs that are new to `acc` appends them. */
  lemma {:induction false} MergeIntoFreshStringKeys<V>(acc: OMap<V>, s: OMap<V>)
    requires DistinctKeys(acc + s) && NoIntKeys(s)
    ensures MergeInto(acc, s) == acc + s
    decreases |s|
  {
    if |s| > 0 {
      assert !HasKey(acc, s[0].0) by {
        assert forall i :: 0 <= i < |acc| ==> (acc + s)[i] == acc[i];
        assert (acc + s)[|acc|] == s[0];
      }
      assert acc + s == (acc + [s[0]]) + s[1..];
      MergeIntoFreshStringKeys(acc + [s[0]], s[1..]);
    }
  }

  /** `array_merge($a, $b)` for a string key: `$b` wins, else `$a`. */
  lemma ArrayMergeLookup<V>(a: OMap<V>, b: OMap<V>, k: string)
    requires DistinctKeys(a) && DistinctKeys(b) && !IsIntKey(k)
    ensures Lookup(ArrayMerge(a, b), k) == if HasKey(b, k) then Lookup(b, k) else Lookup(a, k)
  {
    MergeIntoLookup(MergeInto([], a), b, k);
    MergeIntoLookup([], a, k);
  }
}
