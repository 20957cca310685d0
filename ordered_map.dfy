/** PHP arrays as ordered maps: a sequence of key/value pairs in insertion
    order. Keys are strings; an integer key is kept as its canonical decimal
    string, which is how PHP itself identifies `"5"` and `5` as one key. */
module OrderedMap {
  import opened Outcomes

  type OMap<V> = seq<(string, V)>

  /** The keys, in iteration order (`array_keys`). */
  function Keys<V>(m: OMap<V>): seq<string>
  {
    seq(|m|, i requires 0 <= i < |m| => m[i].0)
  }

  /** The values, in iteration order (`array_values`). */
  function Values<V>(m: OMap<V>): seq<V>
  {
    seq(|m|, i requires 0 <= i < |m| => m[i].1)
  }

  /** Every PHP array has pairwise distinct keys. */
  predicate DistinctKeys<V>(m: OMap<V>)
  {
    forall i, j :: 0 <= i < j < |m| ==> m[i].0 != m[j].0
  }

  /** Position of key `k`, or -1 when absent. */
  function IndexOf<V>(m: OMap<V>, k: string): (r: int)
    ensures -1 <= r < |m|
    ensures r >= 0 ==> m[r].0 == k && forall j :: 0 <= j < r ==> m[j].0 != k
    ensures r == -1 ==> forall j :: 0 <= j < |m| ==> m[j].0 != k
  {
    if |m| == 0 then -1
    else if m[0].0 == k then 0
    else
      var r := IndexOf(m[1..], k);
      if r == -1 then -1 else r + 1
  }

  predicate HasKey<V>(m: OMap<V>, k: string)
  {
    IndexOf(m, k) >= 0
  }

  /** `$m[$k]` when the key exists. */
  function Lookup<V>(m: OMap<V>, k: string): Option<V>
  {
    var i := IndexOf(m, k);
    if i >= 0 then Some(m[i].1) else None
  }

  /** `in_array($k, array_keys($m))` under string equality is `array_key_exists`. */
  lemma InKeys<V>(m: OMap<V>, k: string)
    ensures k in Keys(m) <==> HasKey(m, k)
  {
    if k in Keys(m) {
      var i :| 0 <= i < |m| && Keys(m)[i] == k;
    }
    if HasKey(m, k) {
      assert Keys(m)[IndexOf(m, k)] == k;
    }
  }

  /** In a map with distinct keys, the pair at `i` is the one found for its key. */
  lemma LookupAt<V>(m: OMap<V>, i: nat, k: string)
    requires DistinctKeys(m) && i < |m| && m[i].0 == k
    ensures Lookup(m, k) == Some(m[i].1)
  {
  }

  /** Finding a key in a concatenation: the left part is searched first. */
  lemma {:induction false} IndexOfConcat<V>(a: OMap<V>, b: OMap<V>, k: string)
    ensures IndexOf(a + b, k) ==
      if IndexOf(a, k) >= 0 then IndexOf(a, k)
      else if IndexOf(b, k) >= 0 then |a| + IndexOf(b, k)
      else -1
  {
    if |a| > 0 {
      assert (a + b)[1..] == a[1..] + b;
      IndexOfConcat(a[1..], b, k);
    } else {
      assert a + b == b;
    }
  }

  /** Overwriting a pair with one of the same key moves no key. */
  lemma {:induction false} UpdateKeepsIndex<V>(m: OMap<V>, i: nat, x: (string, V), k: string)
    requires i < |m| && m[i].0 == x.0
    ensures IndexOf(m[i := x], k) == IndexOf(m, k)
  {
    if i > 0 {
      assert m[i := x][1..] == m[1..][i - 1 := x];
      UpdateKeepsIndex(m[1..], i - 1, x, k);
    }
  }

  /** Dropping the pair at `i` shifts the later keys down by one. */
  lemma {:induction false} DropShiftsIndex<V>(m: OMap<V>, i: nat, k: string)
    requires i < |m| && m[i].0 != k
    ensures IndexOf(m[..i] + m[i + 1..], k) ==
      if IndexOf(m, k) < i then IndexOf(m, k) else IndexOf(m, k) - 1
  {
    if i == 0 {
      assert m[..0] + m[1..] == m[1..];
    } else {
      assert (m[..i] + m[i + 1..])[1..] == m[1..][..i - 1] + m[1..][i..];
      DropShiftsIndex(m[1..], i - 1, k);
    }
  }

  /** `$m[$k] = $v`: an existing key is overwritten where it stands,
      a new key goes at the end. */
  function Put<V>(m: OMap<V>, k: string, v: V): (r: OMap<V>)
    ensures Lookup(r, k) == Some(v)
    ensures forall k' :: k' != k ==> Lookup(r, k') == Lookup(m, k')
    ensures HasKey(m, k) ==> |r| == |m| && r[IndexOf(m, k)] == (k, v) && Keys(r) == Keys(m)
    ensures !HasKey(m, k) ==> r == m + [(k, v)] && Keys(r) == Keys(m) + [k]
    ensures DistinctKeys(m) ==> DistinctKeys(r)
  {
    var i := IndexOf(m, k);
    if i >= 0 then
      var r := m[i := (k, v)];
      assert forall k' :: IndexOf(r, k') == IndexOf(m, k') by {
        forall k' ensures IndexOf(r, k') == IndexOf(m, k') { UpdateKeepsIndex(m, i, (k, v), k'); }
      }
      r
    else
      var r := m + [(k, v)];
      assert forall k' :: IndexOf(r, k') == (if k' == k then |m| else IndexOf(m, k')) by {
        forall k' ensures IndexOf(r, k') == (if k' == k then |m| else IndexOf(m, k')) {
          IndexOfConcat(m, [(k, v)], k');
        }
      }
      r
  }

  /** `unset($m[$k])`. */
  function Remove<V>(m: OMap<V>, k: string): (r: OMap<V>)
    ensures !HasKey(m, k) ==> r == m
    ensures DistinctKeys(m) ==> DistinctKeys(r) && Lookup(r, k) == None
    ensures DistinctKeys(m) ==> forall k' :: k' != k ==> Lookup(r, k') == Lookup(m, k')
    ensures HasKey(m, k) ==> |r| == |m| - 1
  {
    var i := IndexOf(m, k);
    if i < 0 then m
    else
      var r := m[..i] + m[i + 1..];
      assert forall k' :: k' != k ==>
        IndexOf(r, k') == (if IndexOf(m, k') < i then IndexOf(m, k') else IndexOf(m, k') - 1) by {
        forall k' | k' != k
          ensures IndexOf(r, k') == (if IndexOf(m, k') < i then IndexOf(m, k') else IndexOf(m, k') - 1)
        {
          DropShiftsIndex(m, i, k');
        }
      }
      assert forall j :: 0 <= j < |r| ==> r[j] == (if j < i then m[j] else m[j + 1]);
      r
  }
}
