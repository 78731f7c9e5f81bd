/**
 * PHP's ordered arrays with string keys, as the binder uses them: an
 * insertion-ordered list of key/value pairs in which assigning to an
 * existing key keeps its position and assigning to a new key appends it.
 * Also PHP's truthiness of strings, which the binder relies on in its guards.
 */
module PhpArrays {
  import opened Wrappers

  /** PHP's conversion of a string to bool: only "" and "0" are falsy. */
  predicate Truthy(s: string) {
    s != "" && s != "0"
  }

  /** `array_keys`: the keys in array order. */
  function Keys<V>(m: seq<(string, V)>): (ks: seq<string>)
    ensures |ks| == |m|
    ensures forall i :: 0 <= i < |m| ==> ks[i] == m[i].0
  {
    if m == [] then [] else [m[0].0] + Keys(m[1..])
  }

  /** `array_values`: the values in array order. */
  function Values<V>(m: seq<(string, V)>): (vs: seq<V>)
    ensures |vs| == |m|
    ensures forall i :: 0 <= i < |m| ==> vs[i] == m[i].1
  {
    if m == [] then [] else [m[0].1] + Values(m[1..])
  }

  predicate Distinct(ks: seq<string>) {
    forall i, j :: 0 <= i < j < |ks| ==> ks[i] != ks[j]
  }

  /** What every PHP array satisfies: no key occurs twice. */
  predicate UniqueKeys<V>(m: seq<(string, V)>) {
    Distinct(Keys(m))
  }

  /** The position of the first occurrence of `k` in `ks`, if any. */
  function IndexOfKey(ks: seq<string>, k: string): (r: Option<nat>)
    ensures r.Some? ==> r.value < |ks| && ks[r.value] == k
    ensures r.Some? ==> forall j :: 0 <= j < r.value ==> ks[j] != k
    ensures r.None? <==> k !in ks
  {
    if ks == [] then None
    else if ks[0] == k then Some(0)
    else match IndexOfKey(ks[1..], k)
      case Some(i) => Some(i + 1)
      case None => None
  }

  /** `$m[$k] ?? null`: the value stored under `k`. */
  function Get<V>(m: seq<(string, V)>, k: string): (r: Option<V>)
    ensures r.Some? <==> k in Keys(m)
  {
    match IndexOfKey(Keys(m), k)
    case Some(i) => Some(m[i].1)
    case None => None
  }

  /** `$m[$k] = $v`: overwrite in place when `k` is present, append otherwise. */
  function Put<V>(m: seq<(string, V)>, k: string, v: V): (r: seq<(string, V)>)
    ensures k in Keys(m) ==> Keys(r) == Keys(m)
    ensures k !in Keys(m) ==> r == m + [(k, v)]
    ensures Get(r, k) == Some(v)
    ensures forall j :: j != k ==> Get(r, j) == Get(m, j)
  {
    match IndexOfKey(Keys(m), k)
    case Some(i) =>
      var r := m[i := (k, v)];
      assert Keys(r) == Keys(m);
      r
    case None =>
      var r := m + [(k, v)];
      assert Keys(r) == Keys(m) + [k];
      forall j | j != k ensures Get(r, j) == Get(m, j) {
        IndexOfAppend(Keys(m), k, j);
      }
      r
  }

  /** `array_replace($m, $n)`: assign every entry of `n`, in `n`'s order, into `m`. */
  function Replace<V>(m: seq<(string, V)>, n: seq<(string, V)>): (r: seq<(string, V)>)
    ensures Keys(m) <= Keys(r)
    decreases |n|
  {
    if n == [] then m else Replace(Put(m, n[0].0, n[0].1), n[1..])
  }

  /** The keys of `ks` that do not occur in `existing`, in `ks`'s order. */
  function NewKeys(ks: seq<string>, existing: seq<string>): (r: seq<string>)
    ensures forall k :: k in r <==> k in ks && k !in existing
  {
    if ks == [] then [] else (if ks[0] in existing then [] else [ks[0]]) + NewKeys(ks[1..], existing)
  }

  lemma {:induction false} IndexOfAppend(ks: seq<string>, k: string, j: string)
    requires j != k
    ensures IndexOfKey(ks + [k], j) == IndexOfKey(ks, j)
  {
    if ks != [] {
      assert (ks + [k])[0] == ks[0];
      assert (ks + [k])[1..] == ks[1..] + [k];
      IndexOfAppend(ks[1..], k, j);
    }
  }

  /** In an array with unique keys, looking up the key at position `i` yields the value at `i`. */
  lemma GetAt<V>(m: seq<(string, V)>, i: nat)
    requires UniqueKeys(m) && i < |m|
    ensures Get(m, m[i].0) == Some(m[i].1)
  {
    var ks := Keys(m);
    assert ks[i] == m[i].0;
    var r := IndexOfKey(ks, m[i].0);
    assert r.Some?;
    assert r.value == i;
  }

  /** Looking past the first entry, whose key differs from `k`. */
  lemma GetTail<V>(n: seq<(string, V)>, k: string)
    requires n != [] && n[0].0 != k
    ensures Get(n, k) == Get(n[1..], k)
  {
    assert Keys(n)[1..] == Keys(n[1..]);
  }

  lemma GetHead<V>(n: seq<(string, V)>)
    requires n != []
    ensures Get(n, n[0].0) == Some(n[0].1)
  {
    assert Keys(n)[0] == n[0].0;
  }

  /** The tail of an array with unique keys: unique again, and without the head's key. */
  lemma UniqueTail<V>(n: seq<(string, V)>)
    requires n != [] && UniqueKeys(n)
    ensures Keys(n) == [n[0].0] + Keys(n[1..])
    ensures UniqueKeys(n[1..]) && n[0].0 !in Keys(n[1..])
  {
    var rest := n[1..];
    forall i, j | 0 <= i < j < |rest| ensures Keys(rest)[i] != Keys(rest)[j] {
      assert Keys(rest)[i] == Keys(n)[i + 1] && Keys(rest)[j] == Keys(n)[j + 1];
    }
    forall i | 0 <= i < |rest| ensures Keys(rest)[i] != n[0].0 {
      assert Keys(n)[0] == n[0].0 && Keys(rest)[i] == Keys(n)[i + 1];
    }
  }

  lemma {:induction false} NewKeysIgnores(ks: seq<string>, existing: seq<string>, x: string)
    requires x !in ks
    ensures NewKeys(ks, existing + [x]) == NewKeys(ks, existing)
  {
    if ks != [] {
      NewKeysIgnores(ks[1..], existing, x);
    }
  }

  /** Assigning into an array with unique keys keeps its keys unique. */
  lemma PutUnique<V>(m: seq<(string, V)>, k: string, v: V)
    requires UniqueKeys(m)
    ensures UniqueKeys(Put(m, k, v))
  {
    if k !in Keys(m) {
      assert Keys(Put(m, k, v)) == Keys(m) + [k];
    }
  }

  /**
   * The keys of a merged array: the keys of `m`, each in its original
   * position, followed by the keys of `n` that are new, in `n`'s order.
   */
  lemma {:induction false} ReplaceKeys<V>(m: seq<(string, V)>, n: seq<(string, V)>)
    requires UniqueKeys(n)
    ensures Keys(Replace(m, n)) == Keys(m) + NewKeys(Keys(n), Keys(m))
    decreases |n|
  {
    if n != [] {
      var k0, rest := n[0].0, n[1..];
      var p := Put(m, k0, n[0].1);
      UniqueTail(n);
      ReplaceKeys(p, rest);
      if k0 in Keys(m) {
        KeptKeyAddsNothing(Keys(m), k0, Keys(rest));
      } else {
        AppendKeys(m, k0, n[0].1);
        NewKeyComesFirst(Keys(m), k0, Keys(rest));
      }
    }
  }

  lemma KeptKeyAddsNothing(existing: seq<string>, k0: string, ks: seq<string>)
    requires k0 in existing
    ensures existing + NewKeys(ks, existing) == existing + NewKeys([k0] + ks, existing)
  {
    assert ([k0] + ks)[1..] == ks;
  }

  lemma NewKeyComesFirst(existing: seq<string>, k0: string, ks: seq<string>)
    requires k0 !in existing && k0 !in ks
    ensures (existing + [k0]) + NewKeys(ks, existing + [k0]) == existing + NewKeys([k0] + ks, existing)
  {
    assert ([k0] + ks)[1..] == ks;
    NewKeysIgnores(ks, existing, k0);
  }

  lemma ConsAppend<T>(m: seq<T>, n: seq<T>)
    requires n != []
    ensures (m + [n[0]]) + n[1..] == m + n
  {
    assert n == [n[0]] + n[1..];
  }

  lemma AppendKeys<V>(m: seq<(string, V)>, k: string, v: V)
    ensures Keys(m + [(k, v)]) == Keys(m) + [k]
  {
  }

  /** The values of a merged array: those of `n` win on every key `n` has. */
  lemma {:induction false} ReplaceGet<V>(m: seq<(string, V)>, n: seq<(string, V)>, k: string)
    requires UniqueKeys(n)
    ensures Get(Replace(m, n), k) == if k in Keys(n) then Get(n, k) else Get(m, k)
    decreases |n|
  {
    if n != [] {
      var k0, v0 := n[0].0, n[0].1;
      var rest := n[1..];
      UniqueTail(n);
      ReplaceGet(Put(m, k0, v0), rest, k);
      if k == k0 {
        GetHead(n);
      } else {
        GetTail(n, k);
      }
    }
  }

  /** Merging keeps the keys unique. */
  lemma {:induction false} ReplaceUnique<V>(m: seq<(string, V)>, n: seq<(string, V)>)
    requires UniqueKeys(m)
    ensures UniqueKeys(Replace(m, n))
    decreases |n|
  {
    if n != [] {
      PutUnique(m, n[0].0, n[0].1);
      ReplaceUnique(Put(m, n[0].0, n[0].1), n[1..]);
    }
  }

  /** When `n` brings only new keys, merging simply appends it. */
  lemma {:induction false} ReplaceDisjoint<V>(m: seq<(string, V)>, n: seq<(string, V)>)
    requires UniqueKeys(n)
    requires forall k :: k in Keys(n) ==> k !in Keys(m)
    ensures Replace(m, n) == m + n
    decreases |n|
  {
    if n != [] {
      var p := m + [n[0]];
      assert n[0].0 in Keys(n);
      assert Put(m, n[0].0, n[0].1) == p;
      assert Replace(m, n) == Replace(p, n[1..]);
      UniqueTail(n);
      AppendKeys(m, n[0].0, n[0].1);
      assert forall k :: k in Keys(n[1..]) ==> k !in Keys(p);
      ReplaceDisjoint(p, n[1..]);
      ConsAppend(m, n);
    }
  }
}
