/**
 * Ordered string-keyed records: the model of a JavaScript object (`Record<string, V>`) as the
 * sequence of its own properties in insertion order.  Assigning a property (`o[k] = v`, or the
 * `{...o, [k]: v}` spread) replaces the value in place when the key exists and appends otherwise.
 */
module Records {
  import opened Wrappers

  type Record<V> = seq<(string, V)>

  /** The property names, in order (JavaScript's `Object.keys`). */
  function Keys<V>(r: Record<V>): (ks: seq<string>)
    ensures |ks| == |r|
    ensures forall i :: 0 <= i < |r| ==> ks[i] == r[i].0
  {
    if r == [] then [] else [r[0].0] + Keys(r[1..])
  }

  /** The value of property `k` (the first member of that name). */
  function Get<V>(r: Record<V>, k: string): (o: Option<V>)
    ensures o.Some? <==> k in Keys(r)
  {
    if r == [] then None
    else if r[0].0 == k then Some(r[0].1)
    else Get(r[1..], k)
  }

  /** `o[k] = v`: replace the first member named `k`, or append a new member. */
  function Put<V>(r: Record<V>, k: string, v: V): (r': Record<V>)
    ensures k in Keys(r) ==> |r'| == |r|
    ensures k !in Keys(r) ==> r' == r + [(k, v)]
  {
    if r == [] then [(k, v)]
    else if r[0].0 == k then [(k, v)] + r[1..]
    else [r[0]] + Put(r[1..], k, v)
  }

  /** No two members share a name (every object JSON.parse or a JavaScript program builds). */
  predicate UniqueKeys<V>(r: Record<V>)
  {
    forall i, j :: 0 <= i < j < |r| ==> r[i].0 != r[j].0
  }

  /** The record with member `k` removed (`delete o[k]`). */
  function Remove<V>(r: Record<V>, k: string): (r': Record<V>)
    ensures |r'| <= |r|
  {
    if r == [] then []
    else if r[0].0 == k then Remove(r[1..], k)
    else [r[0]] + Remove(r[1..], k)
  }

  lemma {:induction false} GetPutSame<V>(r: Record<V>, k: string, v: V)
    ensures Get(Put(r, k, v), k) == Some(v)
  {
    if r != [] && r[0].0 != k {
      GetPutSame(r[1..], k, v);
    }
  }

  lemma {:induction false} GetPutOther<V>(r: Record<V>, k: string, v: V, k': string)
    requires k' != k
    ensures Get(Put(r, k, v), k') == Get(r, k')
  {
    if r != [] && r[0].0 != k {
      GetPutOther(r[1..], k, v, k');
    }
  }

  /** An existing key keeps its position; a new key goes last; the other names keep their order. */
  lemma {:induction false} KeysPut<V>(r: Record<V>, k: string, v: V)
    ensures Keys(Put(r, k, v)) == if k in Keys(r) then Keys(r) else Keys(r) + [k]
  {
    if r != [] && r[0].0 != k {
      KeysPut(r[1..], k, v);
      assert Keys(r) == [r[0].0] + Keys(r[1..]);
    }
  }

  lemma {:induction false} PutKeepsUnique<V>(r: Record<V>, k: string, v: V)
    requires UniqueKeys(r)
    ensures UniqueKeys(Put(r, k, v))
  {
    KeysPut(r, k, v);
    var r' := Put(r, k, v);
    forall i, j | 0 <= i < j < |r'| ensures r'[i].0 != r'[j].0 {
      assert Keys(r')[i] == r'[i].0 && Keys(r')[j] == r'[j].0;
      if k !in Keys(r) && j == |r| {
        assert Keys(r')[i] == Keys(r)[i];
      } else {
        assert Keys(r')[i] == Keys(r)[i] && Keys(r')[j] == Keys(r)[j];
      }
    }
  }

  /** Assigning the same property twice is assigning it once. */
  lemma {:induction false} PutPut<V>(r: Record<V>, k: string, v: V, w: V)
    ensures Put(Put(r, k, v), k, w) == Put(r, k, w)
  {
    if r != [] && r[0].0 != k {
      PutPut(r[1..], k, v, w);
    }
  }

  /** Re-assigning the value a property already has changes nothing. */
  lemma {:induction false} PutExisting<V>(r: Record<V>, k: string)
    requires UniqueKeys(r) && k in Keys(r)
    ensures Put(r, k, Get(r, k).value) == r
  {
    if r[0].0 != k {
      assert UniqueKeys(r[1..]) by {
        forall i, j | 0 <= i < j < |r[1..]| ensures r[1..][i].0 != r[1..][j].0 {
          assert r[1..][i] == r[i + 1] && r[1..][j] == r[j + 1];
        }
      }
      PutExisting(r[1..], k);
    }
  }

  /** Removing a property removes exactly that name. */
  lemma {:induction false} KeysRemove<V>(r: Record<V>, k: string)
    ensures forall x :: x in Keys(Remove(r, k)) <==> x in Keys(r) && x != k
  {
    if r != [] {
      KeysRemove(r[1..], k);
      assert Keys(r) == [r[0].0] + Keys(r[1..]);
      if r[0].0 != k {
        assert Keys(Remove(r, k)) == [r[0].0] + Keys(Remove(r[1..], k));
      }
    }
  }

  /** After `delete o[k]`, `k` is absent and every other property reads as before. */
  lemma {:induction false} GetRemove<V>(r: Record<V>, k: string, k': string)
    ensures Get(Remove(r, k), k') == if k' == k then None else Get(r, k')
  {
    if r != [] {
      GetRemove(r[1..], k, k');
    }
  }

  lemma {:induction false} RemoveKeepsUnique<V>(r: Record<V>, k: string)
    requires UniqueKeys(r)
    ensures UniqueKeys(Remove(r, k))
  {
    if r != [] {
      var t := r[1..];
      assert UniqueKeys(t) by {
        forall i, j | 0 <= i < j < |t| ensures t[i].0 != t[j].0 { assert t[i] == r[i + 1] && t[j] == r[j + 1]; }
      }
      RemoveKeepsUnique(t, k);
      if r[0].0 != k {
        KeysRemove(t, k);
        var u := Remove(t, k);
        var r' := [r[0]] + u;
        assert r[0].0 !in Keys(t) by {
          forall i | 0 <= i < |t| ensures Keys(t)[i] != r[0].0 { assert t[i] == r[i + 1]; }
        }
        forall i, j | 0 <= i < j < |r'| ensures r'[i].0 != r'[j].0 {
          if i == 0 { assert r'[j].0 == Keys(u)[j - 1]; }
          else { assert r'[i] == u[i - 1] && r'[j] == u[j - 1]; }
        }
      }
    }
  }

  /** A lookup in two records one after the other finds the first one's member when it has one. */
  lemma {:induction false} GetAppend<V>(a: Record<V>, b: Record<V>, k: string)
    ensures Get(a + b, k) == if k in Keys(a) then Get(a, k) else Get(b, k)
  {
    if a != [] {
      assert (a + b)[0] == a[0] && (a + b)[1..] == a[1..] + b;
      assert Keys(a) == [a[0].0] + Keys(a[1..]);
      GetAppend(a[1..], b, k);
    } else {
      assert a + b == b;
    }
  }

  /** The names of a record without its last member. */
  lemma KeysInit<V>(r: Record<V>)
    requires r != []
    ensures Keys(r[..|r| - 1]) == Keys(r)[..|r| - 1]
  {
  }

  /** Dropping the last member of a record with distinct names keeps them distinct and frees its name. */
  lemma UniqueInit<V>(r: Record<V>)
    requires r != [] && UniqueKeys(r)
    ensures UniqueKeys(r[..|r| - 1])
    ensures r[|r| - 1].0 !in Keys(r[..|r| - 1])
    ensures forall x :: x in Keys(r[..|r| - 1]) ==> x in Keys(r)
  {
    var n := |r|;
    var init := r[..n - 1];
    var ks := Keys(r);
    KeysInit(r);
    assert forall i :: 0 <= i < n - 1 ==> init[i] == r[i];
    assert ks[n - 1] == r[n - 1].0;
    assert forall i :: 0 <= i < n - 1 ==> ks[i] != ks[n - 1];
  }
}
