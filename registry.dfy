/**
 * The bots' constant dictionaries (`THEMES`, `LANGUAGES`, `FONTS`, `BACKGROUND_STYLES`) as
 * ordered tables of (id, entry): Python dictionaries keep insertion order, and the keyboards
 * list their items in that order.
 */
module Registry {
  import opened Wrappers

  type Table<V> = seq<(string, V)>

  function Keys<V>(t: Table<V>): (ks: seq<string>)
    ensures |ks| == |t| && forall k :: 0 <= k < |t| ==> ks[k] == t[k].0
  {
    seq(|t|, k requires 0 <= k < |t| => t[k].0)
  }

  /** No id is listed twice, as in a dictionary literal. */
  predicate Distinct<V>(t: Table<V>) {
    forall i, j :: 0 <= i < j < |t| ==> t[i].0 != t[j].0
  }

  /** No id of `a` is an id of `b`. */
  predicate Apart<V>(a: Table<V>, b: Table<V>) {
    forall i, j :: 0 <= i < |a| && 0 <= j < |b| ==> a[i].0 != b[j].0
  }

  /** Two tables without repeated ids and without a common id join into one without repeats. */
  lemma DistinctConcat<V>(a: Table<V>, b: Table<V>)
    requires Distinct(a) && Distinct(b) && Apart(a, b)
    ensures Distinct(a + b)
  {
    forall i, j | 0 <= i < j < |a + b|
      ensures (a + b)[i].0 != (a + b)[j].0
    {
      if i >= |a| {
        assert (a + b)[i] == b[i - |a|];
      }
      if j >= |a| {
        assert (a + b)[j] == b[j - |a|];
      }
    }
  }

  /** `d.get(key)`: the entry stored under `key`, `None` when there is none. */
  function Lookup<V>(t: Table<V>, key: string): (r: Option<V>)
    ensures r.Some? <==> key in Keys(t)
    ensures r.Some? ==> (key, r.value) in t
    decreases |t|
  {
    if |t| == 0 then None
    else if t[0].0 == key then Some(t[0].1)
    else
      assert Keys(t) == [t[0].0] + Keys(t[1..]);
      Lookup(t[1..], key)
  }

  /** In a table without repeated ids, the entry at position `k` is the one looked up by its id. */
  lemma {:induction false} LookupAt<V>(t: Table<V>, k: nat)
    requires Distinct(t) && k < |t|
    ensures Lookup(t, t[k].0) == Some(t[k].1)
    decreases k
  {
    if k > 0 {
      assert t[0].0 != t[k].0;
      assert Distinct(t[1..]) by {
        forall i, j | 0 <= i < j < |t[1..]| ensures t[1..][i].0 != t[1..][j].0 {
          assert t[i + 1].0 != t[j + 1].0;
        }
      }
      LookupAt(t[1..], k - 1);
    }
  }
}
