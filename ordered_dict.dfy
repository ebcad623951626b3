/**
 * The assignment semantics of Python's `collections.OrderedDict` (and of the
 * insertion-ordered built-in `dict`): a dictionary is its entries in insertion
 * order; `d[k] = v` replaces the value of an existing key where it stands and
 * appends a new key at the end.
 */
module OrderedDict {
  import opened Wrappers

  /** The keys of `t`, in order. */
  function Keys<K, V>(t: seq<(K, V)>): (ks: seq<K>)
    ensures |ks| == |t|
    ensures forall i :: 0 <= i < |t| ==> ks[i] == t[i].0
  {
    seq(|t|, i requires 0 <= i < |t| => t[i].0)
  }

  /** No key occurs twice: what every dictionary satisfies. */
  ghost predicate UniqueKeys<K, V>(t: seq<(K, V)>)
  {
    forall i, j :: 0 <= i < j < |t| ==> t[i].0 != t[j].0
  }

  /** The first position at or after `from` holding key `k`, or -1 if there is none. */
  function FindFrom<K(==), V>(t: seq<(K, V)>, k: K, from: nat): (i: int)
    requires from <= |t|
    ensures i == -1 || (from <= i < |t| && t[i].0 == k)
    ensures forall j :: from <= j < |t| && (i < 0 || j < i) ==> t[j].0 != k
    decreases |t| - from
  {
    if from == |t| then -1
    else if t[from].0 == k then from
    else FindFrom(t, k, from + 1)
  }

  /** The position of key `k` in `t`, or -1 if `k` is absent (the lookup behind `d[k]`). */
  function Find<K(==), V>(t: seq<(K, V)>, k: K): (i: int)
    ensures i == -1 || (0 <= i < |t| && t[i].0 == k)
    ensures i < 0 <==> k !in Keys(t)
    ensures forall j :: 0 <= j < |t| && (i < 0 || j < i) ==> t[j].0 != k
  {
    FindFrom(t, k, 0)
  }

  /** `d[k]`: the value stored under `k`, or None where Python raises KeyError. */
  function Get<K(==), V>(t: seq<(K, V)>, k: K): (r: Option<V>)
    ensures r.None? <==> k !in Keys(t)
    ensures r.Some? ==> (k, r.value) in t
  {
    var i := Find(t, k);
    if i < 0 then None else Some(t[i].1)
  }

  /** `d[k] = v`: overwrite the entry of a present key where it stands, or append a new one. */
  function Assign<K(==), V>(t: seq<(K, V)>, k: K, v: V): (r: seq<(K, V)>)
    ensures |t| <= |r| <= |t| + 1
  {
    var i := Find(t, k);
    if i < 0 then t + [(k, v)] else t[i := (k, v)]
  }

  /** The assignments `d[k1] = v1`, `d[k2] = v2`, ... made one after another. */
  function AssignAll<K(==), V>(t: seq<(K, V)>, pairs: seq<(K, V)>): (r: seq<(K, V)>)
    decreases |pairs|
  {
    if pairs == [] then t
    else AssignAll(Assign(t, pairs[0].0, pairs[0].1), pairs[1..])
  }

  /** Assignment never reorders the keys; a new key goes last. */
  lemma KeysAfterAssign<K, V>(t: seq<(K, V)>, k: K, v: V)
    ensures Keys(Assign(t, k, v)) == if k in Keys(t) then Keys(t) else Keys(t) + [k]
  {
  }

  /**
   * Assigning to a key whose first occurrence is at `i` overwrites entry `i`
   * and leaves every other entry as it was.
   */
  lemma AssignInPlace<K, V>(t: seq<(K, V)>, i: nat, k: K, v: V)
    requires i < |t| && t[i].0 == k
    requires forall j :: 0 <= j < i ==> t[j].0 != k
    ensures Assign(t, k, v) == t[i := (k, v)]
  {
  }

  /**
   * In a dictionary, assigning to the key of entry `i` replaces that entry,
   * and the result is again a dictionary.
   */
  lemma AssignExisting<K, V>(t: seq<(K, V)>, i: nat, k: K, v: V)
    requires UniqueKeys(t) && i < |t| && t[i].0 == k
    ensures Assign(t, k, v) == t[i := (k, v)]
    ensures UniqueKeys(t[i := (k, v)])
  {
  }

  /** Assignment keeps a dictionary's keys distinct. */
  lemma AssignKeepsUnique<K, V>(t: seq<(K, V)>, k: K, v: V)
    requires UniqueKeys(t)
    ensures UniqueKeys(Assign(t, k, v))
  {
  }

  /** In a dictionary, the key of entry `i` is found at `i`, and its value read from there. */
  lemma FindInDictionary<K, V>(t: seq<(K, V)>, i: nat)
    requires UniqueKeys(t) && i < |t|
    ensures Find(t, t[i].0) == i
    ensures Get(t, t[i].0) == Some(t[i].1)
  {
  }

  /** Whether keys are distinct depends on the keys alone. */
  lemma SameKeysUnique<K, V>(t: seq<(K, V)>, u: seq<(K, V)>)
    requires Keys(t) == Keys(u) && UniqueKeys(t)
    ensures UniqueKeys(u)
  {
  }

  /** Entries with the same keys in the same order locate every key at the same place. */
  lemma FindSameKeys<K, V>(t: seq<(K, V)>, u: seq<(K, V)>, k: K)
    requires |t| == |u|
    requires forall j :: 0 <= j < |t| ==> t[j].0 == u[j].0
    ensures Find(t, k) == Find(u, k)
  {
  }

  /** Reading back: the assigned key yields the new value, every other key what it had. */
  lemma GetAfterAssign<K, V>(t: seq<(K, V)>, k: K, v: V, k': K)
    ensures Get(Assign(t, k, v), k') == if k' == k then Some(v) else Get(t, k')
  {
    var r := Assign(t, k, v);
    var f := Find(t, k);
    if f < 0 {
      assert r[|t|].0 == k && forall j :: 0 <= j < |t| ==> r[j] == t[j];
      if k' != k {
        var g := Find(t, k');
        if g < 0 {
          assert Find(r, k') < 0 by {
            assert forall j :: 0 <= j < |r| ==> r[j].0 != k' by {
              forall j | 0 <= j < |r|
                ensures r[j].0 != k'
              {
                if j < |t| {
                  assert r[j] == t[j];
                }
              }
            }
          }
        } else {
          assert r[g] == t[g];
          assert Find(r, k') == g;
        }
      }
    } else {
      FindSameKeys(t, r, k');
      if k' == k {
        assert Find(r, k') == f;
      } else {
        var g := Find(t, k');
        if g >= 0 {
          assert r[g] == t[g];
        }
      }
    }
  }

  /** The later of two assignments to the same key wins, in the slot of the first. */
  lemma AssignTwice<K, V>(t: seq<(K, V)>, k: K, v1: V, v2: V)
    ensures Assign(Assign(t, k, v1), k, v2) == Assign(t, k, v2)
  {
    var r := Assign(t, k, v1);
    var f := Find(t, k);
    if f < 0 {
      assert r[|t|].0 == k && forall j :: 0 <= j < |t| ==> r[j] == t[j];
    } else {
      FindSameKeys(t, r, k);
    }
  }

  /**
   * Two assignments to different keys commute as long as one of the keys is
   * already present (two new keys are appended in the order they come).
   */
  lemma AssignCommutes<K, V>(t: seq<(K, V)>, k1: K, v1: V, k2: K, v2: V)
    requires k1 != k2
    requires k1 in Keys(t) || k2 in Keys(t)
    ensures Assign(Assign(t, k1, v1), k2, v2) == Assign(Assign(t, k2, v2), k1, v1)
  {
  }

  /** Assigning an absent key appends it, and the keys grow by exactly that key. */
  lemma AssignFresh<K, V>(t: seq<(K, V)>, k: K, v: V)
    requires k !in Keys(t)
    ensures Assign(t, k, v) == t + [(k, v)]
    ensures Keys(t + [(k, v)]) == Keys(t) + [k]
  {
    KeysAfterAssign(t, k, v);
  }

  /** Dropping the first entry keeps the keys distinct. */
  lemma UniqueKeysTail<K, V>(t: seq<(K, V)>)
    requires UniqueKeys(t) && t != []
    ensures UniqueKeys(t[1..])
  {
    forall i, j | 0 <= i < j < |t| - 1
      ensures t[1..][i].0 != t[1..][j].0
    {
      assert t[1..][i] == t[i + 1] && t[1..][j] == t[j + 1];
    }
  }

  /** After the first of distinct fresh keys is appended, the remaining ones are still fresh. */
  lemma FreshTail<K, V>(t: seq<(K, V)>, pairs: seq<(K, V)>)
    requires UniqueKeys(pairs) && pairs != []
    requires forall i :: 0 <= i < |pairs| ==> pairs[i].0 !in Keys(t)
    ensures forall i :: 0 <= i < |pairs| - 1 ==> pairs[1..][i].0 !in Keys(t + [pairs[0]])
  {
    assert Keys(t + [pairs[0]]) == Keys(t) + [pairs[0].0];
    forall i | 0 <= i < |pairs| - 1
      ensures pairs[1..][i].0 !in Keys(t + [pairs[0]])
    {
      assert pairs[1..][i] == pairs[i + 1];
      assert pairs[0].0 != pairs[i + 1].0;
    }
  }

  /**
   * Assigning distinct keys none of which is present appends them in the order
   * they are assigned.
   */
  lemma {:induction false} AssignAllFresh<K, V>(t: seq<(K, V)>, pairs: seq<(K, V)>)
    requires UniqueKeys(pairs)
    requires forall i :: 0 <= i < |pairs| ==> pairs[i].0 !in Keys(t)
    ensures AssignAll(t, pairs) == t + pairs
    decreases |pairs|
  {
    if pairs != [] {
      AssignFresh(t, pairs[0].0, pairs[0].1);
      var t' := t + [pairs[0]];
      var rest := pairs[1..];
      assert AssignAll(t, pairs) == AssignAll(t', rest);
      FreshTail(t, pairs);
      UniqueKeysTail(pairs);
      AssignAllFresh(t', rest);
      assert t' + rest == t + pairs;
    }
  }
}
