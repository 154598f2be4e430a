/** `TreeMap<String, V>` as the list of its entries in ascending key order:
    `put` inserts or replaces, `get` finds, `values()` lists in key order. */
module TreeMaps {
  import opened Wrappers
  import opened Strings

  type Entries<V> = seq<(string, V)>

  /** The keys strictly ascend under `compareTo`. */
  predicate Sorted<V>(es: Entries<V>)
  {
    forall i, j :: 0 <= i < j < |es| ==> Less(es[i].0, es[j].0)
  }

  /** Every key lies strictly above `lo`. */
  predicate Above<V>(lo: string, es: Entries<V>)
  {
    forall i :: 0 <= i < |es| ==> Less(lo, es[i].0)
  }

  predicate HasKey<V>(es: Entries<V>, k: string)
  {
    exists i :: 0 <= i < |es| && es[i].0 == k
  }

  /** `map.get(k)`: the value stored under `k`, or `None` for `null`. */
  function Get<V>(es: Entries<V>, k: string): Option<V>
  {
    if es == [] then None
    else if es[0].0 == k then Some(es[0].1)
    else Get(es[1..], k)
  }

  /** `map.put(k, v)`: replaces the entry with key `k`, or inserts one
      before the first larger key. */
  function Put<V>(es: Entries<V>, k: string, v: V): Entries<V>
  {
    if es == [] then [(k, v)]
    else if es[0].0 == k then [(k, v)] + es[1..]
    else if Less(k, es[0].0) then [(k, v)] + es
    else [es[0]] + Put(es[1..], k, v)
  }

  /** `map.values()`: the values in ascending key order. */
  function Values<V>(es: Entries<V>): seq<V>
  {
    seq(|es|, i requires 0 <= i < |es| => es[i].1)
  }

  lemma {:induction false} GetFound<V>(es: Entries<V>, k: string)
    ensures Get(es, k).Some? <==> HasKey(es, k)
    ensures Get(es, k).Some? ==> (k, Get(es, k).value) in es
    decreases |es|
  {
    if es != [] && es[0].0 != k {
      GetFound(es[1..], k);
      if HasKey(es, k) {
        var i :| 0 <= i < |es| && es[i].0 == k;
        assert es[1..][i - 1].0 == k;
      }
      if HasKey(es[1..], k) {
        var i :| 0 <= i < |es[1..]| && es[1..][i].0 == k;
        assert es[i + 1].0 == k;
      }
    }
  }

  /** In a sorted map an entry is found exactly when it is stored. */
  lemma {:induction false} GetSorted<V>(es: Entries<V>, k: string, v: V)
    requires Sorted(es)
    ensures Get(es, k) == Some(v) <==> (k, v) in es
    decreases |es|
  {
    if es != [] {
      if es[0].0 == k {
        if (k, v) in es {
          var i :| 0 <= i < |es| && es[i] == (k, v);
          if i > 0 {
            LessIrreflexive(k);
          }
        }
      } else {
        GetSorted(es[1..], k, v);
        assert (k, v) in es <==> (k, v) in es[1..] by {
          assert es == [es[0]] + es[1..];
        }
      }
    }
  }

  lemma {:induction false} PutGetSame<V>(es: Entries<V>, k: string, v: V)
    ensures Get(Put(es, k, v), k) == Some(v)
    decreases |es|
  {
    if es != [] && es[0].0 != k && !Less(k, es[0].0) {
      PutGetSame(es[1..], k, v);
    }
  }

  lemma {:induction false} PutGetOther<V>(es: Entries<V>, k: string, v: V, k': string)
    requires k' != k
    ensures Get(Put(es, k, v), k') == Get(es, k')
    decreases |es|
  {
    if es != [] && es[0].0 != k && !Less(k, es[0].0) {
      PutGetOther(es[1..], k, v, k');
    }
  }

  lemma {:induction false} PutAbove<V>(es: Entries<V>, k: string, v: V, lo: string)
    requires Above(lo, es) && Less(lo, k)
    ensures Above(lo, Put(es, k, v))
    decreases |es|
  {
    if es != [] && es[0].0 != k && !Less(k, es[0].0) {
      PutAbove(es[1..], k, v, lo);
      var r := Put(es, k, v);
      forall i | 0 <= i < |r| ensures Less(lo, r[i].0) {
        if i > 0 { assert r[i] == Put(es[1..], k, v)[i - 1]; }
      }
    }
  }

  /** `put` of a key below every key puts it first. */
  lemma PutFront<V>(es: Entries<V>, k: string, v: V)
    requires es == [] || Less(k, es[0].0)
    ensures Put(es, k, v) == [(k, v)] + es
  {
    if es != [] {
      LessIrreflexive(k);
    }
  }

  /** `put` of a key above the first key keeps that entry first. */
  lemma PutPast<V>(es: Entries<V>, k: string, v: V)
    requires es != [] && Less(es[0].0, k)
    ensures Put(es, k, v) == [es[0]] + Put(es[1..], k, v)
  {
    LessAsymmetric(es[0].0, k);
    LessIrreflexive(k);
  }

  /** A new key that falls between positions `i - 1` and `i` of a sorted map
      is inserted exactly there, leaving every other entry in place. */
  lemma {:induction false} PutInsert<V>(es: Entries<V>, k: string, v: V, i: nat)
    requires Sorted(es) && i <= |es|
    requires i == 0 || Less(es[i - 1].0, k)
    requires i == |es| || Less(k, es[i].0)
    ensures Put(es, k, v) == es[..i] + [(k, v)] + es[i..]
    decreases i
  {
    if i == 0 {
      if es != [] {
        LessIrreflexive(k);
      }
    } else {
      if i > 1 {
        LessTransitive(es[0].0, es[i - 1].0, k);
      }
      LessAsymmetric(es[0].0, k);
      LessIrreflexive(k);
      PutInsert(es[1..], k, v, i - 1);
      assert es[..i] == [es[0]] + es[1..][..i - 1];
      assert es[i..] == es[1..][i - 1..];
    }
  }

  /** `put` keeps the keys in ascending order. */
  lemma {:induction false} PutSorted<V>(es: Entries<V>, k: string, v: V)
    requires Sorted(es)
    ensures Sorted(Put(es, k, v))
    decreases |es|
  {
    if es == [] {
    } else if es[0].0 == k {
    } else if Less(k, es[0].0) {
      var r := Put(es, k, v);
      forall i, j | 0 <= i < j < |r| ensures Less(r[i].0, r[j].0) {
        if i == 0 && j > 1 {
          LessTransitive(k, es[0].0, es[j - 1].0);
        }
      }
    } else {
      LessTotal(k, es[0].0);
      var rest := es[1..];
      PutSorted(rest, k, v);
      assert Above(es[0].0, rest);
      PutAbove(rest, k, v, es[0].0);
      var r := Put(es, k, v);
      assert r == [es[0]] + Put(rest, k, v);
      forall i, j | 0 <= i < j < |r| ensures Less(r[i].0, r[j].0) {
        if i == 0 {
          assert r[j] == Put(rest, k, v)[j - 1];
        } else {
          assert r[i] == Put(rest, k, v)[i - 1] && r[j] == Put(rest, k, v)[j - 1];
        }
      }
    }
  }
}
