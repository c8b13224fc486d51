/**
 * String-keyed dictionaries that remember insertion order, as JavaScript
 * objects (for non-numeric keys) and `Map`s do. A key that is written again
 * keeps its place; a new key goes to the end.
 */
module Dicts {
  import opened Wrappers

  type Dict<V> = seq<(string, V)>

  function Keys<V>(d: Dict<V>): (ks: seq<string>)
    ensures |ks| == |d|
    ensures forall i :: 0 <= i < |d| ==> ks[i] == d[i].0
  {
    seq(|d|, i requires 0 <= i < |d| => d[i].0)
  }

  /** Every key occurs once, which holds of every object and `Map`. */
  predicate KeysDistinct<V>(d: Dict<V>)
  {
    forall i, j :: 0 <= i < j < |d| ==> d[i].0 != d[j].0
  }

  /** The position of the first entry with key `k`, or -1. */
  function IndexOf<V>(d: Dict<V>, k: string): (i: int)
    ensures -1 <= i < |d|
    ensures 0 <= i ==> d[i].0 == k
    decreases |d|
  {
    if |d| == 0 then -1
    else if d[|d| - 1].0 == k && IndexOf(d[..|d| - 1], k) < 0 then |d| - 1
    else IndexOf(d[..|d| - 1], k)
  }

  /** No entry before the one `IndexOf` finds has key `k`, and none at all when it finds none. */
  lemma {:induction false} IndexOfFirst<V>(d: Dict<V>, k: string)
    ensures forall j :: 0 <= j < |d| && (IndexOf(d, k) < 0 || j < IndexOf(d, k)) ==> d[j].0 != k
    decreases |d|
  {
    if |d| > 0 {
      var front := d[..|d| - 1];
      IndexOfFirst(front, k);
      assert forall j :: 0 <= j < |front| ==> front[j] == d[j];
    }
  }

  /** `d[k]`, with `None` for a key that is not there. */
  function Get<V>(d: Dict<V>, k: string): (r: Option<V>)
    ensures r.None? <==> k !in Keys(d)
    ensures r.Some? ==> (k, r.value) in d
  {
    IndexOfFirst(d, k);
    var i := IndexOf(d, k);
    if i < 0 then None else Some(d[i].1)
  }

  /** `d[k] = v`: overwrite in place when `k` is present, otherwise append. */
  function Put<V>(d: Dict<V>, k: string, v: V): Dict<V>
  {
    var i := IndexOf(d, k);
    if i < 0 then d + [(k, v)] else d[i := (k, v)]
  }

  /** A written key keeps its place when present and goes last otherwise. */
  lemma PutKeys<V>(d: Dict<V>, k: string, v: V)
    ensures Keys(Put(d, k, v)) == if k in Keys(d) then Keys(d) else Keys(d) + [k]
  {
    IndexOfFirst(d, k);
  }

  /** After `d[k] = v`, reading `k` gives `v` and every other key reads as before. */
  lemma GetPut<V>(d: Dict<V>, k: string, v: V, k': string)
    ensures Get(Put(d, k, v), k') == if k' == k then Some(v) else Get(d, k')
  {
    var i := IndexOf(d, k);
    var r := Put(d, k, v);
    if i < 0 {
      assert r[..|d|] == d;
      if k' != k {
        IndexOfExtend(d, k, v, k');
      }
    } else {
      IndexOfUpdate(d, i, k, v, k');
    }
  }

  lemma IndexOfExtend<V>(d: Dict<V>, k: string, v: V, k': string)
    requires k' != k
    ensures IndexOf(d + [(k, v)], k') == IndexOf(d, k')
  {
    assert (d + [(k, v)])[..|d|] == d;
  }

  lemma {:induction false} IndexOfUpdate<V>(d: Dict<V>, i: nat, k: string, v: V, k': string)
    requires i < |d| && d[i].0 == k
    ensures IndexOf(d[i := (k, v)], k') == IndexOf(d, k')
    decreases |d|
  {
    var n := |d| - 1;
    var r := d[i := (k, v)];
    if i < n {
      assert r[..n] == d[..n][i := (k, v)];
      IndexOfUpdate(d[..n], i, k, v, k');
    } else {
      assert r[..n] == d[..n];
    }
  }

  /** Writing a key never introduces a duplicate key. */
  lemma PutKeepsDistinct<V>(d: Dict<V>, k: string, v: V)
    requires KeysDistinct(d)
    ensures KeysDistinct(Put(d, k, v))
  {
    var r := Put(d, k, v);
    PutKeys(d, k, v);
    forall i, j | 0 <= i < j < |r| ensures r[i].0 != r[j].0 {
      assert Keys(r)[i] == r[i].0 && Keys(r)[j] == r[j].0;
      if IndexOf(d, k) < 0 && j == |d| {
        assert Keys(d)[i] == d[i].0;
      } else {
        assert Keys(d)[i] == d[i].0 && Keys(d)[j] == d[j].0;
      }
    }
  }

  /** `{ ...a, ...b }`: the entries of `b` written over `a`, one by one. */
  function Merge<V>(a: Dict<V>, b: Dict<V>): Dict<V>
    decreases |b|
  {
    if |b| == 0 then a else Merge(Put(a, b[0].0, b[0].1), b[1..])
  }

  /**
   * A merge keeps every key of `a` in place, adds the keys of `b` and no
   * other, and keeps keys distinct.
   */
  lemma {:induction false} MergeKeys<V>(a: Dict<V>, b: Dict<V>)
    ensures var r := Merge(a, b);
      && |Keys(r)| >= |Keys(a)| && Keys(r)[..|Keys(a)|] == Keys(a)
      && (forall k :: k in Keys(r) <==> k in Keys(a) || k in Keys(b))
      && (KeysDistinct(a) ==> KeysDistinct(r))
    decreases |b|
  {
    if |b| > 0 {
      var (k, v) := b[0];
      var next := Put(a, k, v);
      var rest := b[1..];
      assert Keys(b) == [k] + Keys(rest);
      MergeKeys(next, rest);
      PutKeys(a, k, v);
      if KeysDistinct(a) {
        PutKeepsDistinct(a, k, v);
      }
      var r := Merge(a, b);
      assert r == Merge(next, rest);
      assert Keys(next)[..|Keys(a)|] == Keys(a);
      assert Keys(r)[..|Keys(a)|] == Keys(r)[..|Keys(next)|][..|Keys(a)|];
      forall key
        ensures key in Keys(r) <==> key in Keys(a) || key in Keys(b)
      {
        assert key in Keys(next) <==> key in Keys(a) || key == k;
      }
    }
  }

  /** With distinct keys in `b`, a merge reads `b`'s value for every key of `b` and `a`'s for every other. */
  lemma {:induction false} MergeGet<V>(a: Dict<V>, b: Dict<V>, k': string)
    requires KeysDistinct(b)
    ensures Get(Merge(a, b), k') == if k' in Keys(b) then Get(b, k') else Get(a, k')
    decreases |b|
  {
    if |b| > 0 {
      var (k, v) := b[0];
      var next := Put(a, k, v);
      var rest := b[1..];
      assert Keys(b) == [k] + Keys(rest);
      assert KeysDistinct(rest) && k !in Keys(rest) by {
        forall i | 0 <= i < |rest| ensures rest[i].0 != k {
          assert b[i + 1] == rest[i];
        }
      }
      MergeGet(next, rest, k');
      GetPut(a, k, v, k');
      if k' != k && k' in Keys(rest) {
        IndexOfBehindHead(b, k');
      } else if k' == k {
        IndexOfFirst(b, k);
        assert IndexOf(b, k) == 0;
      }
    }
  }

  lemma {:induction false} IndexOfBehindHead<V>(d: Dict<V>, k: string)
    requires |d| > 0 && d[0].0 != k
    ensures IndexOf(d, k) == if IndexOf(d[1..], k) < 0 then -1 else IndexOf(d[1..], k) + 1
  {
    var i := IndexOf(d, k);
    var j := IndexOf(d[1..], k);
    IndexOfFirst(d, k);
    IndexOfFirst(d[1..], k);
    if i >= 0 {
      assert d[1..][i - 1] == d[i];
    }
  }

  /** In a dictionary with distinct keys, the entry at any position is what its key reads. */
  lemma GetAt<V>(d: Dict<V>, i: nat)
    requires KeysDistinct(d) && i < |d|
    ensures Get(d, d[i].0) == Some(d[i].1)
  {
  }

  /** Writing the same key twice keeps only the second value. */
  lemma PutPut<V>(d: Dict<V>, k: string, v: V, w: V)
    ensures Put(Put(d, k, v), k, w) == Put(d, k, w)
  {
    var i := IndexOf(d, k);
    if i < 0 {
      assert (d + [(k, v)])[..|d|] == d;
      assert IndexOf(d + [(k, v)], k) == |d|;
    } else {
      IndexOfUpdate(d, i, k, v, k);
    }
  }

  /** Merging one more entry is writing it over the earlier merge. */
  lemma {:induction false} MergeSnoc<V>(a: Dict<V>, b: Dict<V>, k: string, v: V)
    ensures Merge(a, b + [(k, v)]) == Put(Merge(a, b), k, v)
    decreases |b|
  {
    if |b| > 0 {
      assert (b + [(k, v)])[1..] == b[1..] + [(k, v)];
      MergeSnoc(Put(a, b[0].0, b[0].1), b[1..], k, v);
    } else {
      assert b + [(k, v)] == [(k, v)];
    }
  }

  /** Merging a single entry is writing it. */
  lemma MergeOne<V>(a: Dict<V>, k: string, v: V)
    ensures Merge(a, [(k, v)]) == Put(a, k, v)
  {
    assert [(k, v)][1..] == [];
  }

  /** Merging `b + c` is merging `b`, then `c`. */
  lemma {:induction false} MergeAppend<V>(a: Dict<V>, b: Dict<V>, c: Dict<V>)
    ensures Merge(a, b + c) == Merge(Merge(a, b), c)
    decreases |b|
  {
    if |b| > 0 {
      assert (b + c)[1..] == b[1..] + c;
      MergeAppend(Put(a, b[0].0, b[0].1), b[1..], c);
    } else {
      assert b + c == c;
    }
  }

  /** The value of the last entry of `b` with key `k`. */
  function LastGet<V>(b: Dict<V>, k: string): (r: Option<V>)
    ensures r.None? <==> k !in Keys(b)
  {
    if |b| == 0 then None
    else if b[|b| - 1].0 == k then Some(b[|b| - 1].1)
    else
      assert Keys(b) == Keys(b[..|b| - 1]) + [b[|b| - 1].0];
      LastGet(b[..|b| - 1], k)
  }

  /**
   * Merging entries one by one, the last entry for a key wins, even when
   * `b` repeats keys; keys `b` does not mention read as in `a`.
   */
  lemma {:induction false} MergeLastWins<V>(a: Dict<V>, b: Dict<V>, k: string)
    ensures Get(Merge(a, b), k) == if k in Keys(b) then LastGet(b, k) else Get(a, k)
    decreases |b|
  {
    if |b| > 0 {
      var n := |b| - 1;
      var front := b[..n];
      assert front + [b[n]] == b;
      assert Keys(b) == Keys(front) + [b[n].0];
      MergeSnoc(a, front, b[n].0, b[n].1);
      GetPut(Merge(a, front), b[n].0, b[n].1, k);
      MergeLastWins(a, front, k);
    }
  }

  /** The entries of `d` whose key passes `keep`, in order. */
  function Filter<V>(d: Dict<V>, keep: string -> bool): (r: Dict<V>)
    ensures forall e :: e in r ==> e in d && keep(e.0)
    ensures forall e :: e in d && keep(e.0) ==> e in r
  {
    if |d| == 0 then []
    else if keep(d[0].0) then [d[0]] + Filter(d[1..], keep)
    else Filter(d[1..], keep)
  }

  /** With distinct keys, `k` reads `v` exactly when the entry `(k, v)` is present. */
  lemma GetDistinct<V>(d: Dict<V>, k: string, v: V)
    requires KeysDistinct(d)
    ensures Get(d, k) == Some(v) <==> (k, v) in d
  {
    if (k, v) in d {
      var i :| 0 <= i < |d| && d[i] == (k, v);
      GetAt(d, i);
    }
  }

  /** `map.delete(k)`: the entry with key `k` taken out, the others kept in order. */
  function Remove<V>(d: Dict<V>, k: string): (r: Dict<V>)
    ensures k !in Keys(d) ==> r == d
    ensures k in Keys(d) ==> |r| == |d| - 1
  {
    IndexOfFirst(d, k);
    var i := IndexOf(d, k);
    if i < 0 then d else d[..i] + d[i + 1..]
  }

  /** A delete keeps the keys distinct and keeps exactly the entries with another key. */
  lemma RemoveEntries<V>(d: Dict<V>, k: string)
    requires KeysDistinct(d)
    ensures KeysDistinct(Remove(d, k))
    ensures forall e :: e in Remove(d, k) <==> e in d && e.0 != k
  {
    var r := Remove(d, k);
    var i := IndexOf(d, k);
    IndexOfFirst(d, k);
    if i >= 0 {
      forall a, b | 0 <= a < b < |r| ensures r[a].0 != r[b].0 {
        var a' := if a < i then a else a + 1;
        var b' := if b < i then b else b + 1;
        assert r[a] == d[a'] && r[b] == d[b'];
      }
      forall e ensures e in r <==> e in d && e.0 != k {
        if e in d && e.0 != k {
          var j :| 0 <= j < |d| && d[j] == e;
          if j < i { assert r[j] == e; } else { assert r[j - 1] == e; }
        }
        if e in r {
          var j :| 0 <= j < |r| && r[j] == e;
          var j' := if j < i then j else j + 1;
          assert d[j'] == e;
        }
      }
    } else {
      forall e | e in d ensures e.0 != k {
        var j :| 0 <= j < |d| && d[j] == e;
      }
    }
  }

  /**
   * After a delete, `k` is absent, every other key reads as before, and the
   * keys stay distinct.
   */
  lemma GetRemove<V>(d: Dict<V>, k: string, k': string)
    requires KeysDistinct(d)
    ensures KeysDistinct(Remove(d, k))
    ensures Get(Remove(d, k), k') == if k' == k then None else Get(d, k')
  {
    var r := Remove(d, k);
    RemoveEntries(d, k);
    if k' != k {
      match Get(d, k')
      case None =>
        if Get(r, k').Some? {
          assert (k', Get(r, k').value) in r;
          GetDistinct(d, k', Get(r, k').value);
        }
      case Some(v) =>
        GetDistinct(d, k', v);
        GetDistinct(r, k', v);
    }
  }

  /** With distinct keys, deleting the first key drops the first entry. */
  lemma RemoveFirstKey<V>(d: Dict<V>)
    requires KeysDistinct(d) && |d| > 0
    ensures Remove(d, d[0].0) == d[1..]
  {
    IndexOfFirst(d, d[0].0);
    assert IndexOf(d, d[0].0) == 0;
  }
}
