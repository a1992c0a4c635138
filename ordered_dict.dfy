/**
 * Python's insertion-ordered `dict`: a sequence of (key, value) pairs. Assigning to a key
 * that is already present replaces its value in place and keeps its position; a new key
 * goes to the end.
 */
module OrderedDict {
  import opened Wrappers

  type ODict<K, V> = seq<(K, V)>

  /** `list(d.keys())`. */
  function Keys<K, V>(d: ODict<K, V>): seq<K> {
    seq(|d|, i requires 0 <= i < |d| => d[i].0)
  }

  /** No key occurs twice. */
  predicate Unique<K(==)>(ks: seq<K>) {
    forall i, j | 0 <= i < j < |ks| :: ks[i] != ks[j]
  }

  /** `d.get(k)`, with `None` standing for a missing key. */
  function Get<K(==), V>(d: ODict<K, V>, k: K): (r: Option<V>)
    ensures r.None? <==> k !in Keys(d)
    ensures r.Some? ==> exists i | 0 <= i < |d| :: d[i] == (k, r.value)
  {
    if d == [] then None
    else if d[0].0 == k then assert d[0] == (k, d[0].1) && Keys(d)[0] == k; Some(d[0].1)
    else
      var r := Get(d[1..], k);
      assert Keys(d) == [d[0].0] + Keys(d[1..]);
      assert r.Some? ==> exists i | 1 <= i < |d| :: d[i] == (k, r.value) by {
        if r.Some? {
          var i :| 0 <= i < |d[1..]| && d[1..][i] == (k, r.value);
          assert d[i + 1] == (k, r.value);
        }
      }
      r
  }

  /** `d[k] = v`. */
  function Put<K(==), V>(d: ODict<K, V>, k: K, v: V): ODict<K, V> {
    if d == [] then [(k, v)]
    else if d[0].0 == k then [(k, v)] + d[1..]
    else [d[0]] + Put(d[1..], k, v)
  }

  /** An assignment keeps the key order and appends a key it has not seen. */
  lemma {:induction false} PutKeys<K, V>(d: ODict<K, V>, k: K, v: V)
    ensures Keys(Put(d, k, v)) == if k in Keys(d) then Keys(d) else Keys(d) + [k]
  {
    if d != [] {
      assert Keys(d) == [d[0].0] + Keys(d[1..]);
      if d[0].0 == k {
        assert Keys(Put(d, k, v)) == [k] + Keys(d[1..]);
      } else {
        PutKeys(d[1..], k, v);
        assert Keys(Put(d, k, v)) == [d[0].0] + Keys(Put(d[1..], k, v));
      }
    }
  }

  /** After `d[k] = v`, `k` reads `v` and every other key reads what it read before. */
  lemma {:induction false} PutGet<K, V>(d: ODict<K, V>, k: K, v: V, j: K)
    ensures Get(Put(d, k, v), j) == if j == k then Some(v) else Get(d, j)
  {
    if d != [] && d[0].0 != k {
      PutGet(d[1..], k, v, j);
      assert Put(d, k, v)[1..] == Put(d[1..], k, v);
    } else if d != [] {
      assert Put(d, k, v)[1..] == d[1..];
    }
  }

  /** `dict(es)`: the dictionary built by assigning the pairs of `es` in order. */
  function PutAll<K(==), V>(es: seq<(K, V)>): ODict<K, V> {
    if es == [] then [] else
      var last := es[|es| - 1];
      Put(PutAll(es[..|es| - 1]), last.0, last.1)
  }

  /** The keys of `ks` in first-seen order, each once. */
  function Dedup<K(==)>(ks: seq<K>): (r: seq<K>)
    ensures forall i | 0 <= i < |r| :: r[i] in ks
    ensures forall i | 0 <= i < |ks| :: ks[i] in r
    ensures Unique(r)
  {
    if ks == [] then [] else
      var init := ks[..|ks| - 1];
      var p := Dedup(init);
      var k := ks[|ks| - 1];
      assert forall i | 0 <= i < |ks| - 1 :: ks[i] == init[i];
      if k in p then p else p + [k]
  }

  /** The first key of `ks` leads its deduplication. */
  lemma {:induction false} DedupHead<K>(ks: seq<K>)
    requires ks != []
    ensures Dedup(ks) != [] && Dedup(ks)[0] == ks[0]
  {
    if |ks| > 1 {
      DedupHead(ks[..|ks| - 1]);
    }
  }

  /** The value the last pair for `k` in `es` assigns, if any. */
  function LastValue<K(==), V>(es: seq<(K, V)>, k: K): Option<V> {
    if es == [] then None
    else if es[|es| - 1].0 == k then Some(es[|es| - 1].1)
    else LastValue(es[..|es| - 1], k)
  }

  lemma KeysSnoc<K, V>(es: seq<(K, V)>)
    requires es != []
    ensures Keys(es) == Keys(es[..|es| - 1]) + [es[|es| - 1].0]
  {
  }

  lemma DedupSnoc<K>(ks: seq<K>, k: K)
    ensures Dedup(ks + [k]) == if k in Dedup(ks) then Dedup(ks) else Dedup(ks) + [k]
  {
    assert (ks + [k])[..|ks|] == ks;
  }

  /** `dict(es)` has the keys of `es` in first-seen order, each once. */
  lemma {:induction false} PutAllKeys<K, V>(es: seq<(K, V)>)
    ensures Keys(PutAll(es)) == Dedup(Keys(es))
  {
    if es != [] {
      var init, last := es[..|es| - 1], es[|es| - 1];
      PutAllKeys(init);
      PutKeys(PutAll(init), last.0, last.1);
      KeysSnoc(es);
      DedupSnoc(Keys(init), last.0);
    }
  }

  /** In `dict(es)` a key reads the value of its last pair: later assignments win. */
  lemma {:induction false} PutAllGet<K, V>(es: seq<(K, V)>, k: K)
    ensures Get(PutAll(es), k) == LastValue(es, k)
  {
    if es != [] {
      var init, last := es[..|es| - 1], es[|es| - 1];
      PutAllGet(init, k);
      PutGet(PutAll(init), last.0, last.1, k);
    }
  }

  /** `d.setdefault(k, []).append(v)`: add `v` to the end of the list held under `k`. */
  function Append<K(==), V>(d: ODict<K, seq<V>>, k: K, v: V): ODict<K, seq<V>> {
    match Get(d, k)
    case None => Put(d, k, [v])
    case Some(vs) => Put(d, k, vs + [v])
  }

  /** The pairs of `es` grouped by key: keys in first-seen order, each with its values in order. */
  function GroupPairs<K(==), V>(es: seq<(K, V)>): ODict<K, seq<V>> {
    if es == [] then [] else
      var last := es[|es| - 1];
      Append(GroupPairs(es[..|es| - 1]), last.0, last.1)
  }

  /** The values of the pairs in `es` whose key is `k`, in order. */
  function ValuesOf<K(==), V>(es: seq<(K, V)>, k: K): seq<V> {
    if es == [] then []
    else if es[|es| - 1].0 == k then ValuesOf(es[..|es| - 1], k) + [es[|es| - 1].1]
    else ValuesOf(es[..|es| - 1], k)
  }

  /** The total number of values held in the lists of `d`. */
  function TotalLen<K, V>(d: ODict<K, seq<V>>): nat {
    if d == [] then 0 else |d[0].1| + TotalLen(d[1..])
  }

  /** The list under `k` after `Append`: the old one (or none) with `v` at its end. */
  function Appended<K(==), V>(d: ODict<K, seq<V>>, k: K, v: V): seq<V> {
    match Get(d, k)
    case None => [v]
    case Some(vs) => vs + [v]
  }

  lemma AppendKeys<K, V>(d: ODict<K, seq<V>>, k: K, v: V)
    ensures Keys(Append(d, k, v)) == if k in Keys(d) then Keys(d) else Keys(d) + [k]
  {
    PutKeys(d, k, Appended(d, k, v));
  }

  lemma AppendGet<K, V>(d: ODict<K, seq<V>>, k: K, v: V, j: K)
    ensures Get(Append(d, k, v), j) == if j == k then Some(Appended(d, k, v)) else Get(d, j)
  {
    PutGet(d, k, Appended(d, k, v), j);
  }

  lemma {:induction false} ValuesOfAbsent<K, V>(es: seq<(K, V)>, k: K)
    requires k !in Keys(es)
    ensures ValuesOf(es, k) == []
  {
    if es != [] {
      var init := es[..|es| - 1];
      assert Keys(es) == Keys(init) + [es[|es| - 1].0];
      ValuesOfAbsent(init, k);
    }
  }

  /** Grouping keeps the keys in first-seen order, each once. */
  lemma {:induction false} GroupPairsKeys<K, V>(es: seq<(K, V)>)
    ensures Keys(GroupPairs(es)) == Dedup(Keys(es))
  {
    if es != [] {
      var init, last := es[..|es| - 1], es[|es| - 1];
      GroupPairsKeys(init);
      AppendKeys(GroupPairs(init), last.0, last.1);
      KeysSnoc(es);
      DedupSnoc(Keys(init), last.0);
    }
  }

  /** Each present key holds exactly the values paired with it, in their original order. */
  lemma {:induction false} GroupPairsGet<K, V>(es: seq<(K, V)>, k: K)
    ensures Get(GroupPairs(es), k) == if k in Keys(es) then Some(ValuesOf(es, k)) else None
  {
    if es != [] {
      var init, last := es[..|es| - 1], es[|es| - 1];
      GroupPairsGet(init, k);
      GroupPairsGet(init, last.0);
      AppendGet(GroupPairs(init), last.0, last.1, k);
      assert Keys(es) == Keys(init) + [last.0];
      if last.0 !in Keys(init) {
        ValuesOfAbsent(init, last.0);
        assert Appended(GroupPairs(init), last.0, last.1) == ValuesOf(es, last.0);
      }
    }
  }

  lemma {:induction false} TotalLenPut<K, V>(d: ODict<K, seq<V>>, k: K, vs: seq<V>)
    ensures TotalLen(Put(d, k, vs)) == TotalLen(d) + |vs| - (match Get(d, k) case None => 0 case Some(ws) => |ws|)
  {
    if d != [] && d[0].0 != k {
      TotalLenPut(d[1..], k, vs);
      assert Put(d, k, vs)[1..] == Put(d[1..], k, vs);
    } else if d != [] {
      assert Put(d, k, vs)[1..] == d[1..];
    }
  }

  /** Grouping loses and duplicates no value: the lists hold `|es|` values in all. */
  lemma {:induction false} GroupPairsTotal<K, V>(es: seq<(K, V)>)
    ensures TotalLen(GroupPairs(es)) == |es|
  {
    if es != [] {
      var init, last := es[..|es| - 1], es[|es| - 1];
      GroupPairsTotal(init);
      var g := GroupPairs(init);
      match Get(g, last.0)
      case None => TotalLenPut(g, last.0, [last.1]);
      case Some(vs) => TotalLenPut(g, last.0, vs + [last.1]);
    }
  }
}
