/**
 * Python's dict as the aggregator uses it: an insertion-ordered mapping in
 * which assigning an existing key replaces its value in place and assigning
 * a new key appends it. Modelled as a sequence of (key, value) pairs.
 */
module Dict {
  import opened Wrappers

  function Keys<K(==), V>(d: seq<(K, V)>): (ks: seq<K>)
    ensures |ks| == |d|
    ensures forall i :: 0 <= i < |d| ==> ks[i] == d[i].0
  {
    seq(|d|, i requires 0 <= i < |d| => d[i].0)
  }

  function Values<K(==), V>(d: seq<(K, V)>): (vs: seq<V>)
    ensures |vs| == |d|
    ensures forall i :: 0 <= i < |d| ==> vs[i] == d[i].1
  {
    seq(|d|, i requires 0 <= i < |d| => d[i].1)
  }

  ghost predicate Distinct<T>(s: seq<T>) {
    forall i, j :: 0 <= i < j < |s| ==> s[i] != s[j]
  }

  /** `d.get(k)`: the value stored under k. */
  function Get<K(==), V>(d: seq<(K, V)>, k: K): Option<V>
  {
    if d == [] then None
    else if d[0].0 == k then Some(d[0].1)
    else Get(d[1..], k)
  }

  /** A lookup finds nothing exactly when the key is missing. */
  lemma {:induction false} GetMissing<K, V>(d: seq<(K, V)>, k: K)
    ensures Get(d, k).None? <==> k !in Keys(d)
  {
    if d != [] {
      assert Keys(d) == [d[0].0] + Keys(d[1..]);
      GetMissing(d[1..], k);
    }
  }

  /** With distinct keys, the pair at index i is what a lookup of its key finds. */
  lemma {:induction false} GetAt<K, V>(d: seq<(K, V)>, i: nat)
    requires Distinct(Keys(d)) && i < |d|
    ensures Get(d, d[i].0) == Some(d[i].1)
  {
    if i > 0 {
      assert Keys(d)[0] != Keys(d)[i];
      assert Keys(d[1..]) == Keys(d)[1..];
      GetAt(d[1..], i - 1);
    }
  }

  lemma KeysCons<K, V>(x: (K, V), d: seq<(K, V)>)
    ensures Keys([x] + d) == [x.0] + Keys(d)
  {
  }

  /** `d[k] = v`. */
  function Put<K(==), V>(d: seq<(K, V)>, k: K, v: V): (r: seq<(K, V)>)
    ensures Keys(r) == if k in Keys(d) then Keys(d) else Keys(d) + [k]
  {
    if d == [] then [(k, v)]
    else
      KeysCons(d[0], d[1..]);
      assert [d[0]] + d[1..] == d;
      if d[0].0 == k then
        KeysCons((k, v), d[1..]);
        [(k, v)] + d[1..]
      else
        var rest := Put(d[1..], k, v);
        KeysCons(d[0], rest);
        [d[0]] + rest
  }

  /** After `d[k] = v`, k maps to v and every other key to what it mapped to before. */
  lemma {:induction false} PutGet<K, V>(d: seq<(K, V)>, k: K, v: V, k': K)
    ensures Get(Put(d, k, v), k') == if k' == k then Some(v) else Get(d, k')
  {
    if d != [] && d[0].0 != k {
      PutGet(d[1..], k, v, k');
    }
  }

  /** `d.update(entries)`, and a dict display or comprehension when d is empty: Put each pair in order. */
  function Update<K(==), V>(d: seq<(K, V)>, entries: seq<(K, V)>): seq<(K, V)>
  {
    if entries == [] then d
    else
      var last := entries[|entries| - 1];
      Put(Update(d, entries[..|entries| - 1]), last.0, last.1)
  }

  function FromPairs<K(==), V>(pairs: seq<(K, V)>): seq<(K, V)>
  {
    Update([], pairs)
  }

  /** Assigning a key the dict does not hold appends the pair. */
  lemma {:induction false} PutFresh<K, V>(d: seq<(K, V)>, k: K, v: V)
    requires k !in Keys(d)
    ensures Put(d, k, v) == d + [(k, v)]
  {
    if d != [] {
      assert Keys(d) == [d[0].0] + Keys(d[1..]);
      PutFresh(d[1..], k, v);
    }
  }

  /** A prefix of a sequence without repetitions has none, and the next element is not in it. */
  lemma DistinctSplit<T>(s: seq<T>, m: nat)
    requires Distinct(s) && m <= |s|
    ensures Distinct(s[..m])
    ensures m < |s| ==> s[m] !in s[..m]
  {
  }

  lemma AppendLast<T>(a: seq<T>, b: seq<T>)
    requires b != []
    ensures (a + b[..|b| - 1]) + [b[|b| - 1]] == a + b
  {
  }

  /** Updating with keys that are all new and distinct appends the entries as they are. */
  lemma {:induction false} UpdateFresh<K, V>(d: seq<(K, V)>, entries: seq<(K, V)>)
    requires Distinct(Keys(d + entries))
    ensures Update(d, entries) == d + entries
  {
    if entries != [] {
      var n := |entries| - 1;
      var init := entries[..n];
      var whole := d + entries;
      assert whole[..|d| + n] == d + init;
      assert whole[|d| + n] == entries[n];
      assert Keys(whole)[..|d| + n] == Keys(d + init);
      DistinctSplit(Keys(whole), |d| + n);
      UpdateFresh(d, init);
      PutFresh(d + init, entries[n].0, entries[n].1);
      assert Update(d, entries) == Put(d + init, entries[n].0, entries[n].1);
      AppendLast(d, entries);
    }
  }

  /**
   * A dict display, then an update, then one assignment, with no key ever
   * repeated: the result lists the pairs in the order they were given.
   */
  lemma ThreeStages<K, V>(first: seq<(K, V)>, second: seq<(K, V)>, k: K, v: V)
    requires Distinct(Keys(first + second + [(k, v)]))
    ensures Put(Update(FromPairs(first), second), k, v) == first + second + [(k, v)]
  {
    var all := Keys(first + second + [(k, v)]);
    assert Keys(first + second) == all[..|first| + |second|];
    assert Distinct(Keys(first + second)) && k !in Keys(first + second) by {
      DistinctSplit(all, |first| + |second|);
    }
    assert FromPairs(first) == first by {
      assert Keys([] + first) == Keys(first + second)[..|first|];
      DistinctSplit(Keys(first + second), |first|);
      UpdateFresh([], first);
      assert [] + first == first;
    }
    assert Update(first, second) == first + second by {
      UpdateFresh(first, second);
    }
    PutFresh(first + second, k, v);
  }

  // ------------------------------------------------------------ reference

  /** The keys of ks in the order of their first occurrence, each once (an independent reference). */
  function Firsts<K(==)>(ks: seq<K>): seq<K>
  {
    if ks == [] then []
    else
      var n := |ks| - 1;
      if ks[n] in ks[..n] then Firsts(ks[..n]) else Firsts(ks[..n]) + [ks[n]]
  }

  /** The value of the LAST pair with key k, if any (later assignments win). */
  function LastValue<K(==), V>(pairs: seq<(K, V)>, k: K): Option<V>
  {
    if pairs == [] then None
    else if pairs[|pairs| - 1].0 == k then Some(pairs[|pairs| - 1].1)
    else LastValue(pairs[..|pairs| - 1], k)
  }

  /** Index of the first occurrence of x in ks. */
  function IndexOf<K(==)>(ks: seq<K>, x: K): (i: nat)
    requires x in ks
    ensures i < |ks| && ks[i] == x && x !in ks[..i]
  {
    if ks[0] == x then 0
    else
      var i := 1 + IndexOf(ks[1..], x);
      assert ks[..i] == [ks[0]] + ks[1..][..i - 1];
      i
  }

  lemma {:induction false} IndexOfPrefix<K>(ks: seq<K>, y: K, x: K)
    requires x in ks
    ensures IndexOf(ks + [y], x) == IndexOf(ks, x)
  {
    if ks[0] != x {
      assert (ks + [y])[1..] == ks[1..] + [y];
      IndexOfPrefix(ks[1..], y, x);
    }
  }

  /**
   * Firsts(ks) lists every key of ks exactly once, and in the order in which
   * the keys first occur in ks.
   */
  lemma {:induction false} FirstsSpec<K(!new)>(ks: seq<K>)
    ensures Distinct(Firsts(ks))
    ensures forall x :: x in Firsts(ks) <==> x in ks
    ensures forall i, j :: 0 <= i < j < |Firsts(ks)| ==> IndexOf(ks, Firsts(ks)[i]) < IndexOf(ks, Firsts(ks)[j])
  {
    if ks != [] {
      var n := |ks| - 1;
      var init := ks[..n];
      var p := Firsts(init);
      FirstsSpec(init);
      assert ks == init + [ks[n]];
      forall x | x in p ensures IndexOf(ks, x) == IndexOf(init, x) {
        IndexOfPrefix(init, ks[n], x);
      }
      if ks[n] !in init {
        var r := p + [ks[n]];
        assert IndexOf(ks, ks[n]) == n;
        forall i, j | 0 <= i < j < |r| ensures IndexOf(ks, r[i]) < IndexOf(ks, r[j]) {
          if j < |p| {
            assert r[i] == p[i] && r[j] == p[j];
          } else {
            assert r[i] == p[i];
          }
        }
      }
    }
  }

  /** There are at most as many first occurrences as keys, and exactly as many when the keys are distinct. */
  lemma {:induction false} FirstsLength<K>(ks: seq<K>)
    ensures |Firsts(ks)| <= |ks|
    ensures |Firsts(ks)| == |ks| <==> Distinct(ks)
  {
    if ks != [] {
      var n := |ks| - 1;
      var init := ks[..n];
      FirstsLength(init);
      if ks[n] in init {
        var i :| 0 <= i < n && init[i] == ks[n];
        assert ks[i] == ks[n];
      } else {
        if Distinct(init) {
          forall i, j | 0 <= i < j < |ks| ensures ks[i] != ks[j] {
            if j < n {
              assert ks[i] == init[i] && ks[j] == init[j];
            } else {
              assert ks[i] in init;
            }
          }
        } else {
          assert !Distinct(ks) by {
            var i, j :| 0 <= i < j < n && init[i] == init[j];
            assert ks[i] == ks[j];
          }
        }
      }
    }
  }

  /**
   * Building a dict from pairs keeps the keys in first-occurrence order and
   * stores, under each key, the value of the last pair with that key.
   */
  lemma {:induction false} FromPairsSpec<K(!new), V>(pairs: seq<(K, V)>)
    ensures Keys(FromPairs(pairs)) == Firsts(Keys(pairs))
    ensures forall k :: Get(FromPairs(pairs), k) == LastValue(pairs, k)
  {
    if pairs != [] {
      var n := |pairs| - 1;
      var init := pairs[..n];
      FromPairsSpec(init);
      assert Keys(pairs)[..n] == Keys(init);
      FirstsSpec(Keys(init));
      assert FromPairs(pairs) == Put(FromPairs(init), pairs[n].0, pairs[n].1);
      forall k ensures Get(FromPairs(pairs), k) == LastValue(pairs, k) {
        PutGet(FromPairs(init), pairs[n].0, pairs[n].1, k);
      }
    }
  }
}
