/** In-place tensor scatters (`index_copy_`, `index_put_`, slice assignment) seen as relations
    between the contents of a tensor before and after.

    A scatter is a set of (location, value) pairs.  A location written once ends up holding its
    value; a location written by several pairs holds one of their values, and which one is left
    open, as PyTorch leaves it open. */
module Scatter {

  ghost predicate Hits<K, V>(writes: iset<(K, V)>, k: K) {
    exists w | w in writes :: w.0 == k
  }

  ghost predicate Scattered<K, V>(pre: imap<K, V>, post: imap<K, V>, writes: iset<(K, V)>) {
    && post.Keys == pre.Keys
    && (forall w | w in writes :: w.0 in pre)
    && (forall k | k in pre :: if Hits(writes, k) then (k, post[k]) in writes else post[k] == pre[k])
  }

  /** No two pairs of `writes` disagree about location `k`. */
  ghost predicate Functional<K, V>(writes: iset<(K, V)>, k: K) {
    forall w, w' | w in writes && w' in writes && w.0 == k && w'.0 == k :: w == w'
  }

  /** One assignment extends a scatter by one pair. */
  lemma ScatterOne<K, V>(pre: imap<K, V>, mid: imap<K, V>, writes: iset<(K, V)>, k: K, v: V)
    requires Scattered(pre, mid, writes) && k in pre
    ensures Scattered(pre, mid[k := v], writes + iset{(k, v)})
  {
    var writes' := writes + iset{(k, v)};
    assert (k, v) in writes';
    forall k' | k' in pre
      ensures if Hits(writes', k') then (k', mid[k := v][k']) in writes' else mid[k := v][k'] == pre[k']
    {
      if k' != k {
        assert Hits(writes', k') ==> Hits(writes, k');
        if Hits(writes, k') {
          var w :| w in writes && w.0 == k';
          assert w in writes';
        }
      }
    }
  }

  /** Scatters compose. */
  lemma ScatterCompose<K, V>(a: imap<K, V>, b: imap<K, V>, c: imap<K, V>,
                             first: iset<(K, V)>, second: iset<(K, V)>)
    requires Scattered(a, b, first) && Scattered(b, c, second)
    ensures Scattered(a, c, first + second)
  {
    var both := first + second;
    forall k | k in a
      ensures if Hits(both, k) then (k, c[k]) in both else c[k] == a[k]
    {
      if Hits(second, k) {
        var w :| w in second && w.0 == k;
        assert w in both;
      } else if Hits(first, k) {
        var w :| w in first && w.0 == k;
        assert w in both;
      } else {
        assert !Hits(both, k);
      }
    }
  }

  /** A location that only one value is written to holds that value afterwards. */
  lemma ScatterRead<K, V>(pre: imap<K, V>, post: imap<K, V>, writes: iset<(K, V)>, k: K, v: V)
    requires Scattered(pre, post, writes) && (k, v) in writes && Functional(writes, k)
    ensures k in post && post[k] == v
  {
    assert (k, v).0 == k;
    assert Hits(writes, k);
  }
}
