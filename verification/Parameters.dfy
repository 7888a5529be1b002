/** Nesting flat parameter names into a tree, flattening the tree again, and splitting parts off by name. */
module Parameters {
  import opened ThetaNames
  import opened Wrappers

  /** A dictionary of names in insertion order. */
  type Flat<T> = seq<(string, T)>

  predicate Distinct<T>(flat: Flat<T>) {
    forall i, j | 0 <= i < j < |flat| :: flat[i].0 != flat[j].0
  }

  /** What a list of assignments leaves in a dictionary. */
  function Collect<T>(flat: Flat<T>): map<string, T> {
    if |flat| == 0 then map[] else Collect(flat[..|flat| - 1])[flat[|flat| - 1].0 := flat[|flat| - 1].1]
  }

  lemma {:induction false} CollectIn<T>(flat: Flat<T>, n: string)
    ensures n in Collect(flat) ==> exists i :: 0 <= i < |flat| && flat[i] == (n, Collect(flat)[n])
    ensures forall i | 0 <= i < |flat| :: flat[i].0 in Collect(flat)
  {
    if |flat| > 0 {
      var init, last := flat[..|flat| - 1], flat[|flat| - 1];
      CollectIn(init, n);
      if n in Collect(flat) {
        if n == last.0 {
          assert flat[|flat| - 1] == (n, Collect(flat)[n]);
        } else {
          var i :| 0 <= i < |init| && init[i] == (n, Collect(init)[n]);
          assert flat[i] == (n, Collect(flat)[n]);
        }
      }
      forall i | 0 <= i < |flat| ensures flat[i].0 in Collect(flat) {
        if i < |init| {
          assert init[i].0 in Collect(init);
        }
      }
    }
  }

  lemma CollectAt<T>(flat: Flat<T>, i: nat)
    requires Distinct(flat) && i < |flat|
    ensures flat[i].0 in Collect(flat) && Collect(flat)[flat[i].0] == flat[i].1
  {
    CollectIn(flat, flat[i].0);
    var j :| 0 <= j < |flat| && flat[j] == (flat[i].0, Collect(flat)[flat[i].0]);
  }

  // ---- Nesting ----

  function Nest<T>(flat: Flat<T>): Option<Dict<T>> {
    if |flat| == 0 then Some(Empty)
    else
      match Nest(flat[..|flat| - 1])
      case None => None
      case Some(d) => Add(d, Split(flat[|flat| - 1].0), flat[|flat| - 1].1)
  }

  /** `flat_to_nested_dict`; `None` if names collide. */
  method FlatToNestedDict<T>(flat: Flat<T>) returns (nested: Option<Dict<T>>)
    ensures nested == Nest(flat)
  {
    var d: Dict<T> := Empty;
    for i := 0 to |flat|
      invariant Nest(flat[..i]) == Some(d)
    {
      assert flat[..i + 1][..i] == flat[..i];
      var added := Add(d, Split(flat[i].0), flat[i].1);
      if added.None? {
        NestStuck(flat, i + 1);
        return None;
      }
      d := added.value;
    }
    assert flat[..|flat|] == flat;
    return Some(d);
  }

  lemma {:induction false} NestStuck<T>(flat: Flat<T>, n: nat)
    requires n <= |flat| && Nest(flat[..n]) == None
    ensures Nest(flat) == None
    decreases |flat| - n
  {
    if n < |flat| {
      assert flat[..n + 1][..n] == flat[..n];
      NestStuck(flat, n + 1);
    } else {
      assert flat[..n] == flat;
    }
  }

  ghost predicate LeafAt<T>(d: Dict<T>, path: seq<string>, v: T) {
    path != [] && Get(d, path) == Some(Leaf(v))
  }

  lemma {:induction false} NestWellFormed<T>(flat: Flat<T>)
    requires Nest(flat).Some?
    ensures WellFormed(Nest(flat).value)
  {
    if |flat| > 0 {
      NestWellFormed(flat[..|flat| - 1]);
      AddWellFormed(Nest(flat[..|flat| - 1]).value, Split(flat[|flat| - 1].0), flat[|flat| - 1].1);
    }
  }

  /** Every value in the tree came from the list. */
  lemma {:induction false} NestOnly<T>(flat: Flat<T>, path: seq<string>, v: T) returns (i: nat)
    requires Nest(flat).Some? && LeafAt(Nest(flat).value, path, v)
    ensures i < |flat| && path == Split(flat[i].0)
    ensures Distinct(flat) ==> flat[i].1 == v
  {
    assert |flat| > 0;
    var init, last := flat[..|flat| - 1], flat[|flat| - 1];
    if path == Split(last.0) {
      i := |flat| - 1;
      AddGet(Nest(init).value, Split(last.0), last.1, path);
    } else {
      AddOnly(Nest(init).value, Split(last.0), last.1, path);
      i := NestOnly(init, path, v);
      assert init[i] == flat[i];
      assert Distinct(flat) ==> Distinct(init);
    }
  }

  predicate PrefixFree<T>(flat: Flat<T>) {
    forall i, j | 0 <= i < |flat| && 0 <= j < |flat| && i != j :: !Prefix(Split(flat[i].0), Split(flat[j].0))
  }

  /** Without prefixes among the names, nesting succeeds and keeps every value. */
  lemma {:induction false} NestAll<T>(flat: Flat<T>)
    requires PrefixFree(flat)
    ensures Nest(flat).Some?
    ensures forall i | 0 <= i < |flat| :: LeafAt(Nest(flat).value, Split(flat[i].0), flat[i].1)
  {
    if |flat| > 0 {
      var init, last := flat[..|flat| - 1], flat[|flat| - 1];
      forall i, j | 0 <= i < |init| && 0 <= j < |init| && i != j ensures !Prefix(Split(init[i].0), Split(init[j].0)) {
        assert init[i] == flat[i] && init[j] == flat[j];
      }
      NestAll(init);
      var d := Nest(init).value;
      NestSucceeds(flat, d);
      forall i | 0 <= i < |flat| ensures LeafAt(Nest(flat).value, Split(flat[i].0), flat[i].1) {
        AddGet(d, Split(last.0), last.1, Split(flat[i].0));
        if i < |init| {
          assert init[i] == flat[i] && LeafAt(d, Split(init[i].0), init[i].1);
          assert !Prefix(Split(flat[i].0), Split(last.0)) && !Prefix(Split(last.0), Split(flat[i].0));
        }
      }
    }
  }

  lemma NestSucceeds<T>(flat: Flat<T>, d: Dict<T>)
    requires |flat| > 0 && PrefixFree(flat) && Nest(flat[..|flat| - 1]) == Some(d)
    ensures Nest(flat).Some?
  {
    if Nest(flat).None? {
      var i := Blocking(flat, d);
    }
  }

  /** When adding a name fails, an earlier name is a prefix of it. */
  lemma Blocking<T>(flat: Flat<T>, d: Dict<T>) returns (i: nat)
    requires |flat| > 0 && Nest(flat[..|flat| - 1]) == Some(d) && Nest(flat).None?
    ensures i < |flat| - 1 && Prefix(Split(flat[i].0), Split(flat[|flat| - 1].0))
  {
    var init, last := flat[..|flat| - 1], flat[|flat| - 1];
    var parts := Split(last.0);
    var n := FailsAt(d, parts, last.1);
    i := NestOnly(init, parts[..n], Get(d, parts[..n]).value.value);
    assert init[i] == flat[i];
  }

  // ---- Flattening ----

  /** The assignments that flattening makes, in order. */
  function Accum<T>(prefix: string, d: Dict<T>): Flat<T>
    decreases d
  {
    match d
    case Empty => []
    case Entry(k, Leaf(v), rest) => [(ChildName(prefix, k), v)] + Accum(prefix, rest)
    case Entry(k, Sub(sub), rest) => Accum(ChildName(prefix, k), sub) + Accum(prefix, rest)
  }

  function Flatten<T>(d: Dict<T>): map<string, T> {
    Collect(Accum("", d))
  }

  lemma {:induction false} GetRest<T>(d: Dict<T>, path: seq<string>)
    requires d.Entry? && WellFormed(d) && path != [] && Get(d.rest, path).Some?
    ensures Get(d, path) == Get(d.rest, path)
  {
  }

  lemma {:induction false} AccumSound<T>(prefix: string, d: Dict<T>, i: nat) returns (path: seq<string>)
    requires WellFormed(d) && i < |Accum(prefix, d)|
    ensures LeafAt(d, path, Accum(prefix, d)[i].1) && PathName(prefix, path) == Accum(prefix, d)[i].0
    decreases d
  {
    var first := match d.node case Leaf(v) => [(ChildName(prefix, d.key), v)] case Sub(sub) => Accum(ChildName(prefix, d.key), sub);
    if i < |first| {
      if d.node.Leaf? {
        path := [d.key];
      } else {
        var p := AccumSound(ChildName(prefix, d.key), d.node.dict, i);
        path := [d.key] + p;
        assert path[1..] == p;
      }
    } else {
      path := AccumSound(prefix, d.rest, i - |first|);
      GetRest(d, path);
    }
  }

  lemma {:induction false} AccumComplete<T>(prefix: string, d: Dict<T>, path: seq<string>, v: T) returns (i: nat)
    requires LeafAt(d, path, v)
    ensures i < |Accum(prefix, d)| && Accum(prefix, d)[i] == (PathName(prefix, path), v)
    decreases d
  {
    if d.key == path[0] {
      if d.node.Leaf? {
        i := 0;
      } else {
        i := AccumComplete(ChildName(prefix, d.key), d.node.dict, path[1..], v);
      }
    } else {
      var j := AccumComplete(prefix, d.rest, path, v);
      i := |Accum(prefix, d)| - |Accum(prefix, d.rest)| + j;
    }
  }

  // ---- The round trip ----

  /** Names of which none is a dotted prefix of another and none starts with a dot. */
  predicate CleanNames<T>(m: map<string, T>) {
    && (forall a, b | a in m && b in m && a != b :: !Prefix(Split(a), Split(b)))
    && (forall a | a in m :: !StartsWithDot(a))
  }

  predicate StartsWithDot(s: string) {
    s != "" && s[0] == '.'
  }

  lemma SplitInjective(a: string, b: string)
    requires Split(a) == Split(b)
    ensures a == b
  {
    JoinSplit(a);
    JoinSplit(b);
  }

  lemma NameOfSplit(n: string)
    requires !StartsWithDot(n)
    ensures PathName("", Split(n)) == n
  {
    LeadingDot(n);
    TopName(Split(n));
    JoinSplit(n);
  }

  lemma CleanPrefixFree<T>(flat: Flat<T>)
    requires Distinct(flat) && CleanNames(Collect(flat))
    ensures PrefixFree(flat)
  {
    CollectIn(flat, "");
    forall i, j | 0 <= i < |flat| && 0 <= j < |flat| && i != j ensures !Prefix(Split(flat[i].0), Split(flat[j].0)) {
      assert flat[i].0 in Collect(flat) && flat[j].0 in Collect(flat) && flat[i].0 != flat[j].0;
    }
  }

  /** Clean names survive nesting and flattening. */
  lemma CleanRoundTrip<T>(flat: Flat<T>)
    requires Distinct(flat) && CleanNames(Collect(flat))
    ensures Nest(flat).Some? && WellFormed(Nest(flat).value) && Flatten(Nest(flat).value) == Collect(flat)
  {
    CleanPrefixFree(flat);
    NestAll(flat);
    NestWellFormed(flat);
    var d := Nest(flat).value;
    var pairs := Accum("", d);
    forall n | n in Collect(pairs) ensures n in Collect(flat) && Collect(flat)[n] == Collect(pairs)[n] {
      CollectIn(pairs, n);
      var i :| 0 <= i < |pairs| && pairs[i] == (n, Collect(pairs)[n]);
      var path := AccumSound("", d, i);
      var k := NestOnly(flat, path, pairs[i].1);
      CollectAt(flat, k);
      NameOfSplit(flat[k].0);
    }
    forall n | n in Collect(flat) ensures n in Collect(pairs) {
      CollectIn(flat, n);
      var k :| 0 <= k < |flat| && flat[k] == (n, Collect(flat)[n]);
      var i := AccumComplete("", d, Split(flat[k].0), flat[k].1);
      NameOfSplit(n);
      CollectIn(pairs, n);
      assert pairs[i].0 == n;
    }
  }

  lemma FlattenedPath<T>(d: Dict<T>, n: string) returns (path: seq<string>)
    requires WellFormed(d) && n in Flatten(d)
    ensures LeafAt(d, path, Flatten(d)[n]) && PathName("", path) == n
  {
    var pairs := Accum("", d);
    CollectIn(pairs, n);
    var i :| 0 <= i < |pairs| && pairs[i] == (n, Collect(pairs)[n]);
    path := AccumSound("", d, i);
  }

  lemma {:induction false} PathParts<T>(d: Dict<T>, path: seq<string>)
    requires WellFormed(d) && path != [] && Get(d, path).Some?
    ensures forall i | 0 <= i < |path| :: '.' !in path[i]
    decreases |path|
  {
    LookupWellFormed(d, path[0]);
    if |path| > 1 {
      PathParts(Lookup(d, path[0]).value.dict, path[1..]);
      forall i | 0 <= i < |path| ensures '.' !in path[i] {
        if i > 0 {
          assert path[i] == path[1..][i - 1];
        }
      }
    }
  }

  /** Nothing lies below a value. */
  lemma {:induction false} NothingBelow<T>(d: Dict<T>, p: seq<string>, q: seq<string>, v: T)
    requires LeafAt(d, p, v) && |p| < |q| && q[..|p|] == p
    ensures Get(d, q).None?
    decreases |p|
  {
    assert q[0] == p[0];
    if |p| > 1 {
      assert q[1..][..|p| - 1] == p[1..];
      NothingBelow(Lookup(d, p[0]).value.dict, p[1..], q[1..], v);
    }
  }

  /** Only clean names survive. */
  lemma RoundTripClean<T>(flat: Flat<T>)
    requires Distinct(flat) && Nest(flat).Some? && Flatten(Nest(flat).value) == Collect(flat)
    ensures CleanNames(Collect(flat))
  {
    var d := Nest(flat).value;
    NestWellFormed(flat);
    forall a | a in Collect(flat) ensures !StartsWithDot(a) {
      var path := FlattenedPath(d, a);
      PathParts(d, path);
      TopNameStart(path);
    }
    forall a, b | a in Collect(flat) && b in Collect(flat) && a != b ensures !Prefix(Split(a), Split(b)) {
      CollectIn(flat, a);
      SplitLeaf(flat, d, a);
      SplitLeaf(flat, d, b);
      if Prefix(Split(a), Split(b)) {
        if |Split(a)| == |Split(b)| {
          assert Split(b)[..|Split(a)|] == Split(b);
          SplitInjective(a, b);
        } else {
          NothingBelow(d, Split(a), Split(b), Flatten(d)[a]);
        }
      }
    }
  }

  lemma SplitLeaf<T>(flat: Flat<T>, d: Dict<T>, a: string)
    requires Nest(flat) == Some(d) && WellFormed(d) && a in Flatten(d)
    requires forall i | 0 <= i < |flat| :: !StartsWithDot(flat[i].0)
    ensures LeafAt(d, Split(a), Flatten(d)[a])
  {
    var path := FlattenedPath(d, a);
    var k := NestOnly(flat, path, Flatten(d)[a]);
    NameOfSplit(flat[k].0);
  }

  /** A dictionary of names comes back from nesting and flattening exactly if its names are clean. */
  lemma RoundTrip<T>(flat: Flat<T>)
    requires Distinct(flat)
    ensures Nest(flat).Some? && Flatten(Nest(flat).value) == Collect(flat) <==> CleanNames(Collect(flat))
  {
    if CleanNames(Collect(flat)) {
      CleanRoundTrip(flat);
    }
    if Nest(flat).Some? && Flatten(Nest(flat).value) == Collect(flat) {
      RoundTripClean(flat);
    }
  }

  /** A name that starts with a dot comes back without it, or not at all. */
  lemma LeadingDotLost<T>(v: T)
    ensures Nest([(".weight", v)]).Some? && Flatten(Nest([(".weight", v)]).value) != Collect([(".weight", v)])
  {
    var flat := [(".weight", v)];
    assert flat[..0] == [] && Collect(flat) == map[".weight" := v];
    assert ".weight" in Collect(flat) && StartsWithDot(".weight");
    NestAll(flat);
    RoundTrip(flat);
  }

  // ---- Splitting by name ----

  /** Assigns to a dictionary: a known key keeps its place. */
  function Put<T>(flat: Flat<T>, n: string, v: T): Flat<T> {
    if |flat| == 0 then [(n, v)]
    else if flat[0].0 == n then [(n, v)] + flat[1..]
    else [flat[0]] + Put(flat[1..], n, v)
  }

  function PutAll<T>(flat: Flat<T>, pairs: Flat<T>): Flat<T> {
    if |pairs| == 0 then flat
    else
      var last := pairs[|pairs| - 1];
      Put(PutAll(flat, pairs[..|pairs| - 1]), last.0, last.1)
  }

  lemma {:induction false} PutDistinct<T>(flat: Flat<T>, n: string, v: T)
    requires Distinct(flat)
    ensures Distinct(Put(flat, n, v))
    ensures forall i | 0 <= i < |Put(flat, n, v)| :: Put(flat, n, v)[i].0 == n || exists j :: 0 <= j < |flat| && flat[j].0 == Put(flat, n, v)[i].0
  {
    if |flat| > 0 && flat[0].0 != n {
      var rest := flat[1..];
      PutDistinct(rest, n, v);
      var r := Put(rest, n, v);
      forall i | 0 <= i < |r| ensures r[i].0 == n || exists j :: 0 <= j < |flat| && flat[j].0 == r[i].0 {
        if r[i].0 != n {
          var j :| 0 <= j < |rest| && rest[j].0 == r[i].0;
          assert flat[j + 1].0 == r[i].0;
        }
      }
      forall i | 0 <= i < |r| ensures r[i].0 != flat[0].0 {
        if r[i].0 != n {
          var j :| 0 <= j < |rest| && rest[j].0 == r[i].0;
          assert flat[j + 1].0 == r[i].0;
        }
      }
    }
  }

  /** The same dictionary, however its keys are ordered. */
  lemma {:induction false} CollectFirst<T>(flat: Flat<T>)
    requires |flat| > 0 && Distinct(flat)
    ensures Collect(flat) == Collect(flat[1..])[flat[0].0 := flat[0].1] && flat[0].0 !in Collect(flat[1..])
  {
    CollectIn(flat[1..], flat[0].0);
    if |flat| > 1 {
      var init, last := flat[..|flat| - 1], flat[|flat| - 1];
      assert Distinct(init);
      CollectFirst(init);
      assert flat[1..][..|flat[1..]| - 1] == init[1..];
    } else {
      assert flat[1..] == [] && flat[..0] == [];
    }
  }

  lemma {:induction false} CollectPut<T>(flat: Flat<T>, n: string, v: T)
    requires Distinct(flat)
    ensures Collect(Put(flat, n, v)) == Collect(flat)[n := v]
  {
    hide Collect;
    if |flat| == 0 {
      CollectOne(n, v);
    } else if flat[0].0 == n {
      CollectPutFirst(flat, n, v);
    } else {
      DistinctRest(flat);
      CollectPut(flat[1..], n, v);
      CollectPutLater(flat, n, v);
    }
  }

  lemma DistinctRest<T>(flat: Flat<T>)
    requires |flat| > 0 && Distinct(flat)
    ensures Distinct(flat[1..])
  {
  }

  lemma CollectOne<T>(n: string, v: T)
    ensures Collect<T>([]) == map[] && Collect([(n, v)]) == map[n := v]
  {
    assert [(n, v)][..0] == [];
  }

  lemma CollectPutFirst<T>(flat: Flat<T>, n: string, v: T)
    requires |flat| > 0 && Distinct(flat) && flat[0].0 == n
    ensures Collect(Put(flat, n, v)) == Collect(flat)[n := v]
  {
    hide Collect;
    var put := Put(flat, n, v);
    assert put[1..] == flat[1..];
    assert Distinct(put);
    CollectFirst(put);
    CollectFirst(flat);
  }

  lemma CollectPutLater<T>(flat: Flat<T>, n: string, v: T)
    requires |flat| > 0 && Distinct(flat) && flat[0].0 != n
    requires Collect(Put(flat[1..], n, v)) == Collect(flat[1..])[n := v]
    ensures Collect(Put(flat, n, v)) == Collect(flat)[n := v]
  {
    hide Collect;
    var put := Put(flat, n, v);
    assert put[1..] == Put(flat[1..], n, v) && put[0] == flat[0];
    PutDistinct(flat, n, v);
    hide Put, Distinct;
    CollectFirst(put);
    CollectFirst(flat);
  }

  lemma {:induction false} CollectPutAll<T>(pairs: Flat<T>)
    ensures Distinct(PutAll([], pairs)) && Collect(PutAll([], pairs)) == Collect(pairs)
  {
    if |pairs| > 0 {
      var init, last := pairs[..|pairs| - 1], pairs[|pairs| - 1];
      CollectPutAll(init);
      PutDistinct(PutAll([], init), last.0, last.1);
      CollectPut(PutAll([], init), last.0, last.1);
    }
  }

  lemma {:induction false} PutAllConcat<T>(flat: Flat<T>, a: Flat<T>, b: Flat<T>)
    ensures PutAll(flat, a + b) == PutAll(PutAll(flat, a), b)
  {
    if |b| == 0 {
      assert a + b == a;
    } else {
      PutAllConcat(flat, a, b[..|b| - 1]);
      assert (a + b)[..|a + b| - 1] == a + b[..|b| - 1];
    }
  }

  /** The entries whose names do or do not start with a text. */
  function Starting<T>(flat: Flat<T>, name: string, yes: bool): Flat<T> {
    if |flat| == 0 then []
    else
      var last := flat[|flat| - 1];
      Starting(flat[..|flat| - 1], name, yes) + if (name <= last.0) == yes then [last] else []
  }

  function StartingMap<T>(m: map<string, T>, name: string, yes: bool): map<string, T> {
    map n | n in m && (name <= n) == yes :: m[n]
  }

  lemma StartingPut<T>(m: map<string, T>, n: string, v: T, name: string, yes: bool)
    requires n !in m
    ensures StartingMap(m[n := v], name, yes) == if (name <= n) == yes then StartingMap(m, name, yes)[n := v] else StartingMap(m, name, yes)
  {
  }

  lemma DistinctLast<T>(flat: Flat<T>)
    requires |flat| > 0 && Distinct(flat)
    ensures Distinct(flat[..|flat| - 1]) && flat[|flat| - 1].0 !in Collect(flat[..|flat| - 1])
  {
    CollectIn(flat[..|flat| - 1], flat[|flat| - 1].0);
  }

  lemma DistinctAppend<T>(flat: Flat<T>, entry: (string, T))
    requires Distinct(flat) && entry.0 !in Collect(flat)
    ensures Distinct(flat + [entry]) && Collect(flat + [entry]) == Collect(flat)[entry.0 := entry.1]
  {
    CollectIn(flat, entry.0);
    AppendedDistinct(flat, entry);
    CollectAppended(flat, entry);
  }

  lemma AppendedDistinct<T>(flat: Flat<T>, entry: (string, T))
    requires Distinct(flat) && forall i | 0 <= i < |flat| :: flat[i].0 != entry.0
    ensures Distinct(flat + [entry])
  {
  }

  lemma CollectAppended<T>(flat: Flat<T>, entry: (string, T))
    ensures Collect(flat + [entry]) == Collect(flat)[entry.0 := entry.1]
  {
    assert (flat + [entry])[..|flat|] == flat;
  }

  lemma {:induction false} StartingCollect<T>(flat: Flat<T>, name: string, yes: bool)
    requires Distinct(flat)
    ensures Distinct(Starting(flat, name, yes)) && Collect(Starting(flat, name, yes)) == StartingMap(Collect(flat), name, yes)
  {
    if |flat| > 0 {
      var init, last := flat[..|flat| - 1], flat[|flat| - 1];
      DistinctLast(flat);
      StartingCollect(init, name, yes);
      StartingPut(Collect(init), last.0, last.1, name, yes);
      if (name <= last.0) == yes {
        DistinctAppend(Starting(init, name, yes), last);
      } else {
        assert Starting(init, name, yes) + [] == Starting(init, name, yes);
      }
    }
  }

  /** The text that a path of names stands for; `_norm_name_path` splits the parts, and `pop` joins them again. */
  function Norm(path: seq<string>): (parts: seq<string>)
    ensures path != [] ==> parts != []
  {
    if path == [] then [] else Split(path[0]) + Norm(path[1..])
  }

  function PathText(path: seq<string>): string {
    if path == [] then "" else Join(Norm(path))
  }

  /** A name in a tree starts with a text and goes on with a dot, or ends, exactly if it lies below the path of the text. */
  lemma {:induction false} BelowPath(name: string, n: string)
    ensures name <= n && (|name| == |n| || n[|name|] == '.') <==> Prefix(Split(name), Split(n))
  {
    JoinSplit(n);
    JoinSplit(name);
    if Prefix(Split(name), Split(n)) {
      JoinPrefix(Split(name), Split(n));
    }
    if name <= n && (|name| == |n| || n[|name|] == '.') {
      SplitPrefix(name, n);
    }
  }

  lemma {:induction false} JoinPrefix(p: seq<string>, q: seq<string>)
    requires p != [] && Prefix(p, q)
    ensures Join(p) <= Join(q) && (|Join(p)| == |Join(q)| || Join(q)[|Join(p)|] == '.')
    decreases |p|
  {
    assert q[0] == p[0];
    if |p| == 1 {
      if |q| > 1 {
        assert Join(q) == p[0] + ("." + Join(q[1..]));
      }
    } else {
      assert q[1..][..|p| - 1] == p[1..];
      JoinPrefix(p[1..], q[1..]);
      assert Join(q) == (p[0] + ".") + Join(q[1..]) && Join(p) == (p[0] + ".") + Join(p[1..]);
    }
  }

  lemma {:induction false} SplitPrefix(name: string, n: string)
    requires name <= n && (|name| == |n| || n[|name|] == '.')
    ensures Prefix(Split(name), Split(n))
    decreases |name|
  {
    if name == "" {
      if n != "" {
        assert Split(n)[..1] == [""];
      }
    } else {
      SplitPrefix(name[1..], n[1..]);
      var a, b := Split(name[1..]), Split(n[1..]);
      if name[0] == '.' {
        assert ([""] + b)[..|[""] + a|] == [""] + b[..|a|];
      } else {
        assert b[0] == b[..|a|][0] == a[0];
        assert Split(n)[..|a|] == [[n[0]] + b[0]] + b[..|a|][1..];
      }
    }
  }

  /** Splitting by a text gives the subtree below it exactly if no name goes on after the text without a dot. */
  lemma StartingIsSubtree<T>(m: map<string, T>, name: string)
    ensures (forall n | n in m :: n in StartingMap(m, name, true) <==> Prefix(Split(name), Split(n)))
       <==> forall n | n in m && name <= n :: |name| == |n| || n[|name|] == '.'
  {
    forall n | n in m
      ensures (n in StartingMap(m, name, true) <==> Prefix(Split(name), Split(n))) <==> (name <= n ==> |name| == |n| || n[|name|] == '.')
    {
      BelowPath(name, n);
    }
  }

  /** Popping `attn_output` takes `attn_output_norm` along. */
  lemma NormTakenAlong<T>(m: map<string, T>)
    requires "attn_output_norm.weight" in m
    ensures "attn_output_norm.weight" in StartingMap(m, "attn_output", true)
    ensures !Prefix(Split("attn_output"), Split("attn_output_norm.weight"))
  {
    var name, n := "attn_output", "attn_output_norm.weight";
    assert n[..11] == name;
    assert n[11] == '_';
    BelowPath(name, n);
  }

  /** The flat view of a tree as a dictionary in insertion order. */
  function FlatView<T>(d: Dict<T>): Flat<T> {
    PutAll([], Accum("", d))
  }

  lemma FlatViewIs<T>(d: Dict<T>)
    ensures Distinct(FlatView(d)) && Collect(FlatView(d)) == Flatten(d)
  {
    CollectPutAll(Accum("", d));
  }

  /** The two trees that the parts of a flat view nest into have just these parts as their flat views exactly if no name of
      a part is a dotted prefix of another in the same part. */
  lemma PopSplits<T>(d: Dict<T>, name: string)
    ensures var taken, kept := Nest(Starting(FlatView(d), name, true)), Nest(Starting(FlatView(d), name, false));
      && taken.Some? && Flatten(taken.value) == StartingMap(Flatten(d), name, true)
      && kept.Some? && Flatten(kept.value) == StartingMap(Flatten(d), name, false)
      <==> CleanNames(StartingMap(Flatten(d), name, true)) && CleanNames(StartingMap(Flatten(d), name, false))
    ensures CleanNames(Flatten(d)) ==>
      CleanNames(StartingMap(Flatten(d), name, true)) && CleanNames(StartingMap(Flatten(d), name, false))
    ensures StartingMap(Flatten(d), name, true).Keys !! StartingMap(Flatten(d), name, false).Keys
    ensures StartingMap(Flatten(d), name, true) + StartingMap(Flatten(d), name, false) == Flatten(d)
  {
    FlatViewIs(d);
    StartingCollect(FlatView(d), name, true);
    StartingCollect(FlatView(d), name, false);
    RoundTrip(Starting(FlatView(d), name, true));
    RoundTrip(Starting(FlatView(d), name, false));
    StartingDisjoint(Flatten(d), name);
  }

  lemma StartingDisjoint<T>(m: map<string, T>, name: string)
    ensures StartingMap(m, name, true).Keys !! StartingMap(m, name, false).Keys
    ensures StartingMap(m, name, true) + StartingMap(m, name, false) == m
  {
  }

  class Theta<T> {
    var tree: Dict<T>

    ghost predicate Valid()
      reads this
    {
      WellFormed(tree)
    }

    constructor (d: Dict<T>)
      requires WellFormed(d)
      ensures Valid() && tree == d
    {
      tree := d;
    }

    /** Flattens a subtree into the results. */
    static method AccumInto(prefix: string, d: Dict<T>, results: Flat<T>) returns (all: Flat<T>)
      ensures all == PutAll(results, Accum(prefix, d))
      decreases d
    {
      match d
      case Empty => all := results;
      case Entry(k, Leaf(v), rest) =>
        all := AccumInto(prefix, rest, Put(results, ChildName(prefix, k), v));
        var one := [(ChildName(prefix, k), v)];
        assert one[..0] == [] && PutAll(results, one) == Put(results, ChildName(prefix, k), v);
        PutAllConcat(results, one, Accum(prefix, rest));
      case Entry(k, Sub(sub), rest) =>
        all := AccumInto(ChildName(prefix, k), sub, results);
        all := AccumInto(prefix, rest, all);
        PutAllConcat(results, Accum(ChildName(prefix, k), sub), Accum(prefix, rest));
    }

    /** Moves the entries whose names start with the path to a theta of their own; `None` if nesting a part fails, in which
        case the tree may already have lost the other part. */
    method Pop(path: seq<string>) returns (popped: Option<Theta<T>>)
      requires Valid()
      modifies this
      ensures Valid()
      ensures var taken := Nest(Starting(FlatView(old(tree)), PathText(path), true));
        var kept := Nest(Starting(FlatView(old(tree)), PathText(path), false));
        && tree == (if kept.Some? then kept.value else old(tree))
        && (popped.Some? <==> kept.Some? && taken.Some?)
        && (popped.Some? ==> fresh(popped.value) && popped.value.Valid() && popped.value.tree == taken.value)
      ensures CleanNames(old(Flatten(tree))) ==>
        && popped.Some? && Flatten(popped.value.tree) == StartingMap(old(Flatten(tree)), PathText(path), true)
        && Flatten(tree) == StartingMap(old(Flatten(tree)), PathText(path), false)
        && Flatten(popped.value.tree).Keys !! Flatten(tree).Keys && Flatten(popped.value.tree) + Flatten(tree) == old(Flatten(tree))
    {
      var name := PathText(path);
      var flat := AccumInto("", tree, []);
      var accum: Flat<T>, rest: Flat<T> := [], [];
      for i := 0 to |flat|
        invariant accum == Starting(flat[..i], name, true) && rest == Starting(flat[..i], name, false)
      {
        assert flat[..i + 1][..i] == flat[..i];
        if name <= flat[i].0 {
          accum := accum + [flat[i]];
        } else {
          rest := rest + [flat[i]];
        }
      }
      assert flat[..|flat|] == flat;
      PopSplits(tree, name);
      var nested := FlatToNestedDict(rest);
      if nested.None? {
        return None;
      }
      NestWellFormed(rest);
      tree := nested.value;
      var taken := FlatToNestedDict(accum);
      if taken.None? {
        return None;
      }
      NestWellFormed(accum);
      var theta := new Theta(taken.value);
      popped := Some(theta);
    }
  }
}
