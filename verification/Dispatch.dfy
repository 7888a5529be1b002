/** Dispatch of overridable operators on the types of their arguments, with a cache of the targets found. */
module Dispatch {
  /** Types are only ever compared by `issubclass`. */
  type Type = nat

  type Subclass = (Type, Type) -> bool

  datatype Result<+T> = Ok(value: T) | TypeError

  datatype TypeExpr =
    | AllOfExprs(exprs: seq<TypeExpr>)
    | AllOfExprsVariadic(first: seq<TypeExpr>, last: TypeExpr)
    | AllOfType(types: seq<Type>)
    | AnyOfType(types: seq<Type>)

  /** What an override asks of one argument: nothing, a type, or a boolean expression over all argument types. */
  datatype Expected = Anything | Instance(t: Type) | Expr(e: TypeExpr)

  datatype Override = Override(salience: int, target: nat, spec: seq<Expected>, autoUnbox: bool, autoDequant: bool)

  /** The types that overrides may unbox or dequantize. */
  datatype Kinds = Kinds(tensor: Type, primitive: Type, quantized: Type)

  predicate Holds(sub: Subclass, e: TypeExpr, types: seq<Type>)
    decreases e
  {
    match e
    case AllOfExprs(exprs) =>
      |types| >= |exprs| && forall i | 0 <= i < |exprs| :: Holds(sub, exprs[i], [types[i]])
    case AllOfExprsVariadic(first, last) =>
      && |types| >= |first| + 1
      && (forall i | 0 <= i < |first| :: Holds(sub, first[i], [types[i]]))
      && (forall i | |first| <= i < |types| :: Holds(sub, last, [types[i]]))
    case AllOfType(required) => forall i | 0 <= i < |types| :: IsAny(sub, types[i], required)
    case AnyOfType(required) => exists i | 0 <= i < |types| :: IsAny(sub, types[i], required)
  }

  predicate IsAny(sub: Subclass, t: Type, required: seq<Type>) {
    exists j | 0 <= j < |required| :: sub(t, required[j])
  }

  predicate Accepts(sub: Subclass, k: Kinds, o: Override, expected: Type, actual: Type) {
    || sub(actual, expected)
    || (sub(expected, k.tensor) && ((o.autoUnbox && sub(actual, k.primitive)) || (o.autoDequant && sub(actual, k.quantized))))
  }

  /** Compares arguments from position `i` on, up to the first that does not fit; `issubclass` raises on an expression. */
  function MatchFrom(sub: Subclass, k: Kinds, o: Override, types: seq<Type>, i: nat): Result<bool>
    requires i <= |types| == |o.spec|
    decreases |types| - i
  {
    if i == |types| then Ok(true)
    else
      match o.spec[i]
      case Anything => MatchFrom(sub, k, o, types, i + 1)
      case Expr(_) => TypeError
      case Instance(t) => if Accepts(sub, k, o, t, types[i]) then MatchFrom(sub, k, o, types, i + 1) else Ok(false)
  }

  /** Whether an override applies to arguments of the given types. */
  function Matches(sub: Subclass, k: Kinds, o: Override, types: seq<Type>): Result<bool> {
    if |o.spec| > 0 && o.spec[0].Expr? then
      if |o.spec| > 1 then TypeError else Ok(Holds(sub, o.spec[0].e, types))
    else if |o.spec| != |types| then Ok(false)
    else MatchFrom(sub, k, o, types, 0)
  }

  // ---- Which overrides apply ----

  predicate HasExpr(spec: seq<Expected>) {
    exists i :: 0 <= i < |spec| && spec[i].Expr?
  }

  /** What the expectation of one position asks of its argument, for an override that may unbox or dequantize. */
  predicate Takes(sub: Subclass, k: Kinds, o: Override, i: nat, t: Type)
    requires i < |o.spec|
  {
    match o.spec[i]
    case Anything => true
    case Expr(_) => false
    case Instance(expected) =>
      || sub(t, expected)
      || (sub(expected, k.tensor) && sub(t, k.primitive) && o.autoUnbox)
      || (sub(expected, k.tensor) && sub(t, k.quantized) && o.autoDequant)
  }

  /** The type is a subclass of a member of the list. */
  ghost predicate Below(sub: Subclass, t: Type, required: seq<Type>) {
    exists r :: r in required && sub(t, r)
  }

  /** What a boolean type expression says of a list of types. */
  ghost predicate Says(sub: Subclass, e: TypeExpr, types: seq<Type>)
    decreases e
  {
    match e
    case AnyOfType(required) => exists t :: t in types && Below(sub, t, required)
    case AllOfType(required) => forall t | t in types :: Below(sub, t, required)
    case AllOfExprs(exprs) => |exprs| <= |types| && forall i | 0 <= i < |exprs| :: Says(sub, exprs[i], [types[i]])
    case AllOfExprsVariadic(first, last) =>
      && |first| < |types|
      && (forall i | 0 <= i < |first| :: Says(sub, first[i], [types[i]]))
      && (forall i | |first| <= i < |types| :: Says(sub, last, [types[i]]))
  }

  lemma {:induction false} HoldsSays(sub: Subclass, e: TypeExpr, types: seq<Type>)
    ensures Holds(sub, e, types) <==> Says(sub, e, types)
    decreases e
  {
    match e
    case AnyOfType(required) => AnySays(sub, types, required);
    case AllOfType(required) => AllSay(sub, types, required);
    case AllOfExprs(exprs) =>
      if |exprs| <= |types| {
        forall i | 0 <= i < |exprs| ensures Holds(sub, exprs[i], [types[i]]) <==> Says(sub, exprs[i], [types[i]]) {
          HoldsSays(sub, exprs[i], [types[i]]);
        }
      }
    case AllOfExprsVariadic(first, last) =>
      if |first| < |types| {
        forall i | 0 <= i < |first| ensures Holds(sub, first[i], [types[i]]) <==> Says(sub, first[i], [types[i]]) {
          HoldsSays(sub, first[i], [types[i]]);
        }
        forall i | |first| <= i < |types| ensures Holds(sub, last, [types[i]]) <==> Says(sub, last, [types[i]]) {
          HoldsSays(sub, last, [types[i]]);
        }
      }
  }

  lemma IsAnyIs(sub: Subclass, t: Type, required: seq<Type>)
    ensures IsAny(sub, t, required) <==> Below(sub, t, required)
  {
    if r :| r in required && sub(t, r) {
      var j :| 0 <= j < |required| && required[j] == r;
    }
  }

  lemma AnySays(sub: Subclass, types: seq<Type>, required: seq<Type>)
    ensures Holds(sub, AnyOfType(required), types) <==> exists t :: t in types && Below(sub, t, required)
  {
    forall t ensures IsAny(sub, t, required) <==> Below(sub, t, required) {
      IsAnyIs(sub, t, required);
    }
    if t :| t in types && Below(sub, t, required) {
      var i :| 0 <= i < |types| && types[i] == t;
      assert IsAny(sub, types[i], required);
    }
  }

  lemma AllSay(sub: Subclass, types: seq<Type>, required: seq<Type>)
    ensures Holds(sub, AllOfType(required), types) <==> forall t | t in types :: Below(sub, t, required)
  {
    forall t ensures IsAny(sub, t, required) <==> Below(sub, t, required) {
      IsAnyIs(sub, t, required);
    }
  }

  /** An override applies: its only expectation is an expression that holds, or there is an expectation for every argument,
      and every argument is taken. */
  ghost predicate Applies(sub: Subclass, k: Kinds, o: Override, types: seq<Type>) {
    if HasExpr(o.spec) then |o.spec| == 1 && Says(sub, o.spec[0].e, types)
    else |o.spec| == |types| && forall i | 0 <= i < |types| :: Takes(sub, k, o, i, types[i])
  }

  /** Matching raises: an expression is combined with other expectations, and it comes first, or all arguments before it are
      taken. */
  ghost predicate Mixed(sub: Subclass, k: Kinds, o: Override, types: seq<Type>) {
    && |o.spec| > 0
    && if o.spec[0].Expr? then |o.spec| > 1
       else |o.spec| == |types| && exists j :: FirstExpr(sub, k, o, types, j)
  }

  ghost predicate FirstExpr(sub: Subclass, k: Kinds, o: Override, types: seq<Type>, j: nat) {
    && j < |o.spec| == |types| && o.spec[j].Expr?
    && forall i | 0 <= i < j :: Takes(sub, k, o, i, types[i])
  }

  lemma {:induction false} MatchedFrom(sub: Subclass, k: Kinds, o: Override, types: seq<Type>, i: nat)
    requires i <= |types| == |o.spec|
    ensures MatchFrom(sub, k, o, types, i) == Ok(true) <==> forall j | i <= j < |types| :: Takes(sub, k, o, j, types[j])
    ensures MatchFrom(sub, k, o, types, i) == TypeError <==>
      exists j :: i <= j < |types| && o.spec[j].Expr? && forall n | i <= n < j :: Takes(sub, k, o, n, types[n])
    decreases |types| - i
  {
    if i < |types| {
      MatchedFrom(sub, k, o, types, i + 1);
      if MatchFrom(sub, k, o, types, i) == TypeError && !o.spec[i].Expr? {
        var j :| i + 1 <= j < |types| && o.spec[j].Expr? && forall n | i + 1 <= n < j :: Takes(sub, k, o, n, types[n]);
        assert forall n | i <= n < j :: Takes(sub, k, o, n, types[n]);
      }
      if j :| i <= j < |types| && o.spec[j].Expr? && forall n | i <= n < j :: Takes(sub, k, o, n, types[n]) {
        assert j > i ==> Takes(sub, k, o, i, types[i]);
      }
    }
  }

  /** An override is found to match exactly if it applies, and matching it raises exactly if it mixes expectations. */
  lemma MatchesApplies(sub: Subclass, k: Kinds, o: Override, types: seq<Type>)
    ensures Matches(sub, k, o, types) == Ok(true) <==> Applies(sub, k, o, types)
    ensures Matches(sub, k, o, types) == TypeError <==> Mixed(sub, k, o, types)
  {
    hide Takes, Holds, Says;
    if |o.spec| > 0 && o.spec[0].Expr? {
      assert HasExpr(o.spec);
      HoldsSays(sub, o.spec[0].e, types);
    } else if |o.spec| == |types| {
      MatchedFrom(sub, k, o, types, 0);
      if HasExpr(o.spec) {
        var j :| 0 <= j < |o.spec| && o.spec[j].Expr?;
        ExprTakesNothing(sub, k, o, j, types[j]);
      }
      if j :| 0 <= j < |types| && o.spec[j].Expr? && forall n | 0 <= n < j :: Takes(sub, k, o, n, types[n]) {
        assert FirstExpr(sub, k, o, types, j);
      }
    }
  }

  lemma ExprTakesNothing(sub: Subclass, k: Kinds, o: Override, i: nat, t: Type)
    requires i < |o.spec| && o.spec[i].Expr?
    ensures !Takes(sub, k, o, i, t)
  {
  }

  // ---- Matching a list of overrides ----

  /** The overrides that apply, in the order of the list. */
  function Matching(sub: Subclass, k: Kinds, os: seq<Override>, types: seq<Type>): seq<Override> {
    if os == [] then []
    else
      var o := os[|os| - 1];
      Matching(sub, k, os[..|os| - 1], types) + if Matches(sub, k, o, types) == Ok(true) then [o] else []
  }

  predicate Raises(sub: Subclass, k: Kinds, os: seq<Override>, types: seq<Type>) {
    exists i | 0 <= i < |os| :: Matches(sub, k, os[i], types) == TypeError
  }

  function Targets(os: seq<Override>): (ts: seq<nat>)
    ensures |ts| == |os| && forall i | 0 <= i < |os| :: ts[i] == os[i].target
  {
    seq(|os|, i requires 0 <= i < |os| => os[i].target)
  }

  function Reversed<T>(s: seq<T>): (r: seq<T>)
    ensures |r| == |s| && forall i | 0 <= i < |s| :: r[i] == s[|s| - 1 - i]
  {
    seq(|s|, i requires 0 <= i < |s| => s[|s| - 1 - i])
  }

  // ---- Sorting by salience ----

  predicate Sorted(os: seq<Override>) {
    forall i, j | 0 <= i < j < |os| :: os[i].salience <= os[j].salience
  }

  /** The overrides of one salience, in order. */
  function OfSalience(os: seq<Override>, v: int): seq<Override> {
    if os == [] then []
    else
      var o := os[|os| - 1];
      OfSalience(os[..|os| - 1], v) + if o.salience == v then [o] else []
  }

  /** Puts an override behind those that are not more salient. */
  function Insert(os: seq<Override>, o: Override): seq<Override> {
    if os == [] || os[|os| - 1].salience <= o.salience then os + [o]
    else Insert(os[..|os| - 1], o) + [os[|os| - 1]]
  }

  /** `sort` with the salience as its key: Python's sort is stable. */
  function StableSort(os: seq<Override>): seq<Override> {
    if os == [] then [] else Insert(StableSort(os[..|os| - 1]), os[|os| - 1])
  }

  predicate SameOrderAt(a: seq<Override>, b: seq<Override>, v: int) {
    OfSalience(a, v) == OfSalience(b, v)
  }

  lemma {:induction false} InsertSorted(os: seq<Override>, o: Override)
    requires Sorted(os)
    ensures Sorted(Insert(os, o)) && (forall x | x in Insert(os, o) :: x in os || x == o)
  {
    if os != [] && os[|os| - 1].salience > o.salience {
      var init, last := os[..|os| - 1], os[|os| - 1];
      InsertSorted(init, o);
      var r := Insert(init, o);
      forall i | 0 <= i < |r| ensures r[i].salience <= last.salience {
        assert r[i] in r;
      }
    }
  }

  function If(condition: bool, o: Override): seq<Override> {
    if condition then [o] else []
  }

  lemma AppendOfSalience(os: seq<Override>, o: Override, v: int)
    ensures OfSalience(os + [o], v) == OfSalience(os, v) + If(o.salience == v, o)
  {
    assert (os + [o])[..|os|] == os;
  }

  lemma {:induction false} InsertKeepsOrder(os: seq<Override>, o: Override, v: int)
    requires Sorted(os)
    ensures OfSalience(Insert(os, o), v) == OfSalience(os + [o], v)
  {
    if os != [] && os[|os| - 1].salience > o.salience {
      var init, last := os[..|os| - 1], os[|os| - 1];
      InsertKeepsOrder(init, o, v);
      assert os == init + [last];
      PassLast(init, last, o, Insert(init, o), v);
    }
  }

  /** An override passes a more salient one without changing the order among equals. */
  lemma PassLast(init: seq<Override>, last: Override, o: Override, inserted: seq<Override>, v: int)
    requires last.salience > o.salience && OfSalience(inserted, v) == OfSalience(init + [o], v)
    ensures OfSalience(inserted + [last], v) == OfSalience(init + [last] + [o], v)
  {
    AppendOfSalience(init, o, v);
    AppendOfSalience(inserted, last, v);
    AppendOfSalience(init, last, v);
    AppendOfSalience(init + [last], o, v);
    Exchange(OfSalience(init, v), If(o.salience == v, o), If(last.salience == v, last));
  }

  lemma Exchange(s: seq<Override>, x: seq<Override>, y: seq<Override>)
    requires x == [] || y == []
    ensures s + x + y == s + y + x
  {
  }

  /** Sorting orders by salience and keeps the order of registration among equals. */
  lemma {:induction false} SortIsStable(os: seq<Override>)
    ensures Sorted(StableSort(os)) && forall v: int :: SameOrderAt(StableSort(os), os, v)
  {
    if os != [] {
      var init, last := os[..|os| - 1], os[|os| - 1];
      SortIsStable(init);
      InsertSorted(StableSort(init), last);
      forall v: int ensures SameOrderAt(StableSort(os), os, v) {
        assert SameOrderAt(StableSort(init), init, v);
        InsertKeepsOrder(StableSort(init), last, v);
        assert (StableSort(init) + [last])[..|StableSort(init)|] == StableSort(init);
      }
    }
  }

  lemma {:induction false} OfSalienceIn(os: seq<Override>, v: int)
    ensures forall x | x in OfSalience(os, v) :: x in os && x.salience == v
    ensures forall x | x in os && x.salience == v :: x in OfSalience(os, v)
  {
    if os != [] {
      OfSalienceIn(os[..|os| - 1], v);
    }
  }

  lemma LastOfSalience(os: seq<Override>)
    requires os != []
    ensures var last := os[|os| - 1];
      OfSalience(os, last.salience) != [] && OfSalience(os, last.salience)[|OfSalience(os, last.salience)| - 1] == last
  {
  }

  /** There is no other way to do that. */
  lemma {:induction false} SortIsUnique(a: seq<Override>, b: seq<Override>)
    requires Sorted(a) && Sorted(b) && forall v: int :: SameOrderAt(a, b, v)
    ensures a == b
    decreases |a|
  {
    if a == [] {
      if b != [] {
        assert SameOrderAt(a, b, b[|b| - 1].salience);
        LastOfSalience(b);
      }
    } else {
      SameLast(a, b);
      var initA, initB := a[..|a| - 1], b[..|b| - 1];
      forall v: int ensures SameOrderAt(initA, initB, v) {
        assert SameOrderAt(a, b, v);
        DropLast(a, b, v);
      }
      SortIsUnique(initA, initB);
      assert a == initA + [a[|a| - 1]] && b == initB + [b[|b| - 1]];
    }
  }

  lemma DropLast(a: seq<Override>, b: seq<Override>, v: int)
    requires a != [] && b != [] && a[|a| - 1] == b[|b| - 1] && SameOrderAt(a, b, v)
    ensures SameOrderAt(a[..|a| - 1], b[..|b| - 1], v)
  {
    var x, y := OfSalience(a[..|a| - 1], v), OfSalience(b[..|b| - 1], v);
    var last := if a[|a| - 1].salience == v then [a[|a| - 1]] else [];
    assert (x + last)[..|x + last| - |last|] == x && (y + last)[..|y + last| - |last|] == y;
  }

  lemma SameLast(a: seq<Override>, b: seq<Override>)
    requires a != [] && Sorted(a) && Sorted(b) && forall v: int :: SameOrderAt(a, b, v)
    ensures b != [] && b[|b| - 1] == a[|a| - 1]
  {
    var x := a[|a| - 1];
    assert SameOrderAt(a, b, x.salience);
    LastOfSalience(a);
    OfSalienceIn(b, x.salience);
    var y := b[|b| - 1];
    assert SameOrderAt(a, b, y.salience);
    LastOfSalience(b);
    OfSalienceIn(a, y.salience);
    assert x in OfSalience(b, x.salience) && y in OfSalience(a, y.salience);
  }

  // ---- Sorting and matching ----

  lemma {:induction false} MatchingIn(sub: Subclass, k: Kinds, os: seq<Override>, types: seq<Type>)
    ensures forall x | x in Matching(sub, k, os, types) :: x in os && Matches(sub, k, x, types) == Ok(true)
    ensures forall x | x in os && Matches(sub, k, x, types) == Ok(true) :: x in Matching(sub, k, os, types)
  {
    if os != [] {
      MatchingIn(sub, k, os[..|os| - 1], types);
    }
  }

  lemma {:induction false} MatchingSorted(sub: Subclass, k: Kinds, os: seq<Override>, types: seq<Type>)
    requires Sorted(os)
    ensures Sorted(Matching(sub, k, os, types))
  {
    if os != [] {
      var init, last := os[..|os| - 1], os[|os| - 1];
      MatchingSorted(sub, k, init, types);
      MatchingIn(sub, k, init, types);
      var m := Matching(sub, k, init, types);
      forall i | 0 <= i < |m| ensures m[i].salience <= last.salience {
        assert m[i] in m;
      }
    }
  }

  lemma {:induction false} MatchingOfSalience(sub: Subclass, k: Kinds, os: seq<Override>, types: seq<Type>, v: int)
    ensures OfSalience(Matching(sub, k, os, types), v) == Matching(sub, k, OfSalience(os, v), types)
  {
    if os != [] {
      var init, last := os[..|os| - 1], os[|os| - 1];
      MatchingOfSalience(sub, k, init, types, v);
      var m, s := Matching(sub, k, init, types), OfSalience(init, v);
      assert (m + [last])[..|m|] == m && (s + [last])[..|s|] == s;
      assert m + [] == m && s + [] == s;
      var matched := if Matches(sub, k, last, types) == Ok(true) then [last] else [];
      var equal := if last.salience == v then [last] else [];
      assert OfSalience(m + matched, v) == OfSalience(m, v) + if matched == [] then [] else equal;
      assert Matching(sub, k, s + equal, types) == Matching(sub, k, s, types) + if equal == [] then [] else matched;
    }
  }

  /** Sorting and then matching is matching and then sorting. */
  lemma MatchingSort(sub: Subclass, k: Kinds, os: seq<Override>, types: seq<Type>)
    ensures Matching(sub, k, StableSort(os), types) == StableSort(Matching(sub, k, os, types))
  {
    SortIsStable(os);
    SortIsStable(Matching(sub, k, os, types));
    MatchingSorted(sub, k, StableSort(os), types);
    var a, b := Matching(sub, k, StableSort(os), types), StableSort(Matching(sub, k, os, types));
    forall v: int ensures SameOrderAt(a, b, v) {
      MatchingOfSalience(sub, k, StableSort(os), types, v);
      MatchingOfSalience(sub, k, os, types, v);
      assert SameOrderAt(StableSort(os), os, v) && SameOrderAt(b, Matching(sub, k, os, types), v);
    }
    SortIsUnique(a, b);
  }

  lemma {:induction false} SortKeepsElements(os: seq<Override>)
    ensures forall x :: x in StableSort(os) <==> x in os
  {
    if os != [] {
      var init, last := os[..|os| - 1], os[|os| - 1];
      SortKeepsElements(init);
      InsertKeepsElements(StableSort(init), last);
      assert os == init + [last];
    }
  }

  lemma {:induction false} InsertKeepsElements(os: seq<Override>, o: Override)
    ensures forall x :: x in Insert(os, o) <==> x in os || x == o
  {
    if os != [] && os[|os| - 1].salience > o.salience {
      InsertKeepsElements(os[..|os| - 1], o);
      assert os == os[..|os| - 1] + [os[|os| - 1]];
    }
  }

  lemma RaisesSorted(sub: Subclass, k: Kinds, os: seq<Override>, types: seq<Type>)
    ensures Raises(sub, k, StableSort(os), types) <==> Raises(sub, k, os, types)
  {
    SortKeepsElements(os);
    var s := StableSort(os);
    if Raises(sub, k, s, types) {
      var i :| 0 <= i < |s| && Matches(sub, k, s[i], types) == TypeError;
      assert s[i] in s;
      var j :| 0 <= j < |os| && os[j] == s[i];
    }
    if Raises(sub, k, os, types) {
      var i :| 0 <= i < |os| && Matches(sub, k, os[i], types) == TypeError;
      assert os[i] in os;
      var j :| 0 <= j < |s| && s[j] == os[i];
    }
  }

  lemma SortSorted(os: seq<Override>)
    requires Sorted(os)
    ensures StableSort(os) == os
  {
    SortIsStable(os);
    SortIsUnique(StableSort(os), os);
  }

  lemma SortStep(os: seq<Override>, o: Override)
    ensures StableSort(os + [o]) == Insert(StableSort(os), o)
  {
    assert (os + [o])[..|os|] == os;
  }

  /** Sorting a sorted list with one more override at its end. */
  lemma SortAppended(os: seq<Override>, o: Override)
    ensures StableSort(StableSort(os) + [o]) == StableSort(os + [o])
  {
    SortIsStable(os);
    SortSorted(StableSort(os));
    SortStep(os, o);
    SortStep(StableSort(os), o);
  }

  // ---- What is found ----

  /** The targets for arguments of the given types after a history of registrations. */
  function Found(sub: Subclass, k: Kinds, history: seq<Override>, types: seq<Type>): Result<seq<nat>> {
    if Raises(sub, k, history, types) then TypeError
    else Ok(Targets(FoundOverrides(sub, k, history, types)))
  }

  function FoundOverrides(sub: Subclass, k: Kinds, history: seq<Override>, types: seq<Type>): seq<Override> {
    Reversed(StableSort(Matching(sub, k, history, types)))
  }

  lemma {:induction false} ReversedOfSalience(os: seq<Override>, v: int)
    ensures OfSalience(Reversed(os), v) == Reversed(OfSalience(os, v))
  {
    if os != [] {
      var init, last := os[..|os| - 1], os[|os| - 1];
      ReversedOfSalience(init, v);
      assert Reversed(os) == [last] + Reversed(init);
      PrependOfSalience(last, Reversed(init), v);
      var s := OfSalience(init, v);
      assert Reversed(s + [last]) == [last] + Reversed(s);
    }
  }

  lemma {:induction false} PrependOfSalience(o: Override, os: seq<Override>, v: int)
    ensures OfSalience([o] + os, v) == (if o.salience == v then [o] else []) + OfSalience(os, v)
  {
    if os == [] {
      assert [o] + os == [o] && [o][..0] == [];
    } else {
      PrependOfSalience(o, os[..|os| - 1], v);
      assert ([o] + os)[..|os|] == [o] + os[..|os| - 1];
    }
  }

  /** The overrides that apply, in order of registration. */
  ghost function Applying(sub: Subclass, k: Kinds, history: seq<Override>, types: seq<Type>): seq<Override> {
    if history == [] then []
    else
      var init, last := history[..|history| - 1], history[|history| - 1];
      Applying(sub, k, init, types) + if Applies(sub, k, last, types) then [last] else []
  }

  lemma {:induction false} MatchingApplies(sub: Subclass, k: Kinds, history: seq<Override>, types: seq<Type>)
    ensures Matching(sub, k, history, types) == Applying(sub, k, history, types)
  {
    if history != [] {
      MatchingApplies(sub, k, history[..|history| - 1], types);
      MatchesApplies(sub, k, history[|history| - 1], types);
    }
  }

  /** Exactly the overrides that apply are found, the most salient first, and among equally salient ones the latest first. */
  lemma FoundOrder(sub: Subclass, k: Kinds, history: seq<Override>, types: seq<Type>, v: int)
    ensures var found := FoundOverrides(sub, k, history, types);
      && (forall x :: x in found <==> x in history && Applies(sub, k, x, types))
      && (forall i, j | 0 <= i < j < |found| :: found[i].salience >= found[j].salience)
      && OfSalience(found, v) == Reversed(OfSalience(Applying(sub, k, history, types), v))
  {
    hide Matches, Applies, Applying, Matching, StableSort, OfSalience;
    var m := Matching(sub, k, history, types);
    var found := FoundOverrides(sub, k, history, types);
    MatchingApplies(sub, k, history, types);
    SortIsStable(m);
    SortKeepsElements(m);
    MatchingIn(sub, k, history, types);
    ReversedOfSalience(StableSort(m), v);
    assert SameOrderAt(StableSort(m), m, v);
    forall x ensures x in found <==> x in StableSort(m) {
      if x in StableSort(m) {
        var i :| 0 <= i < |StableSort(m)| && StableSort(m)[i] == x;
        assert found[|found| - 1 - i] == x;
      }
    }
    forall x ensures x in m <==> x in history && Applies(sub, k, x, types) {
      MatchesApplies(sub, k, x, types);
    }
  }

  /** A lookup raises exactly if some override mixes expectations; otherwise it yields the targets that are found. */
  lemma FoundUnlessMixed(sub: Subclass, k: Kinds, history: seq<Override>, types: seq<Type>)
    ensures Found(sub, k, history, types) == TypeError <==> exists x :: x in history && Mixed(sub, k, x, types)
    ensures Found(sub, k, history, types) != TypeError ==>
      Found(sub, k, history, types) == Ok(Targets(FoundOverrides(sub, k, history, types)))
  {
    hide Matches, Mixed;
    if Raises(sub, k, history, types) {
      var i :| 0 <= i < |history| && Matches(sub, k, history[i], types) == TypeError;
      MatchesApplies(sub, k, history[i], types);
    } else if x :| x in history && Mixed(sub, k, x, types) {
      var i :| 0 <= i < |history| && history[i] == x;
      MatchesApplies(sub, k, x, types);
    }
  }

  // ---- The dispatcher ----

  class SignatureDispatcher {
    const sub: Subclass
    const kinds: Kinds
    var overrides: seq<Override>
    var targetCache: map<seq<Type>, seq<nat>>
    ghost var history: seq<Override>

    ghost predicate Valid()
      reads this
    {
      && overrides == StableSort(history)
      && forall types | types in targetCache ::
           !Raises(sub, kinds, overrides, types) && targetCache[types] == Targets(Matching(sub, kinds, overrides, types))
    }

    constructor (sub: Subclass, kinds: Kinds)
      ensures Valid() && history == [] && this.sub == sub && this.kinds == kinds
    {
      this.sub, this.kinds := sub, kinds;
      overrides, targetCache, history := [], map[], [];
    }

    /** Registers an override; what the cache holds is no longer right. */
    method Register(o: Override)
      requires Valid()
      modifies this
      ensures Valid() && history == old(history) + [o]
    {
      hide StableSort;
      SortAppended(history, o);
      overrides := StableSort(overrides + [o]);
      targetCache := map[];
      history := history + [o];
    }

    /** Looks the targets up, or matches all overrides and remembers the result. */
    method FindOverrides(types: seq<Type>) returns (r: Result<seq<nat>>)
      requires Valid()
      modifies this`targetCache
      ensures Valid() && r == Found(sub, kinds, history, types)
    {
      RaisesSorted(sub, kinds, history, types);
      MatchingSort(sub, kinds, history, types);
      var sorted := StableSort(Matching(sub, kinds, history, types));
      assert Reversed(Targets(sorted)) == Targets(Reversed(sorted));
      if types in targetCache {
        return Ok(Reversed(targetCache[types]));
      }
      var found := MatchTargets(types);
      match found
      case TypeError => r := TypeError;
      case Ok(targets) =>
        targetCache := targetCache[types := targets];
        r := Ok(Reversed(targets));
    }

    method MatchTargets(types: seq<Type>) returns (r: Result<seq<nat>>)
      ensures r == if Raises(sub, kinds, overrides, types) then TypeError else Ok(Targets(Matching(sub, kinds, overrides, types)))
    {
      var targets := [];
      for i := 0 to |overrides|
        invariant !Raises(sub, kinds, overrides[..i], types)
        invariant targets == Targets(Matching(sub, kinds, overrides[..i], types))
      {
        assert overrides[..i + 1][..i] == overrides[..i];
        match Matches(sub, kinds, overrides[i], types)
        case TypeError => return TypeError;
        case Ok(matched) =>
          if matched {
            targets := targets + [overrides[i].target];
          }
      }
      assert overrides[..|overrides|] == overrides;
      return Ok(targets);
    }
  }
}
