/** Dotted names and the tree of parameters they are nested into. */
module ThetaNames {
  import opened Wrappers

  // ---- Names ----

  /** `split(".")` */
  function Split(s: string): (parts: seq<string>)
    ensures |parts| >= 1 && forall i | 0 <= i < |parts| :: '.' !in parts[i]
  {
    if s == "" then [""]
    else if s[0] == '.' then [""] + Split(s[1..])
    else
      var rest := Split(s[1..]);
      [[s[0]] + rest[0]] + rest[1..]
  }

  /** `".".join` */
  function Join(parts: seq<string>): string
    requires parts != []
  {
    if |parts| == 1 then parts[0] else parts[0] + "." + Join(parts[1..])
  }

  lemma {:induction false} JoinSplit(s: string)
    ensures Join(Split(s)) == s
  {
    if s != "" {
      JoinSplit(s[1..]);
      var rest := Split(s[1..]);
      if s[0] == '.' {
        assert ([""] + rest)[1..] == rest;
        assert s == "" + "." + s[1..];
      } else {
        assert ([[s[0]] + rest[0]] + rest[1..])[1..] == rest[1..];
        if |rest| > 1 {
          assert [s[0]] + rest[0] + "." + Join(rest[1..]) == [s[0]] + (rest[0] + "." + Join(rest[1..]));
        }
        assert s == [s[0]] + s[1..];
      }
    }
  }

  lemma {:induction false} SplitJoin(parts: seq<string>)
    requires parts != [] && forall i | 0 <= i < |parts| :: '.' !in parts[i]
    ensures Split(Join(parts)) == parts
    decreases |parts|, |parts[0]|
  {
    var first := parts[0];
    if first == "" {
      if |parts| == 1 {
        assert parts == [""];
      } else {
        SplitJoin(parts[1..]);
        assert Join(parts)[1..] == Join(parts[1..]);
        assert parts == [""] + parts[1..];
      }
    } else {
      var parts' := [first[1..]] + parts[1..];
      assert first[0] in first;
      assert forall c | c in first[1..] :: c in first;
      SplitJoin(parts');
      assert parts'[1..] == parts[1..] && first == [first[0]] + first[1..];
      if |parts| > 1 {
        assert first + "." + Join(parts[1..]) == [first[0]] + (first[1..] + "." + Join(parts[1..]));
      }
      assert Join(parts) == [first[0]] + Join(parts');
      assert Join(parts)[1..] == Join(parts');
      assert parts == [[first[0]] + first[1..]] + parts[1..];
    }
  }

  /** The name of a child while a tree is flattened: an empty prefix adds no dot. */
  function ChildName(prefix: string, key: string): string {
    if prefix != "" then prefix + "." + key else key
  }

  function PathName(prefix: string, path: seq<string>): string
    requires path != []
    decreases |path|
  {
    if |path| == 1 then ChildName(prefix, path[0]) else PathName(ChildName(prefix, path[0]), path[1..])
  }

  lemma {:induction false} PathNameIs(prefix: string, path: seq<string>)
    requires path != [] && prefix != ""
    ensures PathName(prefix, path) == prefix + "." + Join(path)
    decreases |path|
  {
    if |path| > 1 {
      PathNameIs(ChildName(prefix, path[0]), path[1..]);
      assert prefix + "." + path[0] + "." + Join(path[1..]) == prefix + "." + (path[0] + "." + Join(path[1..]));
    }
  }

  /** At the top, the names of paths without an empty first part of several are the joined parts. */
  lemma TopName(path: seq<string>)
    requires path != [] && (path[0] != "" || |path| == 1)
    ensures PathName("", path) == Join(path)
  {
    if |path| > 1 {
      PathNameIs(path[0], path[1..]);
    }
  }

  /** No name that flattening produces starts with a dot. */
  lemma {:induction false} TopNameStart(path: seq<string>)
    requires path != [] && forall i | 0 <= i < |path| :: '.' !in path[i]
    ensures PathName("", path) == "" || PathName("", path)[0] != '.'
    decreases |path|
  {
    if path[0] != "" {
      TopName(path);
      assert path[0][0] in path[0];
    } else if |path| > 1 {
      TopNameStart(path[1..]);
    }
  }

  lemma LeadingDot(s: string)
    ensures s != "" && s[0] == '.' <==> |Split(s)| > 1 && Split(s)[0] == ""
  {
  }

  // ---- Trees ----

  /** A dictionary in insertion order. */
  datatype Dict<T> = Empty | Entry(key: string, node: Node<T>, rest: Dict<T>)

  datatype Node<T> = Leaf(value: T) | Sub(dict: Dict<T>)

  function Lookup<T>(d: Dict<T>, key: string): Option<Node<T>> {
    match d
    case Empty => None
    case Entry(k, node, rest) => if k == key then Some(node) else Lookup(rest, key)
  }

  /** Replaces an entry where it is, or appends a new one. */
  function Set<T>(d: Dict<T>, key: string, node: Node<T>): Dict<T> {
    match d
    case Empty => Entry(key, node, Empty)
    case Entry(k, n, rest) => if k == key then Entry(k, node, rest) else Entry(k, n, Set(rest, key, node))
  }

  predicate WellFormed<T>(d: Dict<T>) {
    match d
    case Empty => true
    case Entry(k, node, rest) =>
      && '.' !in k && Lookup(rest, k) == None && WellFormed(rest)
      && (node.Sub? ==> WellFormed(node.dict))
  }

  lemma {:induction false} SetLookup<T>(d: Dict<T>, key: string, node: Node<T>, other: string)
    ensures Lookup(Set(d, key, node), other) == if other == key then Some(node) else Lookup(d, other)
  {
    if d.Entry? {
      SetLookup(d.rest, key, node, other);
    }
  }

  lemma {:induction false} SetWellFormed<T>(d: Dict<T>, key: string, node: Node<T>)
    requires WellFormed(d) && '.' !in key && (node.Sub? ==> WellFormed(node.dict))
    ensures WellFormed(Set(d, key, node))
  {
    if d.Entry? && d.key != key {
      SetWellFormed(d.rest, key, node);
      SetLookup(d.rest, key, node, d.key);
    }
  }

  lemma {:induction false} LookupWellFormed<T>(d: Dict<T>, key: string)
    requires WellFormed(d) && Lookup(d, key).Some?
    ensures '.' !in key && (Lookup(d, key).value.Sub? ==> WellFormed(Lookup(d, key).value.dict))
  {
    if d.key != key {
      LookupWellFormed(d.rest, key);
    }
  }

  /** What lies at the end of a path. */
  function Get<T>(d: Dict<T>, path: seq<string>): Option<Node<T>>
    requires path != []
    decreases |path|
  {
    match Lookup(d, path[0])
    case None => None
    case Some(node) =>
      if |path| == 1 then Some(node)
      else if node.Leaf? then None
      else Get(node.dict, path[1..])
  }

  /** Nests one value below the parts of its name; `None` if a part on the way holds a value. */
  function Add<T>(d: Dict<T>, parts: seq<string>, v: T): Option<Dict<T>>
    requires parts != []
    decreases |parts|
  {
    if |parts| == 1 then Some(Set(d, parts[0], Leaf(v)))
    else
      var child := Lookup(d, parts[0]);
      if child.Some? && child.value.Leaf? then None
      else
        match Add(if child.Some? then child.value.dict else Empty, parts[1..], v)
        case None => None
        case Some(sub) => Some(Set(d, parts[0], Sub(sub)))
  }

  predicate Prefix(p: seq<string>, q: seq<string>) {
    |p| <= |q| && q[..|p|] == p
  }

  predicate Related(p: seq<string>, q: seq<string>) {
    Prefix(p, q) || Prefix(q, p)
  }

  lemma {:induction false} AddWellFormed<T>(d: Dict<T>, parts: seq<string>, v: T)
    requires WellFormed(d) && parts != [] && (forall i | 0 <= i < |parts| :: '.' !in parts[i]) && Add(d, parts, v).Some?
    ensures WellFormed(Add(d, parts, v).value)
    decreases |parts|
  {
    if |parts| == 1 {
      SetWellFormed(d, parts[0], Leaf(v));
    } else {
      var child := Lookup(d, parts[0]);
      if child.Some? {
        LookupWellFormed(d, parts[0]);
      }
      var from := if child.Some? then child.value.dict else Empty;
      AddWellFormed(from, parts[1..], v);
      SetWellFormed(d, parts[0], Sub(Add(from, parts[1..], v).value));
    }
  }

  /** The added value lies at its path, and what lies at unrelated paths stays. */
  lemma {:induction false} AddGet<T>(d: Dict<T>, parts: seq<string>, v: T, q: seq<string>)
    requires parts != [] && q != [] && Add(d, parts, v).Some?
    ensures q == parts ==> Get(Add(d, parts, v).value, q) == Some(Leaf(v))
    ensures !Related(q, parts) ==> Get(Add(d, parts, v).value, q) == Get(d, q)
    decreases |parts|
  {
    var child := Lookup(d, parts[0]);
    if |parts| == 1 {
      SetLookup(d, parts[0], Leaf(v), q[0]);
      if q[0] == parts[0] {
        assert q[..1] == parts;
      }
    } else {
      var from := if child.Some? then child.value.dict else Empty;
      var sub := Add(from, parts[1..], v).value;
      SetLookup(d, parts[0], Sub(sub), q[0]);
      if q[0] == parts[0] {
        if |q| == 1 {
          assert parts[..1] == q;
        } else {
          AddGet(from, parts[1..], v, q[1..]);
          assert q == [q[0]] + q[1..] && parts == [parts[0]] + parts[1..];
          if Related(q[1..], parts[1..]) {
            RelatedTail(q, parts);
          }
        }
      }
    }
  }

  lemma RelatedTail(q: seq<string>, parts: seq<string>)
    requires q != [] && parts != [] && q[0] == parts[0] && Related(q[1..], parts[1..])
    ensures Related(q, parts)
  {
    assert q == [q[0]] + q[1..] && parts == [parts[0]] + parts[1..];
    if Prefix(q[1..], parts[1..]) {
      assert parts[..|q|] == [parts[0]] + parts[1..][..|q| - 1];
    } else {
      assert q[..|parts|] == [q[0]] + q[1..][..|parts| - 1];
    }
  }

  /** Every value after adding one was there before or is the added one. */
  lemma {:induction false} AddOnly<T>(d: Dict<T>, parts: seq<string>, v: T, q: seq<string>)
    requires parts != [] && q != [] && Add(d, parts, v).Some?
    requires Get(Add(d, parts, v).value, q).Some? && Get(Add(d, parts, v).value, q).value.Leaf? && q != parts
    ensures Get(d, q) == Get(Add(d, parts, v).value, q)
    decreases |parts|
  {
    var child := Lookup(d, parts[0]);
    if |parts| == 1 {
      SetLookup(d, parts[0], Leaf(v), q[0]);
      assert |q| == 1 && q[0] == parts[0] ==> q == parts;
    } else {
      var from := if child.Some? then child.value.dict else Empty;
      var sub := Add(from, parts[1..], v).value;
      SetLookup(d, parts[0], Sub(sub), q[0]);
      if q[0] == parts[0] && |q| > 1 {
        assert q == [q[0]] + q[1..] && parts == [parts[0]] + parts[1..];
        AddOnly(from, parts[1..], v, q[1..]);
      }
    }
  }

  /** A value lies at the first `n` parts of the path, and the path goes on. */
  predicate Blocked<T>(d: Dict<T>, parts: seq<string>, n: nat) {
    0 < n < |parts| && Get(d, parts[..n]).Some? && Get(d, parts[..n]).value.Leaf?
  }

  /** Adding fails exactly if a value lies at a shorter part of the path. */
  lemma AddFails<T>(d: Dict<T>, parts: seq<string>, v: T)
    requires parts != []
    ensures Add(d, parts, v).None? <==> exists n :: Blocked(d, parts, n)
  {
    if Add(d, parts, v).None? {
      var n := FailsAt(d, parts, v);
      assert Blocked(d, parts, n);
    } else if n: nat :| Blocked(d, parts, n) {
      BlockedFails(d, parts, v, n);
    }
  }

  lemma {:induction false} FailsAt<T>(d: Dict<T>, parts: seq<string>, v: T) returns (n: nat)
    requires parts != [] && Add(d, parts, v).None?
    ensures Blocked(d, parts, n)
    decreases |parts|
  {
    var child := Lookup(d, parts[0]);
    if child.Some? && child.value.Leaf? {
      n := 1;
    } else {
      var from := if child.Some? then child.value.dict else Empty;
      var m := FailsAt(from, parts[1..], v);
      n := m + 1;
      assert parts[..n][1..] == parts[1..][..m];
    }
  }

  lemma {:induction false} BlockedFails<T>(d: Dict<T>, parts: seq<string>, v: T, n: nat)
    requires Blocked(d, parts, n)
    ensures Add(d, parts, v).None?
    decreases |parts|
  {
    if n > 1 {
      assert parts[..n][1..] == parts[1..][..n - 1];
      BlockedFails(Lookup(d, parts[0]).value.dict, parts[1..], v, n - 1);
    }
  }
}
