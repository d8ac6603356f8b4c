/** Redaction of secret-keyed values in a dict/list structure that may share nodes and be
    cyclic. A structure is a graph of identified nodes; the result is a tree. */
module Redaction {
  import opened Prelude

  datatype Key = StrKey(name: string) | OtherKey(code: int)

  /** A value that is neither a dict nor a list. */
  datatype Atom = Text(s: string) | Scalar(code: int)

  datatype Value = Leaf(atom: Atom) | Ref(id: nat)

  datatype Node = DictNode(items: seq<(Key, Value)>) | ListNode(elems: seq<Value>)

  /** The heap reachable from the value being redacted, keyed by object identity. */
  type Graph = map<nat, Node>

  datatype Tree = TLeaf(atom: Atom) | TDict(items: seq<(Key, Tree)>) | TList(elems: seq<Tree>)

  const SECRET_EXACT: set<string> := {
    "linear_api_key", "api_key", "auth_token", "access_token", "bearer_token",
    "refresh_token", "client_secret", "password", "secret", "authorization"
  }
  const SECRET_SUBSTRINGS: seq<string> :=
    ["api_key", "apikey", "api-key", "secret_key", "secret-key", "secretkey"]
  const PLACEHOLDER := TLeaf(Text("***"))
  const SENTINEL := TLeaf(Text("<cycle>"))

  predicate IsSecretName(key: string) {
    var lowered := Lower(key);
    lowered in SECRET_EXACT || exists needle :: needle in SECRET_SUBSTRINGS && Contains(lowered, needle)
  }

  predicate IsSecret(k: Key) {
    k.StrKey? && IsSecretName(k.name)
  }

  predicate InGraph(g: Graph, v: Value) {
    v.Ref? ==> v.id in g
  }

  function Children(n: Node): (r: seq<Value>)
    ensures n.DictNode? ==> |r| == |n.items| && forall i :: 0 <= i < |r| ==> r[i] == n.items[i].1
    ensures n.ListNode? ==> r == n.elems
  {
    match n
    case DictNode(items) => seq(|items|, i requires 0 <= i < |items| => items[i].1)
    case ListNode(elems) => elems
  }

  predicate NodeInGraph(g: Graph, n: Node) {
    match n
    case DictNode(items) => forall i :: 0 <= i < |items| ==> InGraph(g, items[i].1)
    case ListNode(elems) => forall i :: 0 <= i < |elems| ==> InGraph(g, elems[i])
  }

  /** References never dangle. */
  ghost predicate Closed(g: Graph) {
    forall id :: id in g ==> NodeInGraph(g, g[id])
  }

  // ---------------------------------------------------------------------
  // What the recursion computes, given the nodes on the current path
  // ---------------------------------------------------------------------

  ghost function Redact(g: Graph, v: Value, seen: set<nat>): Tree
    requires Closed(g) && InGraph(g, v)
    decreases g.Keys - seen
  {
    if v.Leaf? then TLeaf(v.atom)
    else if v.id in seen then SENTINEL
    else
      assert NodeInGraph(g, g[v.id]);
      match g[v.id]
      case DictNode(items) => TDict(seq(|items|, i requires 0 <= i < |items| => RedactItem(g, items[i], seen, v.id)))
      case ListNode(elems) =>
        TList(seq(|elems|, i requires 0 <= i < |elems| => Redact(g, elems[i], seen + {v.id})))
  }

  ghost function RedactItem(g: Graph, item: (Key, Value), seen: set<nat>, id: nat): (Key, Tree)
    requires Closed(g) && InGraph(g, item.1) && id in g && id !in seen
    decreases g.Keys - seen, 0
  {
    (item.0, if IsSecret(item.0) then PLACEHOLDER else Redact(g, item.1, seen + {id}))
  }

  // ---------------------------------------------------------------------
  // The code: one shared set of path nodes, added to and discarded from
  // ---------------------------------------------------------------------

  class Redactor {
    var seen: set<nat>

    constructor ()
      ensures seen == {}
    {
      seen := {};
    }

    /** The set of path nodes is given back exactly as it was found. */
    method RedactValue(g: Graph, v: Value) returns (t: Tree)
      requires Closed(g) && InGraph(g, v)
      modifies this
      ensures seen == old(seen)
      ensures t == Redact(g, v, old(seen))
      decreases g.Keys - seen, 0
    {
      if v.Leaf? {
        return TLeaf(v.atom);
      }
      if v.id in seen {
        return SENTINEL;
      }
      assert NodeInGraph(g, g[v.id]);
      seen := seen + {v.id};
      match g[v.id] {
        case DictNode(items) =>
          var out := RedactItems(g, items, v.id);
          t := TDict(out);
        case ListNode(elems) =>
          var out := RedactElems(g, elems, v.id);
          t := TList(out);
      }
      seen := seen - {v.id};
    }

    method RedactItems(g: Graph, items: seq<(Key, Value)>, ghost id: nat) returns (out: seq<(Key, Tree)>)
      requires Closed(g) && NodeInGraph(g, DictNode(items)) && id in seen && id in g
      modifies this
      ensures seen == old(seen)
      ensures |out| == |items|
      ensures forall j :: 0 <= j < |out| ==> out[j] == RedactItem(g, items[j], old(seen) - {id}, id)
      decreases g.Keys - seen, 1
    {
      ghost var path := seen;
      assert path - {id} + {id} == path;
      out := [];
      for i := 0 to |items|
        invariant seen == path && |out| == i
        invariant forall j :: 0 <= j < i ==> out[j] == RedactItem(g, items[j], path - {id}, id)
      {
        var r := PLACEHOLDER;
        if !IsSecret(items[i].0) {
          r := RedactValue(g, items[i].1);
        }
        out := out + [(items[i].0, r)];
      }
    }

    method RedactElems(g: Graph, elems: seq<Value>, ghost id: nat) returns (out: seq<Tree>)
      requires Closed(g) && NodeInGraph(g, ListNode(elems)) && id in seen && id in g
      modifies this
      ensures seen == old(seen)
      ensures |out| == |elems|
      ensures forall j :: 0 <= j < |out| ==> out[j] == Redact(g, elems[j], old(seen))
      decreases g.Keys - seen, 1
    {
      ghost var path := seen;
      out := [];
      for i := 0 to |elems|
        invariant seen == path && |out| == i
        invariant forall j :: 0 <= j < i ==> out[j] == Redact(g, elems[j], path)
      {
        var r := RedactValue(g, elems[i]);
        out := out + [r];
      }
    }
  }

  // ---------------------------------------------------------------------
  // The tree unfolding, and redaction of a tree
  // ---------------------------------------------------------------------

  /** The structure written out as a tree, every shared node once per path that reaches it,
      cut where a path returns to a node it is already inside. Nothing is redacted. */
  ghost function Unfold(g: Graph, v: Value, seen: set<nat>): Tree
    requires Closed(g) && InGraph(g, v)
    decreases g.Keys - seen
  {
    if v.Leaf? then TLeaf(v.atom)
    else if v.id in seen then SENTINEL
    else
      assert NodeInGraph(g, g[v.id]);
      match g[v.id]
      case DictNode(items) =>
        TDict(seq(|items|, i requires 0 <= i < |items| => (items[i].0, Unfold(g, items[i].1, seen + {v.id}))))
      case ListNode(elems) =>
        TList(seq(|elems|, i requires 0 <= i < |elems| => Unfold(g, elems[i], seen + {v.id})))
  }

  function RedactTree(t: Tree): Tree
    decreases t
  {
    match t
    case TLeaf(_) => t
    case TDict(items) =>
      TDict(seq(|items|, i requires 0 <= i < |items| =>
        (items[i].0, if IsSecret(items[i].0) then PLACEHOLDER else RedactTree(items[i].1))))
    case TList(elems) => TList(seq(|elems|, i requires 0 <= i < |elems| => RedactTree(elems[i])))
  }

  /** Redacting the graph is redacting its unfolding: a shared node is redacted on every path
      that reaches it. */
  lemma {:induction false} RedactIsUnfolding(g: Graph, v: Value, seen: set<nat>)
    requires Closed(g) && InGraph(g, v)
    ensures Redact(g, v, seen) == RedactTree(Unfold(g, v, seen))
    decreases g.Keys - seen
  {
    if v.Ref? && v.id !in seen {
      assert NodeInGraph(g, g[v.id]);
      var kids := Children(g[v.id]);
      forall i | 0 <= i < |kids|
        ensures Redact(g, kids[i], seen + {v.id}) == RedactTree(Unfold(g, kids[i], seen + {v.id}))
      {
        RedactIsUnfolding(g, kids[i], seen + {v.id});
      }
      match g[v.id] {
        case DictNode(items) =>
          assert forall i :: 0 <= i < |items| ==> kids[i] == items[i].1;
          assert Redact(g, v, seen).items == RedactTree(Unfold(g, v, seen)).items;
        case ListNode(elems) =>
          assert Redact(g, v, seen).elems == RedactTree(Unfold(g, v, seen)).elems;
      }
    }
  }

  // ---------------------------------------------------------------------
  // Where the sentinel stands
  // ---------------------------------------------------------------------

  /** Follows child positions from `v`: the nodes passed on the way, and the value reached. */
  ghost function Follow(g: Graph, v: Value, path: seq<nat>): (r: Option<(seq<nat>, Value)>)
    requires Closed(g) && InGraph(g, v)
    ensures r.Some? ==> InGraph(g, r.value.1) && |r.value.0| == |path|
    decreases path
  {
    if path == [] then Some(([], v))
    else if v.Leaf? || path[0] >= |Children(g[v.id])| then None
    else
      assert NodeInGraph(g, g[v.id]);
      match Follow(g, Children(g[v.id])[path[0]], path[1..])
         case None => None
         case Some((nodes, w)) => Some(([v.id] + nodes, w))
  }

  function Subtree(t: Tree, path: seq<nat>): Option<Tree>
    decreases path
  {
    if path == [] then Some(t)
    else match t
         case TLeaf(_) => None
         case TDict(items) => if path[0] < |items| then Subtree(items[path[0]].1, path[1..]) else None
         case TList(elems) => if path[0] < |elems| then Subtree(elems[path[0]], path[1..]) else None
  }

  predicate SameShape(t: Tree, n: Node) {
    match n
    case DictNode(items) =>
      t.TDict? && |t.items| == |items| && forall i :: 0 <= i < |items| ==> t.items[i].0 == items[i].0
    case ListNode(elems) => t.TList? && |t.elems| == |elems|
  }

  /** Going through a node puts it in front: the way is free of repeats, and avoids `seen`,
      exactly when the rest of the way avoids `seen` and the node as well. */
  lemma FreshWay(id: nat, rest: seq<nat>, seen: set<nat>)
    requires id !in seen
    ensures (Distinct([id] + rest) && ToSet([id] + rest) !! seen) <==> (Distinct(rest) && ToSet(rest) !! seen + {id})
  {
    var nodes := [id] + rest;
    assert ToSet(nodes) == {id} + ToSet(rest);
    if Distinct(nodes) {
      forall i, j | 0 <= i < j < |rest| ensures rest[i] != rest[j] {
        assert nodes[i + 1] != nodes[j + 1];
      }
      forall x | x in rest ensures x != id {
        var i :| 0 <= i < |rest| && rest[i] == x;
        assert nodes[0] != nodes[i + 1];
      }
    }
  }

  /** A position of the structure is present in the unfolding exactly when no node repeats on
      the way to it; there it is the sentinel exactly when the node it reaches is already on
      that way, and otherwise the whole node, or the atom. */
  lemma {:induction false} SentinelExactlyAtRepeats(g: Graph, v: Value, seen: set<nat>, path: seq<nat>)
    requires Closed(g) && InGraph(g, v)
    requires Follow(g, v, path).Some?
    ensures var (nodes, w) := Follow(g, v, path).value;
            var at := Subtree(Unfold(g, v, seen), path);
            && (at.Some? <==> Distinct(nodes) && ToSet(nodes) !! seen)
            && (at.Some? ==>
                 match w
                 case Leaf(a) => at.value == TLeaf(a)
                 case Ref(id) => if id in nodes || id in seen then at.value == SENTINEL
                                 else SameShape(at.value, g[id]))
    decreases path
  {
    var (nodes, w) := Follow(g, v, path).value;
    if path == [] {
    } else {
      assert NodeInGraph(g, g[v.id]);
      var child := Children(g[v.id])[path[0]];
      var (rest, _) := Follow(g, child, path[1..]).value;
      assert nodes == [v.id] + rest;
      if v.id in seen {
        assert v.id in nodes && v.id in ToSet(nodes);
        assert Subtree(Unfold(g, v, seen), path) == None;
      } else {
        SentinelExactlyAtRepeats(g, child, seen + {v.id}, path[1..]);
        assert Subtree(Unfold(g, v, seen), path) == Subtree(Unfold(g, child, seen + {v.id}), path[1..]);
        FreshWay(v.id, rest, seen);
      }
    }
  }

  /** No dict key passed on the way to the position is secret. */
  predicate OpenPath(t: Tree, path: seq<nat>)
    decreases path
  {
    path == [] ||
    match t
    case TLeaf(_) => true
    case TDict(items) => path[0] < |items| ==> !IsSecret(items[path[0]].0) && OpenPath(items[path[0]].1, path[1..])
    case TList(elems) => path[0] < |elems| ==> OpenPath(elems[path[0]], path[1..])
  }

  /** Away from secret keys, redaction leaves every position of the unfolding where it was. */
  lemma {:induction false} RedactTreeKeepsOpenPaths(t: Tree, path: seq<nat>)
    requires OpenPath(t, path)
    ensures Subtree(RedactTree(t), path) ==
            match Subtree(t, path) case None => None case Some(s) => Some(RedactTree(s))
    decreases path
  {
    if path != [] {
      match t {
        case TLeaf(_) =>
        case TDict(items) =>
          if path[0] < |items| {
            RedactTreeKeepsOpenPaths(items[path[0]].1, path[1..]);
          }
        case TList(elems) =>
          if path[0] < |elems| {
            RedactTreeKeepsOpenPaths(elems[path[0]], path[1..]);
          }
      }
    }
  }

  // ---------------------------------------------------------------------
  // No secret survives, and once is enough
  // ---------------------------------------------------------------------

  /** Everything under a secret key is the placeholder, at every depth. */
  ghost predicate Clean(t: Tree)
    decreases t
  {
    match t
    case TLeaf(_) => true
    case TDict(items) =>
      forall i :: 0 <= i < |items| ==>
        if IsSecret(items[i].0) then items[i].1 == PLACEHOLDER else Clean(items[i].1)
    case TList(elems) => forall i :: 0 <= i < |elems| ==> Clean(elems[i])
  }

  lemma {:induction false} RedactTreeClean(t: Tree)
    ensures Clean(RedactTree(t))
    decreases t
  {
    match t {
      case TLeaf(_) =>
      case TDict(items) =>
        forall i | 0 <= i < |items| && !IsSecret(items[i].0)
          ensures Clean(RedactTree(items[i].1))
        {
          RedactTreeClean(items[i].1);
        }
      case TList(elems) =>
        forall i | 0 <= i < |elems|
          ensures Clean(RedactTree(elems[i]))
        {
          RedactTreeClean(elems[i]);
        }
    }
  }

  /** Redaction changes a tree exactly when something under a secret key is showing. */
  lemma {:induction false} CleanIffUnchanged(t: Tree)
    ensures Clean(t) <==> RedactTree(t) == t
    decreases t
  {
    match t {
      case TLeaf(_) =>
      case TDict(items) =>
        var r := RedactTree(t).items;
        forall i | 0 <= i < |items| && !IsSecret(items[i].0)
          ensures Clean(items[i].1) <==> RedactTree(items[i].1) == items[i].1
        {
          CleanIffUnchanged(items[i].1);
        }
        if Clean(t) {
          assert forall i :: 0 <= i < |items| ==> r[i] == items[i];
          assert r == items;
        }
        if RedactTree(t) == t {
          assert forall i :: 0 <= i < |items| ==> r[i] == items[i];
        }
      case TList(elems) =>
        var r := RedactTree(t).elems;
        forall i | 0 <= i < |elems|
          ensures Clean(elems[i]) <==> RedactTree(elems[i]) == elems[i]
        {
          CleanIffUnchanged(elems[i]);
        }
        if Clean(t) {
          assert r == elems;
        }
        if RedactTree(t) == t {
          assert forall i :: 0 <= i < |elems| ==> r[i] == elems[i];
        }
    }
  }

  lemma RedactClean(g: Graph, v: Value, seen: set<nat>)
    requires Closed(g) && InGraph(g, v)
    ensures Clean(Redact(g, v, seen))
  {
    RedactIsUnfolding(g, v, seen);
    RedactTreeClean(Unfold(g, v, seen));
  }

  // ---------------------------------------------------------------------
  // Redacting what came out of redaction
  // ---------------------------------------------------------------------

  /** `v` is a structure over the nodes of `g` that, written out, is the tree `t`. */
  ghost predicate Represents(g: Graph, v: Value, t: Tree) {
    Closed(g) && InGraph(g, v) && Unfold(g, v, {}) == t
  }

  /** Nodes out of reach do not matter, be they elsewhere in the heap or on the path. */
  lemma {:induction false} UnfoldFrame(g: Graph, h: Graph, v: Value, seen: set<nat>, path: set<nat>)
    requires Closed(g) && Closed(h) && InGraph(g, v)
    requires g.Keys <= h.Keys && forall id :: id in g ==> h[id] == g[id]
    requires seen * g.Keys == path * g.Keys
    ensures Unfold(h, v, path) == Unfold(g, v, seen)
    decreases g.Keys - seen
  {
    if v.Ref? {
      assert v.id in seen * g.Keys <==> v.id in path * g.Keys;
    }
    if v.Ref? && v.id !in seen {
      assert NodeInGraph(g, g[v.id]);
      assert (seen + {v.id}) * g.Keys == seen * g.Keys + {v.id};
      assert (path + {v.id}) * g.Keys == path * g.Keys + {v.id};
      var kids := Children(g[v.id]);
      forall i | 0 <= i < |kids|
        ensures Unfold(h, kids[i], path + {v.id}) == Unfold(g, kids[i], seen + {v.id})
      {
        UnfoldFrame(g, h, kids[i], seen + {v.id}, path + {v.id});
      }
      match g[v.id] {
        case DictNode(items) =>
          assert forall i :: 0 <= i < |items| ==> kids[i] == items[i].1;
          assert Unfold(h, v, path).items == Unfold(g, v, seen).items;
        case ListNode(elems) =>
          assert Unfold(h, v, path).elems == Unfold(g, v, seen).elems;
      }
    }
  }

  function Subtrees(t: Tree): (r: seq<Tree>)
    ensures forall i :: 0 <= i < |r| ==> r[i] < t
  {
    match t
    case TLeaf(_) => []
    case TDict(items) => seq(|items|, i requires 0 <= i < |items| => items[i].1)
    case TList(elems) => elems
  }

  /** The node with the shape of `t` and the given children. */
  function NodeOf(t: Tree, kids: seq<Value>): Node
    requires !t.TLeaf? && |kids| == |Subtrees(t)|
  {
    match t
    case TDict(items) => DictNode(seq(|items|, i requires 0 <= i < |items| => (items[i].0, kids[i])))
    case TList(_) => ListNode(kids)
  }

  /** Every tree is the unfolding of some structure, over nodes from `base` up. */
  lemma {:induction false} Represented(t: Tree, base: nat) returns (g: Graph, v: Value, top: nat)
    ensures Represents(g, v, t)
    ensures base <= top && forall id :: id in g ==> base <= id < top
    decreases t, |Subtrees(t)| + 1
  {
    if t.TLeaf? {
      g, v, top := map[], Leaf(t.atom), base;
    } else {
      var below, kids, root := SubtreesRepresented(t, |Subtrees(t)|, base);
      var node := NodeOf(t, kids);
      g, v, top := below[root := node], Ref(root), root + 1;
      assert forall i :: 0 <= i < |kids| ==> InGraph(g, kids[i]);
      assert NodeInGraph(g, node);
      forall id | id in below ensures NodeInGraph(g, g[id]) {
        assert NodeInGraph(below, below[id]);
      }
      forall i | 0 <= i < |kids| ensures Unfold(g, kids[i], {} + {root}) == Subtrees(t)[i] {
        assert Represents(below, kids[i], Subtrees(t)[i]);
        UnfoldFrame(below, g, kids[i], {}, {} + {root});
      }
      match t {
        case TDict(items) => assert Unfold(g, v, {}).items == items;
        case TList(elems) => assert Unfold(g, v, {}).elems == elems;
      }
    }
  }

  lemma {:induction false} SubtreesRepresented(t: Tree, n: nat, base: nat)
    returns (g: Graph, kids: seq<Value>, top: nat)
    requires n <= |Subtrees(t)|
    ensures |kids| == n && Closed(g)
    ensures forall i :: 0 <= i < n ==> Represents(g, kids[i], Subtrees(t)[i])
    ensures base <= top && forall id :: id in g ==> base <= id < top
    decreases t, n
  {
    if n == 0 {
      g, kids, top := map[], [], base;
    } else {
      var g1, kids1, middle := SubtreesRepresented(t, n - 1, base);
      var g2, kid, end := Represented(Subtrees(t)[n - 1], middle);
      g, kids, top := g1 + g2, kids1 + [kid], end;
      forall id | id in g ensures NodeInGraph(g, g[id]) {
        if id in g2 {
          assert NodeInGraph(g2, g2[id]);
        } else {
          assert NodeInGraph(g1, g1[id]);
        }
      }
      forall i | 0 <= i < n ensures Represents(g, kids[i], Subtrees(t)[i]) {
        if i < n - 1 {
          assert Represents(g1, kids1[i], Subtrees(t)[i]);
          UnfoldFrame(g1, g, kids[i], {}, {});
        } else {
          UnfoldFrame(g2, g, kid, {}, {});
        }
      }
    }
  }

  /** The result of redaction is a structure again, and redacting any structure it may be gives
      the same tree. */
  lemma RedactTwice(g: Graph, v: Value)
    requires Closed(g) && InGraph(g, v)
    ensures exists g2, v2 :: Represents(g2, v2, Redact(g, v, {}))
    ensures forall g2, v2 :: Represents(g2, v2, Redact(g, v, {})) ==> Redact(g2, v2, {}) == Redact(g, v, {})
  {
    var once := Redact(g, v, {});
    var g2, v2, _ := Represented(once, 0);
    assert Represents(g2, v2, once);
    RedactClean(g, v, {});
    CleanIffUnchanged(once);
    forall g2, v2 | Represents(g2, v2, once) ensures Redact(g2, v2, {}) == once {
      RedactIsUnfolding(g2, v2, {});
    }
  }

  // ---------------------------------------------------------------------
  // Which keys are secret, and what stands under them
  // ---------------------------------------------------------------------

  /** `s` has the text `sub` at position `i`. */
  predicate HasAt(s: string, i: nat, sub: string) {
    i + |sub| <= |s| && s[i..i + |sub|] == sub
  }

  ghost predicate Holds(s: string, sub: string) {
    exists i: nat :: HasAt(s, i, sub)
  }

  /** Lower-cased, one of these ten names, or a name that has one of these six texts in it. */
  ghost predicate NamesSecret(k: Key) {
    k.StrKey? &&
    var name := Lower(k.name);
    || name in {"linear_api_key", "api_key", "auth_token", "access_token", "bearer_token", "refresh_token", "client_secret",
                "password", "secret", "authorization"}
    || Holds(name, "api_key") || Holds(name, "apikey") || Holds(name, "api-key")
    || Holds(name, "secret_key") || Holds(name, "secret-key") || Holds(name, "secretkey")
  }

  lemma {:induction false} ContainsHolds(s: string, sub: string)
    ensures Contains(s, sub) <==> Holds(s, sub)
  {
    if sub <= s {
      assert HasAt(s, 0, sub);
    } else if s != "" {
      ContainsHolds(s[1..], sub);
      if Holds(s[1..], sub) {
        var i: nat :| HasAt(s[1..], i, sub);
        assert HasAt(s, i + 1, sub);
      }
      if Holds(s, sub) {
        var i: nat :| HasAt(s, i, sub);
        assert i > 0;
        assert HasAt(s[1..], i - 1, sub);
      }
    }
  }

  lemma SecretExactly(k: Key)
    ensures IsSecret(k) <==> NamesSecret(k)
  {
    if k.StrKey? {
      var name := Lower(k.name);
      hide Contains, Holds, Lower;
      forall sub ensures Contains(name, sub) <==> Holds(name, sub) {
        ContainsHolds(name, sub);
      }
      assert forall needle: string :: needle in SECRET_SUBSTRINGS <==>
        needle == "api_key" || needle == "apikey" || needle == "api-key"
        || needle == "secret_key" || needle == "secret-key" || needle == "secretkey";
    }
  }

  /** Every key stays; under a secret one stands "***", under any other the redaction of the value. */
  ghost predicate RedactedItems(g: Graph, items: seq<(Key, Value)>, out: seq<(Key, Tree)>, seen: set<nat>)
    requires Closed(g)
  {
    && |out| == |items|
    && forall i :: 0 <= i < |items| ==>
         && out[i].0 == items[i].0 && InGraph(g, items[i].1)
         && out[i].1 == if NamesSecret(items[i].0) then TLeaf(Text("***")) else Redact(g, items[i].1, seen)
  }

  ghost predicate RedactedElems(g: Graph, elems: seq<Value>, out: seq<Tree>, seen: set<nat>)
    requires Closed(g)
  {
    |out| == |elems| && forall i :: 0 <= i < |elems| ==> InGraph(g, elems[i]) && out[i] == Redact(g, elems[i], seen)
  }

  /** Redaction member by member, on any path: dicts keep their keys and lose what is under the secret
      ones, lists are redacted element by element, a node met again on its own path becomes
      "<cycle>", and everything else stays as it is. */
  lemma RedactsMembers(g: Graph, v: Value, seen: set<nat>)
    requires Closed(g) && InGraph(g, v)
    ensures v.Leaf? ==> Redact(g, v, seen) == TLeaf(v.atom)
    ensures v.Ref? && v.id in seen ==> Redact(g, v, seen) == TLeaf(Text("<cycle>"))
    ensures v.Ref? && v.id !in seen ==>
      var t := Redact(g, v, seen);
      if g[v.id].DictNode? then t.TDict? && RedactedItems(g, g[v.id].items, t.items, seen + {v.id})
      else t.TList? && RedactedElems(g, g[v.id].elems, t.elems, seen + {v.id})
  {
    hide IsSecret, NamesSecret;
    if v.Ref? && v.id !in seen {
      assert NodeInGraph(g, g[v.id]);
      forall k ensures IsSecret(k) <==> NamesSecret(k) {
        SecretExactly(k);
      }
    }
  }

  /** Any spelling of a key that carries one of the needles is secret. */
  lemma NeedleAnywhereIsSecret(pre: string, key: string, post: string)
    requires Lower(key) in SECRET_SUBSTRINGS
    ensures IsSecretName(pre + key + post)
  {
    assert Lower(pre + key + post) == Lower(pre) + Lower(key) + Lower(post);
    ContainsInfix(Lower(pre), Lower(key), Lower(post));
  }
}
