/** The request tree of the PrimaLuce Lab drivers (`primaluce_kv_node`): a
    node has a key, a list of key/value parameters and a list of child
    nodes; `push_param` and `create_object` append to those lists in place,
    and `to_json` turns the tree into the JSON object the device is sent.
    The JSON text `dump()` makes of that object is not modelled: a request
    is the JSON value itself. */
module PrimaLuceTree {
  import opened Wrappers
  import Devices

  /** `primaluce_value_t`: a double, an int, a uint32_t or a string. */
  datatype Value = Double(d: real) | Int(i: int) | Unsigned(u: Devices.uint32) | Str(s: string)

  /** The JSON values the requests and replies are made of. */
  datatype Json =
    | Null
    | Number(n: real)
    | Integer(i: int)
    | JString(s: string)
    | Object(members: map<string, Json>)

  /** A parameter, converted the way the variant serializer converts it. */
  function ValueJson(v: Value): (j: Json)
    ensures v.Str? <==> j.JString?
    ensures v.Double? <==> j.Number?
  {
    match v
    case Double(d) => Number(d)
    case Int(i) => Integer(i)
    case Unsigned(u) => Integer(u as int)
    case Str(s) => JString(s)
  }

  /** `j[k] = v`: a null value becomes an object first; an existing member
      of the same key is replaced. */
  function Set(j: Json, k: string, v: Json): (r: Json)
    requires j.Null? || j.Object?
    ensures r.Object? && r.members.Keys == (if j.Null? then {} else j.members.Keys) + {k}
    ensures r.members[k] == v
    ensures j.Object? ==> forall m :: m in j.members && m != k ==> r.members[m] == j.members[m]
  {
    Object((if j.Null? then map[] else j.members)[k := v])
  }

  /** `primaluce_node`. */
  datatype Param = Param(key: string, value: Value)

  /** The value a request tree stands for: what a `primaluce_kv_node` holds,
      with its children in place of the pointers to them. */
  datatype Tree = Tree(key: string, params: seq<Param>, children: seq<Tree>)

  /** The first loop of `to_json`: the parameters in order, each written
      over whatever the object already holds under its key. */
  function WithParams(ps: seq<Param>, j: Json): (r: Json)
    requires j.Null? || j.Object?
    ensures r.Null? || r.Object?
  {
    if ps == [] then j
    else
      var last := ps[|ps| - 1];
      Set(WithParams(ps[..|ps| - 1], j), last.key, ValueJson(last.value))
  }

  /** The second loop of `to_json` over the first `n` children: each child
      turned into JSON on its own and written under its key. */
  function WithChildren(t: Tree, n: nat, j: Json): (r: Json)
    requires n <= |t.children|
    requires j.Null? || j.Object?
    ensures r.Null? || r.Object?
    decreases t, n
  {
    if n == 0 then j
    else
      var c := t.children[n - 1];
      Set(WithChildren(t, n - 1, j), c.key, JsonOf(c, Null))
  }

  /** `to_json(j)`: the parameters, then the children, written into `j`. */
  function JsonOf(t: Tree, j: Json): (r: Json)
    requires j.Null? || j.Object?
    ensures r.Null? || r.Object?
    decreases t, |t.children| + 1
  {
    WithChildren(t, |t.children|, WithParams(t.params, j))
  }

  /** The value of the last parameter with key `k`, if any. */
  function LastParam(ps: seq<Param>, k: string): Option<Value>
  {
    if ps == [] then None
    else if ps[|ps| - 1].key == k then Some(ps[|ps| - 1].value)
    else LastParam(ps[..|ps| - 1], k)
  }

  /** The last child with key `k`, if any. */
  function LastChild(cs: seq<Tree>, k: string): Option<Tree>
  {
    if cs == [] then None
    else if cs[|cs| - 1].key == k then Some(cs[|cs| - 1])
    else LastChild(cs[..|cs| - 1], k)
  }

  /** What `j` holds under `k`, if anything. */
  function Lookup(j: Json, k: string): Option<Json>
  {
    if j.Object? && k in j.members then Some(j.members[k]) else None
  }

  /** After the parameter loop, a key holds the last parameter written
      under it, or what it held before. */
  lemma {:induction false} WithParamsLookup(ps: seq<Param>, j: Json, k: string)
    requires j.Null? || j.Object?
    ensures Lookup(WithParams(ps, j), k)
      == if LastParam(ps, k).Some? then Some(ValueJson(LastParam(ps, k).value)) else Lookup(j, k)
  {
    if ps != [] {
      WithParamsLookup(ps[..|ps| - 1], j, k);
    }
  }

  /** After the child loop, a key holds the JSON of the last child with
      that key, or what it held before. */
  lemma {:induction false} WithChildrenLookup(t: Tree, n: nat, j: Json, k: string)
    requires n <= |t.children|
    requires j.Null? || j.Object?
    ensures Lookup(WithChildren(t, n, j), k)
      == if LastChild(t.children[..n], k).Some? then Some(JsonOf(LastChild(t.children[..n], k).value, Null))
         else Lookup(j, k)
  {
    if n == 0 {
      assert t.children[..0] == [];
    } else {
      WithChildrenLookup(t, n - 1, j, k);
      ChildLookupStep(t, n, j, k);
    }
  }

  /** What the first `n - 1` children leave under a key, carried past the
      `n`-th. */
  lemma ChildLookupStep(t: Tree, n: nat, j: Json, k: string)
    requires 0 < n <= |t.children|
    requires j.Null? || j.Object?
    requires Lookup(WithChildren(t, n - 1, j), k)
      == if LastChild(t.children[..n - 1], k).Some? then Some(JsonOf(LastChild(t.children[..n - 1], k).value, Null))
         else Lookup(j, k)
    ensures Lookup(WithChildren(t, n, j), k)
      == if LastChild(t.children[..n], k).Some? then Some(JsonOf(LastChild(t.children[..n], k).value, Null))
         else Lookup(j, k)
  {
    LookupStep(t, n, j, k);
    LastChildStep(t.children, n, k);
  }

  /** One more child written: its key now holds its JSON. */
  lemma LookupStep(t: Tree, n: nat, j: Json, k: string)
    requires 0 < n <= |t.children|
    requires j.Null? || j.Object?
    ensures Lookup(WithChildren(t, n, j), k)
      == if t.children[n - 1].key == k then Some(JsonOf(t.children[n - 1], Null))
         else Lookup(WithChildren(t, n - 1, j), k)
  {
    var c := t.children[n - 1];
    LookupSet(WithChildren(t, n - 1, j), c.key, JsonOf(c, Null), k);
  }

  /** The last child with a key among the first `n`. */
  lemma LastChildStep(cs: seq<Tree>, n: nat, k: string)
    requires 0 < n <= |cs|
    ensures LastChild(cs[..n], k)
      == if cs[n - 1].key == k then Some(cs[n - 1]) else LastChild(cs[..n - 1], k)
  {
    assert cs[..n][..n - 1] == cs[..n - 1];
  }

  /** What a key holds once `j[key] = v` is done. */
  lemma LookupSet(j: Json, key: string, v: Json, k: string)
    requires j.Null? || j.Object?
    ensures Lookup(Set(j, key, v), k) == if k == key then Some(v) else Lookup(j, k)
  {
  }

  /** `to_json` writes the parameters first and the children after them, so
      under a repeated key a child wins over a parameter, and of two
      parameters (or two children) the later one wins; a key that neither
      uses keeps what `j` held. */
  lemma JsonOfLookup(t: Tree, j: Json, k: string)
    requires j.Null? || j.Object?
    ensures Lookup(JsonOf(t, j), k) ==
      if LastChild(t.children, k).Some? then Some(JsonOf(LastChild(t.children, k).value, Null))
      else if LastParam(t.params, k).Some? then Some(ValueJson(LastParam(t.params, k).value))
      else Lookup(j, k)
  {
    WithParamsLookup(t.params, j, k);
    WithChildrenLookup(t, |t.children|, WithParams(t.params, j), k);
    assert t.children[..|t.children|] == t.children;
  }

  /** A node with neither parameters nor children gives back the JSON value
      it is handed, unchanged. */
  lemma JsonOfLeaf(t: Tree, j: Json)
    requires j.Null? || j.Object?
    requires t.params == [] && t.children == []
    ensures JsonOf(t, j) == j
  {
  }

  /** A node that holds only what a chain of `create_object(path[0])
      ->create_object(path[1]) … ->push_param(k, v)` puts under it. */
  function ChainTree(key: string, path: seq<string>, k: string, v: Value): (t: Tree)
    ensures t.key == key
    decreases |path|
  {
    if path == [] then Tree(key, [Param(k, v)], [])
    else Tree(key, [], [ChainTree(path[0], path[1..], k, v)])
  }

  /** The request such a chain stands for: one object per key of the path,
      each holding the next, and the innermost holding `k: v`. */
  function PathJson(path: seq<string>, k: string, v: Value): (j: Json)
    ensures j.Object?
    decreases |path|
  {
    if path == [] then Object(map[k := ValueJson(v)])
    else Object(map[path[0] := PathJson(path[1..], k, v)])
  }

  /** The JSON of a chain is the nested object of its path. */
  lemma {:induction false} ChainJson(key: string, path: seq<string>, k: string, v: Value)
    ensures JsonOf(ChainTree(key, path, k, v), Null) == PathJson(path, k, v)
    decreases |path|
  {
    var t := ChainTree(key, path, k, v);
    if path == [] {
      assert WithParams(t.params, Null) == Set(Null, k, ValueJson(v)) by {
        assert t.params[..0] == [];
      }
    } else {
      ChainJson(path[0], path[1..], k, v);
      assert WithChildren(t, 1, Null) == Set(Null, path[0], JsonOf(t.children[0], Null));
    }
  }

  /** The value found by following `keys` from `j` through nested objects,
      if every key is there. */
  function At(j: Json, keys: seq<string>): Option<Json>
    decreases |keys|
  {
    if keys == [] then Some(j)
    else if j.Object? && keys[0] in j.members then At(j.members[keys[0]], keys[1..])
    else None
  }

  /** Following the path of a chain request, and then its parameter key,
      reaches the parameter's value, and following the path alone reaches
      an object that holds only that parameter. */
  lemma {:induction false} PathJsonAt(path: seq<string>, k: string, v: Value)
    ensures At(PathJson(path, k, v), path + [k]) == Some(ValueJson(v))
    ensures At(PathJson(path, k, v), path) == Some(Object(map[k := ValueJson(v)]))
    decreases |path|
  {
    if path != [] {
      PathJsonAt(path[1..], k, v);
      assert (path + [k])[1..] == path[1..] + [k];
    }
  }

  /** The node `n` holds the tree `t`: its key and parameters are those of
      `t`, and its children hold the children of `t`, in order. */
  predicate Mirrors(n: KvNode, t: Tree)
    reads *
    decreases t
  {
    n.key == t.key && n.nodes == t.params && |n.edges| == |t.children|
    && forall i :: 0 <= i < |t.children| ==> Mirrors(n.edges[i], t.children[i])
  }

  /** The `i`-th child of a node holds the `i`-th child of its tree. */
  lemma MirrorsChild(n: KvNode, t: Tree, i: nat)
    requires Mirrors(n, t) && i < |t.children|
    ensures i < |n.edges| && Mirrors(n.edges[i], t.children[i])
    ensures n.edges[i].key == t.children[i].key
  {
  }

  /** The child loop one step further. */
  lemma WithChildrenNext(t: Tree, i: nat, j: Json)
    requires i < |t.children| && (j.Null? || j.Object?)
    ensures WithChildren(t, i + 1, j)
      == Set(WithChildren(t, i, j), t.children[i].key, JsonOf(t.children[i], Null))
  {
  }

  /** `primaluce_kv_node`. */
  class KvNode {
    var key: string
    var nodes: seq<Param>
    var edges: seq<KvNode>

    constructor ()
      ensures key == "" && nodes == [] && edges == []
    {
      key := "";
      nodes := [];
      edges := [];
    }

    /** `push_param`: appends one parameter and returns this same node. */
    method PushParam(k: string, v: Value) returns (r: KvNode)
      modifies this
      ensures nodes == old(nodes) + [Param(k, v)]
      ensures edges == old(edges) && key == old(key)
      ensures r == this
    {
      nodes := nodes + [Param(k, v)];
      r := this;
    }

    /** `create_object`: appends one new, empty child with key `k` and
        returns that child. */
    method CreateObject(k: string) returns (child: KvNode)
      modifies this
      ensures fresh(child)
      ensures child.key == k && child.nodes == [] && child.edges == []
      ensures edges == old(edges) + [child]
      ensures nodes == old(nodes) && key == old(key)
    {
      child := new KvNode();
      child.key := k;
      edges := edges + [child];
    }

    /** `to_json(j)`: writes every parameter into `j`, then the JSON of
        every child under the child's key. The tree `t` the node holds is
        ghost: it bounds the recursion into the children. */
    method ToJson(j: Json, ghost t: Tree) returns (r: Json)
      requires j.Null? || j.Object?
      requires Mirrors(this, t)
      ensures r == JsonOf(t, j)
      decreases t, 2
    {
      r := WriteParams(j);
      assert nodes == t.params;
      r := WriteChildren(r, t);
    }

    /** The first loop of `to_json`. */
    method WriteParams(j: Json) returns (r: Json)
      requires j.Null? || j.Object?
      ensures r == WithParams(nodes, j)
    {
      r := j;
      var i := 0;
      while i < |nodes|
        invariant 0 <= i <= |nodes|
        invariant r == WithParams(nodes[..i], j)
      {
        assert nodes[..i + 1][..i] == nodes[..i];
        r := Set(r, nodes[i].key, ValueJson(nodes[i].value));
        i := i + 1;
      }
      assert nodes[..|nodes|] == nodes;
    }

    /** The second loop of `to_json`. */
    method WriteChildren(j: Json, ghost t: Tree) returns (r: Json)
      requires j.Null? || j.Object?
      requires Mirrors(this, t)
      ensures r == WithChildren(t, |t.children|, j)
      decreases t, 1
    {
      r := j;
      var i := 0;
      while i < |edges|
        invariant 0 <= i <= |edges| && Mirrors(this, t)
        invariant r == WithChildren(t, i, j)
      {
        r := WriteChild(r, i, t, j);
        i := i + 1;
      }
    }

    /** One pass of the second loop: the `i`-th child's JSON written under
        its key. */
    method WriteChild(r: Json, i: nat, ghost t: Tree, ghost j: Json) returns (r': Json)
      requires j.Null? || j.Object?
      requires Mirrors(this, t) && i < |t.children|
      requires r == WithChildren(t, i, j)
      ensures r' == WithChildren(t, i + 1, j)
      decreases t, 0
    {
      MirrorsChild(this, t, i);
      WithChildrenNext(t, i, j);
      var sub := edges[i].ToJson(Null, t.children[i]);
      r' := Set(r, edges[i].key, sub);
    }
  }

  /** Hangs the chain `create_object(path[0])->…->push_param(k, v)` under
      the empty node `n`. */
  method Extend(n: KvNode, path: seq<string>, k: string, v: Value)
    requires n.nodes == [] && n.edges == []
    modifies n
    ensures n.key == old(n.key)
    ensures Mirrors(n, ChainTree(n.key, path, k, v))
    decreases |path|
  {
    if path == [] {
      var same := n.PushParam(k, v);
    } else {
      var child := n.CreateObject(path[0]);
      Extend(child, path[1..], k, v);
    }
  }

  /** `root.create_object(path[0])->…->push_param(k, v); root.to_json()`:
      the request a command builder makes, as the nested object of the
      path. */
  method BuildRequest(path: seq<string>, k: string, v: Value) returns (j: Json)
    ensures j == PathJson(path, k, v)
  {
    var root := new KvNode();
    Extend(root, path, k, v);
    j := root.ToJson(Null, ChainTree("", path, k, v));
    ChainJson("", path, k, v);
  }
}
