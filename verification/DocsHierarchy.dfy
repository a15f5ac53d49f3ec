/** The side bar of the documentation: module links are sorted into a tree by their paths, and the tree is
    printed, which takes it apart. The tree's objects are the entries of one list, references between them
    are indexes into it. */
module DocsHierarchy {
  import opened Common

  /** A folder or a module: the link kept under `__value`, and the children in order of creation. */
  datatype Node = Node(value: Option<string>, names: seq<string>, kids: map<string, nat>)

  type Path = seq<string>

  /** The key links are kept under, and the names every JavaScript object already has: segments with these names
      do not make a folder of their own. */
  const RESERVED: set<string> := {
    "__value", "__proto__", "constructor", "hasOwnProperty", "isPrototypeOf", "propertyIsEnumerable",
    "toLocaleString", "toString", "valueOf",
    "__defineGetter__", "__defineSetter__", "__lookupGetter__", "__lookupSetter__"
  }

  predicate Usable(path: Path) {
    path != [] && forall k :: 0 <= k < |path| ==> path[k] !in RESERVED
  }

  ghost predicate DistinctNames(names: seq<string>) {
    forall k, l :: 0 <= k < l < |names| ==> names[k] != names[l]
  }

  ghost predicate ChildrenLater(nodes: seq<Node>) {
    forall i, n :: 0 <= i < |nodes| && n in nodes[i].kids ==> i < nodes[i].kids[n] < |nodes|
  }

  ghost predicate NamesFit(node: Node) {
    DistinctNames(node.names) && forall n :: n in node.names <==> n in node.kids
  }

  ghost predicate OneParent(nodes: seq<Node>) {
    forall i, j, m, n :: 0 <= i < |nodes| && 0 <= j < |nodes| && m in nodes[i].kids && n in nodes[j].kids ==>
      nodes[i].kids[m] == nodes[j].kids[n] ==> i == j && m == n
  }

  /** A tree: children come after their parent in the list, and have no other. */
  ghost predicate Tree(nodes: seq<Node>) {
    && nodes != []
    && ChildrenLater(nodes)
    && (forall i :: 0 <= i < |nodes| ==> NamesFit(nodes[i]))
    && OneParent(nodes)
  }

  /** The node at the end of a path. */
  function Walk(nodes: seq<Node>, p: Path): (c: Option<nat>)
    requires Tree(nodes)
    ensures c.Some? ==> c.value < |nodes|
    decreases |p|
  {
    if p == [] then Some(0)
    else
      match Walk(nodes, p[..|p| - 1])
      case None => None
      case Some(parent) =>
        var name := p[|p| - 1];
        if name in nodes[parent].kids then Some(nodes[parent].kids[name]) else None
  }

  /** The link stored at a path. */
  function Lookup(nodes: seq<Node>, p: Path): Option<string>
    requires Tree(nodes)
  {
    match Walk(nodes, p)
    case None => None
    case Some(c) => nodes[c].value
  }

  lemma WalkDown(nodes: seq<Node>, p: Path, name: string)
    requires Tree(nodes)
    ensures Walk(nodes, p + [name]).Some? <==> Walk(nodes, p).Some? && name in nodes[Walk(nodes, p).value].kids
    ensures Walk(nodes, p + [name]).Some? ==> Walk(nodes, p + [name]).value == nodes[Walk(nodes, p).value].kids[name]
  {
    assert (p + [name])[..|p + [name]| - 1] == p;
  }

  /** A node lies at the end of one path only. */
  lemma {:induction false} WalkUnique(nodes: seq<Node>, p: Path, q: Path)
    requires Tree(nodes) && Walk(nodes, p).Some? && Walk(nodes, p) == Walk(nodes, q)
    ensures p == q
    decreases |p|
  {
    if p != [] && q != [] {
      WalkUnique(nodes, p[..|p| - 1], q[..|q| - 1]);
      assert p == p[..|p| - 1] + [p[|p| - 1]];
      assert q == q[..|q| - 1] + [q[|q| - 1]];
    }
  }

  // ---------------------------------------------------------------- inserting

  /** The link of the last module with this path. */
  function Last(modules: seq<(Path, string)>, p: Path): Option<string>
    decreases |modules|
  {
    if modules == [] then None
    else
      var m := modules[|modules| - 1];
      if m.0 == p then Some(m.1) else Last(modules[..|modules| - 1], p)
  }

  lemma {:induction false} LastMeans(modules: seq<(Path, string)>, p: Path, link: string)
    ensures Last(modules, p) == Some(link) <==>
              exists k :: 0 <= k < |modules| && modules[k] == (p, link) && forall j :: k < j < |modules| ==> modules[j].0 != p
    decreases |modules|
  {
    if modules != [] {
      var n := |modules| - 1;
      LastMeans(modules[..n], p, link);
      assert forall k :: 0 <= k < n ==> modules[..n][k] == modules[k];
    }
  }

  function AddChild(nodes: seq<Node>, i: nat, name: string): seq<Node>
    requires i < |nodes|
  {
    nodes[i := nodes[i].(names := nodes[i].names + [name], kids := nodes[i].kids[name := |nodes|])]
    + [Node(None, [], map[])]
  }

  lemma AddChildTree(nodes: seq<Node>, i: nat, name: string)
    requires Tree(nodes) && i < |nodes| && name !in nodes[i].kids
    ensures Tree(AddChild(nodes, i, name))
  {
    var t := AddChild(nodes, i, name);
    assert forall n :: n in t[i].kids <==> n == name || n in nodes[i].kids;
    assert NamesFit(t[i]) by {
      assert NamesFit(nodes[i]);
    }
    forall j | 0 <= j < |t| ensures NamesFit(t[j]) {
      assert j < |nodes| ==> NamesFit(nodes[j]);
    }
    assert ChildrenLater(t);
    AddChildOneParent(nodes, i, name);
  }

  lemma KidAfterAdding(nodes: seq<Node>, i: nat, name: string, j: nat, m: string)
    requires ChildrenLater(nodes) && i < |nodes| && name !in nodes[i].kids
    requires j <= |nodes| && m in AddChild(nodes, i, name)[j].kids
    ensures var kid := AddChild(nodes, i, name)[j].kids[m];
            if j == i && m == name then kid == |nodes|
            else j < |nodes| && m in nodes[j].kids && kid == nodes[j].kids[m] && kid < |nodes|
  {
  }

  lemma AddChildOneParent(nodes: seq<Node>, i: nat, name: string)
    requires ChildrenLater(nodes) && OneParent(nodes) && i < |nodes| && name !in nodes[i].kids
    ensures OneParent(AddChild(nodes, i, name))
  {
    var t := AddChild(nodes, i, name);
    forall j, k, m, n | 0 <= j < |t| && 0 <= k < |t| && m in t[j].kids && n in t[k].kids && t[j].kids[m] == t[k].kids[n]
      ensures j == k && m == n
    {
      KidAfterAdding(nodes, i, name, j, m);
      KidAfterAdding(nodes, i, name, k, n);
    }
  }

  lemma {:induction false} AddChildWalk(nodes: seq<Node>, i: nat, name: string, p: Path)
    requires Tree(nodes) && i < |nodes| && name !in nodes[i].kids && Tree(AddChild(nodes, i, name))
    ensures var w := Walk(AddChild(nodes, i, name), p);
            w == Walk(nodes, p) || (Walk(nodes, p).None? && w == Some(|nodes|))
    decreases |p|
  {
    if p != [] {
      AddChildWalk(nodes, i, name, p[..|p| - 1]);
    }
  }

  /** A new child adds no link. */
  lemma AddChildLookup(nodes: seq<Node>, i: nat, name: string, p: Path)
    requires Tree(nodes) && i < |nodes| && name !in nodes[i].kids && Tree(AddChild(nodes, i, name))
    ensures Lookup(AddChild(nodes, i, name), p) == Lookup(nodes, p)
  {
    AddChildWalk(nodes, i, name, p);
  }

  function SetValue(nodes: seq<Node>, i: nat, value: Option<string>): (r: seq<Node>)
    requires i < |nodes|
    ensures |r| == |nodes|
  {
    nodes[i := nodes[i].(value := value)]
  }

  /** Two lists with the same children everywhere. */
  ghost predicate SameShape(a: seq<Node>, b: seq<Node>) {
    |a| == |b| && forall i :: 0 <= i < |a| ==> a[i].names == b[i].names && a[i].kids == b[i].kids
  }

  lemma SameShapeTree(a: seq<Node>, b: seq<Node>)
    requires SameShape(a, b) && Tree(a)
    ensures Tree(b)
  {
  }

  lemma {:induction false} SameShapeWalk(a: seq<Node>, b: seq<Node>, p: Path)
    requires SameShape(a, b) && Tree(a) && Tree(b)
    ensures Walk(a, p) == Walk(b, p)
    decreases |p|
  {
    if p != [] {
      SameShapeWalk(a, b, p[..|p| - 1]);
    }
  }

  lemma SetValueLookup(nodes: seq<Node>, path: Path, value: Option<string>, p: Path)
    requires Tree(nodes) && Walk(nodes, path).Some?
    ensures var t := SetValue(nodes, Walk(nodes, path).value, value);
            SameShape(nodes, t) && Tree(t) && Lookup(t, p) == if p == path then value else Lookup(nodes, p)
  {
    var t := SetValue(nodes, Walk(nodes, path).value, value);
    SameShapeTree(nodes, t);
    SameShapeWalk(nodes, t, p);
    if Walk(nodes, p) == Walk(nodes, path) {
      WalkUnique(nodes, p, path);
    }
  }

  // ---------------------------------------------------------------- the order of printing

  /** The links below child number `k` and the later ones of node `i`, depth first, each with its path. */
  function Listing(nodes: seq<Node>, i: nat, prefix: Path, k: nat): (r: seq<(Path, string)>)
    requires Tree(nodes) && i < |nodes| && k <= |nodes[i].names|
    decreases |nodes| - i, |nodes[i].names| - k
  {
    if k == |nodes[i].names| then []
    else
      var name := nodes[i].names[k];
      assert name in nodes[i].names;
      var c := nodes[i].kids[name];
      (if nodes[c].value.Some? then [(prefix + [name], nodes[c].value.value)] else [])
      + Listing(nodes, c, prefix + [name], 0)
      + Listing(nodes, i, prefix, k + 1)
  }

  /** `p` goes through child number `k` or a later one. */
  ghost predicate Through(nodes: seq<Node>, i: nat, prefix: Path, k: nat, p: Path)
    requires i < |nodes|
  {
    prefix < p && exists l :: k <= l < |nodes[i].names| && nodes[i].names[l] == p[|prefix|]
  }

  lemma InListing(nodes: seq<Node>, i: nat, prefix: Path, k: nat, e: (Path, string))
    requires Tree(nodes) && i < |nodes| && k < |nodes[i].names| && nodes[i].names[k] in nodes[i].kids
    ensures var name := nodes[i].names[k];
            var c := nodes[i].kids[name];
            e in Listing(nodes, i, prefix, k) <==>
              || (e.0 == prefix + [name] && nodes[c].value == Some(e.1))
              || e in Listing(nodes, c, prefix + [name], 0)
              || e in Listing(nodes, i, prefix, k + 1)
  {
  }

  lemma {:induction false} Listed(nodes: seq<Node>, i: nat, prefix: Path, k: nat, p: Path, link: string)
    requires Tree(nodes) && Walk(nodes, prefix) == Some(i) && k <= |nodes[i].names|
    ensures (p, link) in Listing(nodes, i, prefix, k) <==> Through(nodes, i, prefix, k, p) && Lookup(nodes, p) == Some(link)
    decreases |nodes| - i, |nodes[i].names| - k
  {
    if k < |nodes[i].names| {
      var name := nodes[i].names[k];
      assert name in nodes[i].names;
      var c, path := nodes[i].kids[name], prefix + [name];
      WalkDown(nodes, prefix, name);
      Listed(nodes, c, path, 0, p, link);
      Listed(nodes, i, prefix, k + 1, p, link);
      InListing(nodes, i, prefix, k, (p, link));
      ThroughStep(nodes, i, prefix, k, p);
      ThroughAll(nodes, path, c, p);
    }
  }

  /** A path with a link below a node goes through one of its children. */
  lemma ThroughAll(nodes: seq<Node>, path: Path, c: nat, p: Path)
    requires Tree(nodes) && Walk(nodes, path) == Some(c)
    ensures path < p && Lookup(nodes, p).Some? ==> Through(nodes, c, path, 0, p)
    ensures Through(nodes, c, path, 0, p) ==> path < p
  {
    if path < p && Lookup(nodes, p).Some? {
      GoesThroughAChild(nodes, path, p);
    }
  }

  /** A path through child `k` or later ends there, goes on below it, or goes through a later one. */
  lemma ThroughStep(nodes: seq<Node>, i: nat, prefix: Path, k: nat, p: Path)
    requires i < |nodes| && k < |nodes[i].names|
    ensures var path := prefix + [nodes[i].names[k]];
            Through(nodes, i, prefix, k, p) <==> p == path || path < p || Through(nodes, i, prefix, k + 1, p)
  {
    var path := prefix + [nodes[i].names[k]];
    if prefix < p && p[|prefix|] == nodes[i].names[k] {
      assert p[..|path|] == path;
    }
    if p == path || path < p {
      assert p[..|prefix|] == path[..|prefix|] == prefix;
      assert p[|prefix|] == nodes[i].names[k];
    }
  }

  lemma {:induction false} GoesThroughAChild(nodes: seq<Node>, prefix: Path, p: Path)
    requires Tree(nodes) && prefix < p && Walk(nodes, p).Some?
    ensures Walk(nodes, prefix).Some? && Through(nodes, Walk(nodes, prefix).value, prefix, 0, p)
    decreases |p|
  {
    var q := p[..|p| - 1];
    if |q| == |prefix| {
      assert q == prefix;
      var i := Walk(nodes, prefix).value;
      assert p[|prefix|] in nodes[i].names;
    } else {
      assert prefix == q[..|prefix|];
      GoesThroughAChild(nodes, prefix, q);
    }
  }

  ghost predicate DistinctPaths(r: seq<(Path, string)>) {
    forall k, l :: 0 <= k < l < |r| ==> r[k].0 != r[l].0
  }

  lemma ListedBelow(nodes: seq<Node>, c: nat, path: Path)
    requires Tree(nodes) && Walk(nodes, path) == Some(c)
    ensures forall e :: e in Listing(nodes, c, path, 0) ==> path < e.0
  {
    forall e | e in Listing(nodes, c, path, 0) ensures path < e.0 {
      Listed(nodes, c, path, 0, e.0, e.1);
    }
  }

  lemma ListedLater(nodes: seq<Node>, i: nat, prefix: Path, k: nat)
    requires Tree(nodes) && Walk(nodes, prefix) == Some(i) && k < |nodes[i].names|
    ensures forall e :: e in Listing(nodes, i, prefix, k + 1) ==>
              |prefix| < |e.0| && e.0[|prefix|] != nodes[i].names[k]
  {
    forall e | e in Listing(nodes, i, prefix, k + 1)
      ensures |prefix| < |e.0| && e.0[|prefix|] != nodes[i].names[k]
    {
      Listed(nodes, i, prefix, k + 1, e.0, e.1);
    }
  }

  lemma {:induction false} NoPathTwice(nodes: seq<Node>, i: nat, prefix: Path, k: nat)
    requires Tree(nodes) && Walk(nodes, prefix) == Some(i) && k <= |nodes[i].names|
    ensures DistinctPaths(Listing(nodes, i, prefix, k))
    decreases |nodes| - i, |nodes[i].names| - k
  {
    if k < |nodes[i].names| {
      var name := nodes[i].names[k];
      assert name in nodes[i].names;
      var c, path := nodes[i].kids[name], prefix + [name];
      WalkDown(nodes, prefix, name);
      NoPathTwice(nodes, c, path, 0);
      NoPathTwice(nodes, i, prefix, k + 1);
      ListedBelow(nodes, c, path);
      ListedLater(nodes, i, prefix, k);
      Separate(path, nodes[c].value, Listing(nodes, c, path, 0), Listing(nodes, i, prefix, k + 1), |prefix|);
    }
  }

  lemma Separate(path: Path, value: Option<string>, below: seq<(Path, string)>, later: seq<(Path, string)>, at: nat)
    requires at < |path|
    requires DistinctPaths(below) && DistinctPaths(later)
    requires forall e :: e in below ==> path < e.0
    requires forall e :: e in later ==> at < |e.0| && e.0[at] != path[at]
    ensures DistinctPaths((if value.Some? then [(path, value.value)] else []) + below + later)
  {
    var own := if value.Some? then [(path, value.value)] else [];
    assert forall e :: e in own + below ==> at < |e.0| && e.0[at] == path[at];
    assert DistinctPaths(own + below);
    assert forall k :: 0 <= k < |own + below| ==> (own + below)[k] in own + below;
    assert forall k :: 0 <= k < |later| ==> later[k] in later;
  }

  /** Every path with a link is listed once, with its link, and nothing else is. */
  lemma EachPathOnce(nodes: seq<Node>, p: Path, link: string)
    requires Tree(nodes) && nodes[0].value.None?
    ensures DistinctPaths(Listing(nodes, 0, [], 0))
    ensures (p, link) in Listing(nodes, 0, [], 0) <==> Lookup(nodes, p) == Some(link)
  {
    NoPathTwice(nodes, 0, [], 0);
    Listed(nodes, 0, [], 0, p, link);
    if Lookup(nodes, p).Some? && p != [] {
      GoesThroughAChild(nodes, [], p);
    }
  }

  // ---------------------------------------------------------------- the order of creation

  /** The first of these paths that begins like `c`. */
  function First(paths: seq<Path>, c: Path): (k: nat)
    ensures k <= |paths| && (k < |paths| ==> c <= paths[k])
    ensures forall j :: 0 <= j < k ==> !(c <= paths[j])
  {
    if paths == [] || c <= paths[0] then 0 else 1 + First(paths[1..], c)
  }

  lemma {:induction false} FirstAppend(paths: seq<Path>, q: Path, c: Path)
    ensures First(paths + [q], c) == if First(paths, c) < |paths| then First(paths, c)
                                     else if c <= q then |paths| else |paths| + 1
  {
    if paths == [] {
      assert paths + [q] == [q] && [q][1..] == [];
    } else {
      assert (paths + [q])[1..] == paths[1..] + [q];
      FirstAppend(paths[1..], q, c);
    }
  }

  /** The children of the node at `c` are in the order in which paths through them came up. */
  ghost predicate ChildrenInOrder(nodes: seq<Node>, paths: seq<Path>, c: Path)
    requires Tree(nodes)
  {
    Walk(nodes, c).Some? ==>
      var names := nodes[Walk(nodes, c).value].names;
      forall k, l :: 0 <= k < l < |names| ==> First(paths, c + [names[k]]) < First(paths, c + [names[l]])
  }

  /** The tree has just the folders these paths go through, in the order in which they came up. */
  ghost predicate GrownFrom(nodes: seq<Node>, paths: seq<Path>)
    requires Tree(nodes)
  {
    && (forall c :: Walk(nodes, c).Some? <==> c == [] || First(paths, c) < |paths|)
    && (forall c :: ChildrenInOrder(nodes, paths, c))
  }

  lemma SameFirsts(nodes: seq<Node>, ps: seq<Path>, qs: seq<Path>)
    requires Tree(nodes) && GrownFrom(nodes, ps) && |ps| == |qs|
    requires forall c :: c != [] ==> First(ps, c) == First(qs, c)
    ensures GrownFrom(nodes, qs)
  {
    forall c ensures ChildrenInOrder(nodes, qs, c) {
      assert ChildrenInOrder(nodes, ps, c);
    }
  }

  /** A path that goes one segment further begins no other way. */
  lemma FirstLonger(ps: seq<Path>, q: Path, x: string, c: Path)
    requires c != q + [x] || First(ps, c) < |ps|
    ensures First(ps + [q + [x]], c) == First(ps + [q], c)
  {
    FirstAppend(ps, q, c);
    FirstAppend(ps, q + [x], c);
    if c <= q + [x] && c != q + [x] {
      assert c <= q;
    }
    if c <= q {
      assert c == q[..|c|] == (q + [x])[..|c|];
    }
  }

  /** Going down to a child that is there already. */
  lemma GrownByOld(nodes: seq<Node>, ps: seq<Path>, q: Path, x: string)
    requires Tree(nodes) && GrownFrom(nodes, ps + [q]) && Walk(nodes, q + [x]).Some?
    ensures GrownFrom(nodes, ps + [q + [x]])
  {
    FirstAppend(ps, q, q + [x]);
    forall c | c != [] ensures First(ps + [q], c) == First(ps + [q + [x]], c) {
      FirstLonger(ps, q, x, c);
    }
    SameFirsts(nodes, ps + [q], ps + [q + [x]]);
  }

  lemma LastSegment(c: Path, m: string, q: Path, n: string)
    ensures c + [m] == q + [n] ==> c == q && m == n
  {
    if c + [m] == q + [n] {
      assert c == (c + [m])[..|c + [m]| - 1] && q == (q + [n])[..|q + [n]| - 1];
      assert m == (c + [m])[|c|] && n == (q + [n])[|q|];
    }
  }

  lemma {:induction false} AddChildReaches(nodes: seq<Node>, i: nat, name: string, q: Path, c: Path)
    requires Tree(nodes) && Walk(nodes, q) == Some(i) && name !in nodes[i].kids && Tree(AddChild(nodes, i, name))
    ensures Walk(AddChild(nodes, i, name), c) == if c == q + [name] then Some(|nodes|) else Walk(nodes, c)
    decreases |c|
  {
    if c != [] {
      var before, last := c[..|c| - 1], c[|c| - 1];
      assert c == before + [last];
      AddChildReaches(nodes, i, name, q, before);
      LastSegment(before, last, q, name);
      WalkDown(nodes, before, last);
      WalkDown(AddChild(nodes, i, name), before, last);
      assert |q| != |q + [name]|;
      if Walk(nodes, before) == Some(i) {
        WalkUnique(nodes, before, q);
      }
    }
  }

  /** Creating a child puts it after its siblings. */
  lemma GrownByNew(nodes: seq<Node>, ps: seq<Path>, i: nat, q: Path, x: string)
    requires Tree(nodes) && GrownFrom(nodes, ps + [q]) && Walk(nodes, q) == Some(i) && x !in nodes[i].kids
    requires Tree(AddChild(nodes, i, x))
    ensures GrownFrom(AddChild(nodes, i, x), ps + [q + [x]])
  {
    var t, old0, new0 := AddChild(nodes, i, x), ps + [q], ps + [q + [x]];
    WalkDown(nodes, q, x);
    FirstAppend(ps, q, q + [x]);
    FirstAppend(ps, q + [x], q + [x]);
    forall c ensures Walk(t, c).Some? <==> c == [] || First(new0, c) < |new0| {
      AddChildReaches(nodes, i, x, q, c);
      if c != q + [x] {
        FirstLonger(ps, q, x, c);
      }
    }
    forall c ensures ChildrenInOrder(t, new0, c) {
      NewChildInOrder(nodes, ps, i, q, x, c);
    }
  }

  lemma NewChildInOrder(nodes: seq<Node>, ps: seq<Path>, i: nat, q: Path, x: string, c: Path)
    requires Tree(nodes) && GrownFrom(nodes, ps + [q]) && Walk(nodes, q) == Some(i) && x !in nodes[i].kids
    requires Tree(AddChild(nodes, i, x))
    ensures ChildrenInOrder(AddChild(nodes, i, x), ps + [q + [x]], c)
  {
    var t := AddChild(nodes, i, x);
    AddChildReaches(nodes, i, x, q, c);
    if Walk(t, c).Some? && c != q + [x] {
      var j := Walk(nodes, c).value;
      var names := nodes[j].names;
      assert ChildrenInOrder(nodes, ps + [q], c);
      if j == i {
        WalkUnique(nodes, c, q);
      }
      forall k | 0 <= k < |names| ensures First(ps + [q + [x]], c + [names[k]]) == First(ps + [q], c + [names[k]]) {
        assert NamesFit(nodes[j]);
        assert names[k] in names;
        assert c + [names[k]] != q + [x] by {
          LastSegment(c, names[k], q, x);
        }
        FirstLonger(ps, q, x, c + [names[k]]);
      }
      if c == q {
        NewComesLast(nodes, ps, i, q, x);
      }
    }
  }

  lemma NewComesLast(nodes: seq<Node>, ps: seq<Path>, i: nat, q: Path, x: string)
    requires Tree(nodes) && GrownFrom(nodes, ps + [q]) && Walk(nodes, q) == Some(i) && x !in nodes[i].kids
    ensures First(ps + [q + [x]], q + [x]) == |ps|
    ensures forall k :: 0 <= k < |nodes[i].names| ==> First(ps + [q], q + [nodes[i].names[k]]) < |ps|
  {
    WalkDown(nodes, q, x);
    FirstAppend(ps, q, q + [x]);
    FirstAppend(ps, q + [x], q + [x]);
    forall k | 0 <= k < |nodes[i].names| ensures First(ps + [q], q + [nodes[i].names[k]]) < |ps| {
      assert NamesFit(nodes[i]);
      assert nodes[i].names[k] in nodes[i].names;
      WalkDown(nodes, q, nodes[i].names[k]);
      FirstAppend(ps, q, q + [nodes[i].names[k]]);
    }
  }

  /** A new child adds no link, and is the one its path leads to. */
  lemma Created(nodes: seq<Node>, i: nat, q: Path, x: string)
    requires Tree(nodes) && Walk(nodes, q) == Some(i) && x !in nodes[i].kids
    ensures var t := AddChild(nodes, i, x);
            Tree(t) && Walk(t, q + [x]) == Some(|nodes|) && forall p :: Lookup(t, p) == Lookup(nodes, p)
  {
    AddChildTree(nodes, i, x);
    forall p ensures Lookup(AddChild(nodes, i, x), p) == Lookup(nodes, p) {
      AddChildLookup(nodes, i, x, p);
    }
    AddChildReaches(nodes, i, x, q, q + [x]);
  }

  lemma GrownSameShape(a: seq<Node>, b: seq<Node>, paths: seq<Path>)
    requires SameShape(a, b) && Tree(a) && Tree(b) && GrownFrom(a, paths)
    ensures GrownFrom(b, paths)
  {
    forall c ensures Walk(b, c) == Walk(a, c) && ChildrenInOrder(b, paths, c) {
      SameShapeWalk(a, b, c);
      assert ChildrenInOrder(a, paths, c);
    }
  }

  /** Starting with the root is starting with the empty path. */
  lemma GrownAtRoot(nodes: seq<Node>, ps: seq<Path>)
    requires Tree(nodes) && GrownFrom(nodes, ps)
    ensures GrownFrom(nodes, ps + [[]])
  {
    forall c ensures c != [] ==> (First(ps + [[]], c) == if First(ps, c) < |ps| then First(ps, c) else |ps| + 1) {
      FirstAppend(ps, [], c);
    }
    forall c ensures ChildrenInOrder(nodes, ps + [[]], c) {
      assert ChildrenInOrder(nodes, ps, c);
      if Walk(nodes, c).Some? {
        var names := nodes[Walk(nodes, c).value].names;
        forall k | 0 <= k < |names| ensures First(ps + [[]], c + [names[k]]) == First(ps, c + [names[k]]) {
          assert NamesFit(nodes[Walk(nodes, c).value]);
          assert names[k] in names;
          WalkDown(nodes, c, names[k]);
        }
      }
    }
  }

  /** A path comes before what lies below it, and, where two paths part, the one whose way came up first. */
  ghost predicate Precedes(paths: seq<Path>, p: Path, q: Path) {
    || p < q
    || exists n: nat :: n < |p| && n < |q| && p[..n] == q[..n] && First(paths, p[..n + 1]) < First(paths, q[..n + 1])
  }

  ghost predicate Ordered(paths: seq<Path>, listing: seq<(Path, string)>) {
    forall k, l :: 0 <= k < l < |listing| ==> Precedes(paths, listing[k].0, listing[l].0)
  }

  lemma PartingAt(paths: seq<Path>, prefix: Path, m: string, n: string, p: Path, q: Path)
    requires prefix + [m] <= p && prefix + [n] <= q && First(paths, prefix + [m]) < First(paths, prefix + [n])
    ensures Precedes(paths, p, q)
  {
    var k := |prefix|;
    assert p[..k + 1] == prefix + [m] && q[..k + 1] == prefix + [n];
    assert p[..k] == p[..k + 1][..k] == prefix && q[..k] == q[..k + 1][..k] == prefix;
  }

  lemma LaterIndex(nodes: seq<Node>, i: nat, prefix: Path, k: nat, e: (Path, string)) returns (l: nat)
    requires Tree(nodes) && Walk(nodes, prefix) == Some(i) && k <= |nodes[i].names|
    requires e in Listing(nodes, i, prefix, k)
    ensures k <= l < |nodes[i].names| && prefix + [nodes[i].names[l]] <= e.0
  {
    Listed(nodes, i, prefix, k, e.0, e.1);
    l :| k <= l < |nodes[i].names| && nodes[i].names[l] == e.0[|prefix|];
    GoesOn(prefix, e.0);
  }

  lemma LaterChild(nodes: seq<Node>, paths: seq<Path>, i: nat, prefix: Path, k: nat, p: Path, e: (Path, string))
    requires Tree(nodes) && Walk(nodes, prefix) == Some(i) && k < |nodes[i].names|
    requires ChildrenInOrder(nodes, paths, prefix)
    requires prefix + [nodes[i].names[k]] <= p && e in Listing(nodes, i, prefix, k + 1)
    ensures Precedes(paths, p, e.0)
  {
    var l := LaterIndex(nodes, i, prefix, k + 1, e);
    PartingAt(paths, prefix, nodes[i].names[k], nodes[i].names[l], p, e.0);
  }

  /** Everything at and below a path precedes all of these. */
  ghost predicate AllPreceded(paths: seq<Path>, path: Path, later: seq<(Path, string)>) {
    forall p, e :: path <= p && e in later ==> Precedes(paths, p, e.0)
  }

  lemma LaterChildren(nodes: seq<Node>, paths: seq<Path>, i: nat, prefix: Path, k: nat)
    requires Tree(nodes) && Walk(nodes, prefix) == Some(i) && k < |nodes[i].names|
    requires ChildrenInOrder(nodes, paths, prefix)
    ensures AllPreceded(paths, prefix + [nodes[i].names[k]], Listing(nodes, i, prefix, k + 1))
  {
    forall p, e | prefix + [nodes[i].names[k]] <= p && e in Listing(nodes, i, prefix, k + 1)
      ensures Precedes(paths, p, e.0)
    {
      LaterChild(nodes, paths, i, prefix, k, p, e);
    }
  }

  lemma GoesOn(prefix: Path, q: Path)
    requires prefix < q
    ensures prefix + [q[|prefix|]] <= q
  {
    assert q[..|prefix| + 1] == prefix + [q[|prefix|]];
  }

  /** The order of printing: depth first, children in the order in which they came up. */
  lemma {:induction false} ListedInOrder(nodes: seq<Node>, paths: seq<Path>, i: nat, prefix: Path, k: nat)
    requires Tree(nodes) && GrownFrom(nodes, paths) && Walk(nodes, prefix) == Some(i) && k <= |nodes[i].names|
    ensures Ordered(paths, Listing(nodes, i, prefix, k))
    decreases |nodes| - i, |nodes[i].names| - k
  {
    if k < |nodes[i].names| {
      var name := nodes[i].names[k];
      assert name in nodes[i].names;
      var c, path := nodes[i].kids[name], prefix + [name];
      WalkDown(nodes, prefix, name);
      ListedInOrder(nodes, paths, c, path, 0);
      ListedInOrder(nodes, paths, i, prefix, k + 1);
      ListedBelow(nodes, c, path);
      assert ChildrenInOrder(nodes, paths, prefix);
      LaterChildren(nodes, paths, i, prefix, k);
      JoinOrdered(paths, path, nodes[c].value, Listing(nodes, c, path, 0), Listing(nodes, i, prefix, k + 1));
    }
  }

  lemma JoinOrdered(paths: seq<Path>, path: Path, value: Option<string>, below: seq<(Path, string)>,
                    later: seq<(Path, string)>)
    requires Ordered(paths, below) && Ordered(paths, later)
    requires forall e :: e in below ==> path < e.0
    requires AllPreceded(paths, path, later)
    ensures Ordered(paths, (if value.Some? then [(path, value.value)] else []) + below + later)
  {
    var own := if value.Some? then [(path, value.value)] else [];
    assert forall e :: e in own + below ==> path <= e.0;
    assert forall k :: 0 <= k < |own + below| ==> (own + below)[k] in own + below;
    assert forall k :: 0 <= k < |below| ==> below[k] in below;
    assert forall k :: 0 <= k < |later| ==> later[k] in later;
    assert Ordered(paths, own + below);
  }

  function PathsOf(modules: seq<(Path, string)>): (r: seq<Path>)
    ensures |r| == |modules| && forall k :: 0 <= k < |r| ==> r[k] == modules[k].0
  {
    seq(|modules|, k requires 0 <= k < |modules| => modules[k].0)
  }

  // ---------------------------------------------------------------- the hierarchy

  /** The printed text: links at a depth, and the beginnings and ends of dropdowns. */
  datatype Token = Link(name: string, link: string, depth: nat) | Open(heading: string) | Close

  /** A printed link: its name and depth, and the headings of the dropdowns that are open around it. */
  datatype Place = Place(name: string, link: string, depth: nat, headings: seq<string>)

  function Shut(open: seq<string>): seq<string> {
    if open == [] then [] else open[..|open| - 1]
  }

  /** The links in the order of printing. */
  function Placed(tokens: seq<Token>, open: seq<string>): seq<Place> {
    if tokens == [] then []
    else match tokens[0]
         case Link(name, link, depth) => [Place(name, link, depth, open)] + Placed(tokens[1..], open)
         case Open(heading) => Placed(tokens[1..], open + [heading])
         case Close => Placed(tokens[1..], Shut(open))
  }

  /** The dropdowns that are open after the tokens; nothing if one is closed that was not. */
  function OpenAfter(tokens: seq<Token>, open: seq<string>): Option<seq<string>> {
    if tokens == [] then Some(open)
    else match tokens[0]
         case Link(_, _, _) => OpenAfter(tokens[1..], open)
         case Open(heading) => OpenAfter(tokens[1..], open + [heading])
         case Close => if open == [] then None else OpenAfter(tokens[1..], Shut(open))
  }

  /** Every dropdown opened is closed, and no other. */
  ghost predicate Nested(tokens: seq<Token>) {
    forall open :: OpenAfter(tokens, open) == Some(open)
  }

  lemma {:induction false} PlacedAppend(a: seq<Token>, b: seq<Token>, open: seq<string>)
    requires OpenAfter(a, open).Some?
    ensures OpenAfter(a + b, open) == OpenAfter(b, OpenAfter(a, open).value)
    ensures Placed(a + b, open) == Placed(a, open) + Placed(b, OpenAfter(a, open).value)
  {
    if a == [] {
      assert a + b == b;
    } else {
      assert (a + b)[1..] == a[1..] + b;
      match a[0]
      case Link(name, link, depth) =>
        PlacedAppend(a[1..], b, open);
        Regroup([Place(name, link, depth, open)], Placed(a[1..], open), Placed(b, OpenAfter(a, open).value));
      case Open(heading) => PlacedAppend(a[1..], b, open + [heading]);
      case Close => PlacedAppend(a[1..], b, Shut(open));
    }
  }

  lemma NestedAppend(a: seq<Token>, b: seq<Token>)
    requires Nested(a) && Nested(b)
    ensures Nested(a + b)
  {
    forall open ensures OpenAfter(a + b, open) == Some(open) {
      PlacedAppend(a, b, open);
    }
  }

  lemma MorePlaced(a: seq<Token>, b: seq<Token>, open: seq<string>, later: seq<Place>)
    requires Nested(a) && Nested(b)
    ensures Nested(a + b) && Placed(a + b, open) + later == Placed(a, open) + (Placed(b, open) + later)
  {
    PlacedAppend(a, b, open);
    NestedAppend(a, b);
    Regroup(Placed(a, open), Placed(b, open), later);
  }

  // ---------------------------------------------------------------- where a path is printed

  /** The folders that do not get a dropdown of their own. */
  predicate Skipped(name: string) {
    name in ["api", "common", "namespaces"]
  }

  lemma SkippedMeans(name: string)
    ensures Skipped(name) <==> name == "api" || name == "common" || name == "namespaces"
  {
  }

  /** The depth at which what lies directly below a path is printed: one more for every module and folder on the way,
      but two for a module named types at depth 0, and none for a folder that is skipped. */
  function DepthBelow(look: Path -> Option<string>, path: Path): nat
    decreases |path|
  {
    if path == [] then 0
    else
      var depth, name := DepthBelow(look, path[..|path| - 1]), path[|path| - 1];
      if look(path).Some? then (if depth == 0 && name == "types" then 2 else depth + 1)
      else if Skipped(name) then depth
      else depth + 1
  }

  /** The dropdowns around what lies at and below a path: one for every folder on the way that is no module and not
      skipped, and one for a module named types at depth 0. */
  function HeadingsAt(look: Path -> Option<string>, path: Path): seq<string>
    decreases |path|
  {
    if path == [] then []
    else
      var outer, name := HeadingsAt(look, path[..|path| - 1]), path[|path| - 1];
      if look(path).Some? then
        (if DepthBelow(look, path[..|path| - 1]) == 0 && name == "types" then outer + ["Types"] else outer)
      else if Skipped(name) then outer
      else outer + [name]
  }

  function PlaceOf(look: Path -> Option<string>, e: (Path, string)): Place {
    if e.0 == [] then Place("", e.1, 0, [])
    else Place(e.0[|e.0| - 1], e.1, DepthBelow(look, e.0[..|e.0| - 1]), HeadingsAt(look, e.0))
  }

  function Places(look: Path -> Option<string>, listing: seq<(Path, string)>): (r: seq<Place>)
    ensures |r| == |listing| && forall k :: 0 <= k < |r| ==> r[k] == PlaceOf(look, listing[k])
  {
    seq(|listing|, k requires 0 <= k < |listing| => PlaceOf(look, listing[k]))
  }

  /** The links below a path are those looked up. */
  ghost predicate Agrees(nodes: seq<Node>, look: Path -> Option<string>, prefix: Path)
    requires Tree(nodes)
  {
    forall q :: prefix < q ==> Lookup(nodes, q) == look(q)
  }

  lemma AgreesBelow(nodes: seq<Node>, look: Path -> Option<string>, prefix: Path, name: string)
    requires Tree(nodes) && Agrees(nodes, look, prefix)
    ensures Agrees(nodes, look, prefix + [name]) && Lookup(nodes, prefix + [name]) == look(prefix + [name])
  {
    forall q | prefix + [name] < q ensures Lookup(nodes, q) == look(q) {
      BelowChild(prefix, name, q);
    }
  }

  lemma PlaceBelow(look: Path -> Option<string>, prefix: Path, name: string)
    ensures var path := prefix + [name];
            && path[..|path| - 1] == prefix && path[|path| - 1] == name
            && DepthBelow(look, path) == Deeper(name, look(path), DepthBelow(look, prefix))
  {
    var path := prefix + [name];
    assert path[..|path| - 1] == prefix;
  }

  /** The links that are non-empty strings: what the Markdown the modules are read from can give. */
  ghost predicate RealLinks(nodes: seq<Node>) {
    forall i :: 0 <= i < |nodes| ==> nodes[i].value != Some("")
  }

  /** `q` goes through one of the first `k` children of the node at `prefix`. */
  ghost predicate Before(names: seq<string>, prefix: Path, k: nat, q: Path) {
    prefix < q && exists l :: 0 <= l < k && l < |names| && names[l] == q[|prefix|]
  }

  /** `b` is `a` after the first `k` children of node `i`, at `prefix`, have been printed: their links are gone. */
  ghost predicate Printed(a: seq<Node>, b: seq<Node>, i: nat, prefix: Path, k: nat)
    requires Tree(a) && i < |a|
  {
    && SameShape(a, b) && Tree(b)
    && forall q :: Lookup(b, q) == if Before(a[i].names, prefix, k, q) then None else Lookup(a, q)
  }

  lemma BeforeStep(names: seq<string>, prefix: Path, k: nat, q: Path)
    requires k < |names| && DistinctNames(names)
    ensures var path := prefix + [names[k]];
            && (Before(names, prefix, k + 1, q) <==> Before(names, prefix, k, q) || q == path || path < q)
            && (q == path || path < q ==> !Before(names, prefix, k, q))
  {
    var path := prefix + [names[k]];
    if prefix < q && q[|prefix|] == names[k] {
      assert q[..|path|] == path;
    }
    if q == path || path < q {
      assert q[..|prefix|] == path[..|prefix|] == prefix;
      assert q[|prefix|] == names[k];
    }
  }

  lemma BelowChild(prefix: Path, name: string, q: Path)
    requires prefix + [name] < q
    ensures prefix < q
  {
    assert q[..|prefix|] == (prefix + [name])[..|prefix|] == prefix;
  }

  ghost predicate SameLinksBelow(a: seq<Node>, b: seq<Node>, prefix: Path)
    requires Tree(a) && Tree(b)
  {
    forall q :: prefix < q ==> Lookup(a, q) == Lookup(b, q)
  }

  lemma SameLinksOfChild(a: seq<Node>, b: seq<Node>, prefix: Path, name: string)
    requires Tree(a) && Tree(b) && SameShape(a, b) && SameLinksBelow(a, b, prefix) && Walk(a, prefix + [name]).Some?
    ensures SameLinksBelow(a, b, prefix + [name])
    ensures var c := Walk(a, prefix + [name]).value; a[c].value == b[c].value
  {
    var path := prefix + [name];
    SameShapeWalk(a, b, path);
    assert Lookup(a, path) == Lookup(b, path);
    forall q | path < q ensures Lookup(a, q) == Lookup(b, q) {
      BelowChild(prefix, name, q);
    }
  }

  lemma ListingStep(a: seq<Node>, b: seq<Node>, i: nat, prefix: Path, k: nat)
    requires Tree(a) && Tree(b) && SameShape(a, b) && i < |a| && k < |a[i].names| && a[i].names[k] in a[i].kids
    requires var name := a[i].names[k];
             var c := a[i].kids[name];
             && a[c].value == b[c].value
             && Listing(a, c, prefix + [name], 0) == Listing(b, c, prefix + [name], 0)
             && Listing(a, i, prefix, k + 1) == Listing(b, i, prefix, k + 1)
    ensures Listing(a, i, prefix, k) == Listing(b, i, prefix, k)
  {
  }

  /** Two trees of one shape, with the same links below a node, list the same there. */
  lemma {:induction false} ListingSame(a: seq<Node>, b: seq<Node>, i: nat, prefix: Path, k: nat)
    requires Tree(a) && Tree(b) && SameShape(a, b) && Walk(a, prefix) == Some(i) && k <= |a[i].names|
    requires SameLinksBelow(a, b, prefix)
    ensures Listing(a, i, prefix, k) == Listing(b, i, prefix, k)
    decreases |a| - i, |a[i].names| - k
  {
    if k < |a[i].names| {
      assert NamesFit(a[i]);
      var name := a[i].names[k];
      assert name in a[i].names;
      WalkDown(a, prefix, name);
      SameLinksOfChild(a, b, prefix, name);
      ListingSame(a, b, a[i].kids[name], prefix + [name], 0);
      ListingSame(a, b, i, prefix, k + 1);
      ListingStep(a, b, i, prefix, k);
    }
  }

  lemma PrintedNothing(a: seq<Node>, i: nat, prefix: Path)
    requires Tree(a) && i < |a|
    ensures Printed(a, a, i, prefix, 0)
  {
  }

  /** Child `k` is as it was, link and all, when its turn comes. */
  lemma ChildUntouched(a: seq<Node>, b: seq<Node>, i: nat, prefix: Path, k: nat)
    requires Tree(a) && Walk(a, prefix) == Some(i) && k < |a[i].names| && Printed(a, b, i, prefix, k)
    ensures var name := a[i].names[k];
            var path := prefix + [name];
            && name in a[i].kids && a[i].kids[name] < |a|
            && Walk(a, path) == Walk(b, path) == Some(a[i].kids[name])
            && a[a[i].kids[name]].value == b[a[i].kids[name]].value
            && forall q :: path < q ==> Lookup(b, q) == Lookup(a, q)
  {
    assert NamesFit(a[i]);
    var name := a[i].names[k];
    assert name in a[i].names;
    var path := prefix + [name];
    WalkDown(a, prefix, name);
    SameShapeWalk(a, b, path);
    LinkUntouched(a, b, i, prefix, k, path);
    forall q | path < q ensures Lookup(b, q) == Lookup(a, q) {
      LinkUntouched(a, b, i, prefix, k, q);
    }
  }

  lemma LinkUntouched(a: seq<Node>, b: seq<Node>, i: nat, prefix: Path, k: nat, q: Path)
    requires Tree(a) && i < |a| && k < |a[i].names| && Printed(a, b, i, prefix, k) && DistinctNames(a[i].names)
    requires var path := prefix + [a[i].names[k]]; q == path || path < q
    ensures Lookup(b, q) == Lookup(a, q)
  {
    BeforeStep(a[i].names, prefix, k, q);
  }

  /** `b` with one link deleted, and then all links below it. */
  ghost predicate Cleared(b: seq<Node>, b': seq<Node>, path: Path) {
    && SameShape(b, b') && Tree(b) && Tree(b')
    && forall q :: Lookup(b', q) == if q == path || path < q then None else Lookup(b, q)
  }

  lemma DeletedAndPrinted(b: seq<Node>, t: seq<Node>, b': seq<Node>, c: nat, path: Path)
    requires Tree(b) && Walk(b, path) == Some(c) && SameShape(b, t) && Tree(t)
    requires forall q :: Lookup(t, q) == if q == path then None else Lookup(b, q)
    requires c < |t| && Printed(t, b', c, path, |t[c].names|)
    ensures Cleared(b, b', path)
  {
    forall q ensures Lookup(b', q) == if q == path || path < q then None else Lookup(b, q) {
      if path < q && Lookup(t, q).Some? {
        SameShapeWalk(b, t, path);
        GoesThroughAChild(t, path, q);
      }
    }
  }

  lemma PrintedStep(a: seq<Node>, b: seq<Node>, b': seq<Node>, i: nat, prefix: Path, k: nat)
    requires Tree(a) && i < |a| && k < |a[i].names|
    requires Printed(a, b, i, prefix, k) && Cleared(b, b', prefix + [a[i].names[k]])
    ensures Printed(a, b', i, prefix, k + 1)
  {
    assert NamesFit(a[i]);
    forall q ensures Lookup(b', q) == if Before(a[i].names, prefix, k + 1, q) then None else Lookup(a, q) {
      BeforeStep(a[i].names, prefix, k, q);
    }
  }

  /** Links and headings of one child, before what is below it. */
  function Head(name: string, value: Option<string>, depth: nat): seq<Token> {
    match value
    case Some(link) =>
      if depth == 0 && name == "types" then [Open("Types"), Link(name, link, depth)] else [Link(name, link, depth)]
    case None => if Skipped(name) then [] else [Open(name)]
  }

  /** What follows it. */
  function Tail(name: string, value: Option<string>, depth: nat): seq<Token> {
    match value
    case Some(_) => if depth == 0 && name == "types" then [Close] else []
    case None => if Skipped(name) then [] else [Close]
  }

  /** How much deeper it is. */
  function Deeper(name: string, value: Option<string>, depth: nat): nat {
    match value
    case Some(_) => if depth == 0 && name == "types" then depth + 2 else depth + 1
    case None => if Skipped(name) then depth else depth + 1
  }

  lemma OneToken(token: Token, open: seq<string>)
    ensures token.Link? ==>
              OpenAfter([token], open) == Some(open)
              && Placed([token], open) == [Place(token.name, token.link, token.depth, open)]
    ensures token.Open? ==> OpenAfter([token], open) == Some(open + [token.heading]) && Placed([token], open) == []
    ensures token.Close? && open != [] ==> OpenAfter([token], open) == Some(Shut(open)) && Placed([token], open) == []
  {
    assert [token][1..] == [];
  }

  /** Head and tail open and close the same dropdown, if any, and the head holds the child's own link. */
  lemma HeadOpens(name: string, value: Option<string>, depth: nat, open: seq<string>)
    ensures var types := depth == 0 && name == "types";
            && OpenAfter(Head(name, value, depth), open)
               == (if value.Some? then Some(if types then open + ["Types"] else open)
                   else Some(if Skipped(name) then open else open + [name]))
            && Placed(Head(name, value, depth), open)
               == (if value.Some? then [Place(name, value.value, depth, if types then open + ["Types"] else open)] else [])
  {
    var head := Head(name, value, depth);
    if |head| == 2 {
      assert head == [head[0]] + [head[1]];
      OneToken(head[0], open);
      OneToken(head[1], open + ["Types"]);
      PlacedAppend([head[0]], [head[1]], open);
    } else if |head| == 1 {
      assert head == [head[0]];
      OneToken(head[0], open);
    }
  }

  lemma TailCloses(name: string, value: Option<string>, depth: nat, open: seq<string>, inside: seq<string>)
    requires OpenAfter(Head(name, value, depth), open) == Some(inside)
    ensures OpenAfter(Tail(name, value, depth), inside) == Some(open) && Placed(Tail(name, value, depth), inside) == []
  {
    var tail := Tail(name, value, depth);
    HeadOpens(name, value, depth, open);
    if tail != [] {
      assert tail == [Close];
      OneToken(Close, inside);
    }
  }

  /** One child: its own link, and what is below it, in the dropdown it opens. */
  lemma ChildPlaced(name: string, value: Option<string>, depth: nat, inner: seq<Token>, open: seq<string>)
    requires Nested(inner)
    ensures var head, tokens := Head(name, value, depth), Head(name, value, depth) + inner + Tail(name, value, depth);
            && OpenAfter(head, open).Some? && OpenAfter(tokens, open) == Some(open)
            && Placed(tokens, open) == Placed(head, open) + Placed(inner, OpenAfter(head, open).value)
  {
    var head, tail := Head(name, value, depth), Tail(name, value, depth);
    HeadOpens(name, value, depth, open);
    TailCloses(name, value, depth, open, OpenAfter(head, open).value);
    PlacedAppend(head, inner, open);
    PlacedAppend(head + inner, tail, open);
  }

  lemma ChildNested(name: string, value: Option<string>, depth: nat, inner: seq<Token>)
    requires Nested(inner)
    ensures Nested(Head(name, value, depth) + inner + Tail(name, value, depth))
  {
    forall open
      ensures OpenAfter(Head(name, value, depth) + inner + Tail(name, value, depth), open) == Some(open)
    {
      ChildPlaced(name, value, depth, inner, open);
    }
  }

  /** The tokens of one child put its links where they belong. */
  lemma ChildPlaces(look: Path -> Option<string>, prefix: Path, name: string, inner: seq<Token>)
    requires Nested(inner)
    ensures var path, open, depth := prefix + [name], HeadingsAt(look, prefix), DepthBelow(look, prefix);
            Placed(Head(name, look(path), depth) + inner + Tail(name, look(path), depth), open)
            == (if look(path).Some? then [PlaceOf(look, (path, look(path).value))] else [])
             + Placed(inner, HeadingsAt(look, path))
  {
    var path, open, depth := prefix + [name], HeadingsAt(look, prefix), DepthBelow(look, prefix);
    PlaceBelow(look, prefix, name);
    HeadOpens(name, look(path), depth, open);
    ChildPlaced(name, look(path), depth, inner, open);
  }

  lemma PlacesOfChild(look: Path -> Option<string>, a: seq<Node>, i: nat, prefix: Path, k: nat)
    requires Tree(a) && i < |a| && k < |a[i].names| && a[i].names[k] in a[i].kids
    ensures var name := a[i].names[k];
            var c := a[i].kids[name];
            && Places(look, Listing(a, i, prefix, k))
               == (if a[c].value.Some? then [PlaceOf(look, (prefix + [name], a[c].value.value))] else [])
                + Places(look, Listing(a, c, prefix + [name], 0)) + Places(look, Listing(a, i, prefix, k + 1))
  {
    var name := a[i].names[k];
    var c := a[i].kids[name];
    var own := if a[c].value.Some? then [(prefix + [name], a[c].value.value)] else [];
    var below, later := Listing(a, c, prefix + [name], 0), Listing(a, i, prefix, k + 1);
    assert Listing(a, i, prefix, k) == own + below + later;
    PlacesAppend(look, own + below, later);
    PlacesAppend(look, own, below);
    assert Places(look, own)
        == if a[c].value.Some? then [PlaceOf(look, (prefix + [name], a[c].value.value))] else [];
  }

  lemma PlacesAppend(look: Path -> Option<string>, a: seq<(Path, string)>, b: seq<(Path, string)>)
    ensures Places(look, a + b) == Places(look, a) + Places(look, b)
  {
  }

  /** The first `k` children have been printed. */
  ghost predicate SoFar(look: Path -> Option<string>, a: seq<Node>, i: nat, prefix: Path, k: nat, tokens: seq<Token>)
    requires Tree(a) && i < |a| && k <= |a[i].names|
  {
    && Nested(tokens)
    && Placed(tokens, HeadingsAt(look, prefix)) + Places(look, Listing(a, i, prefix, k))
       == Places(look, Listing(a, i, prefix, 0))
  }

  lemma SoFarMore(look: Path -> Option<string>, a: seq<Node>, i: nat, prefix: Path, k: nat, tokens: seq<Token>,
                  more: seq<Token>)
    requires Tree(a) && i < |a| && k < |a[i].names| && SoFar(look, a, i, prefix, k, tokens) && Nested(more)
    requires Places(look, Listing(a, i, prefix, k))
          == Placed(more, HeadingsAt(look, prefix)) + Places(look, Listing(a, i, prefix, k + 1))
    ensures SoFar(look, a, i, prefix, k + 1, tokens + more)
  {
    MorePlaced(tokens, more, HeadingsAt(look, prefix), Places(look, Listing(a, i, prefix, k + 1)));
  }

  /** Setting or deleting one link changes no other. */
  lemma OneLinkChanged(nodes: seq<Node>, c: nat, path: Path, value: Option<string>)
    requires Tree(nodes) && Walk(nodes, path) == Some(c)
    ensures var t := SetValue(nodes, c, value);
            && SameShape(nodes, t) && Tree(t)
            && forall q :: Lookup(t, q) == if q == path then value else Lookup(nodes, q)
  {
    var t := SetValue(nodes, c, value);
    SameShapeTree(nodes, t);
    forall q ensures Lookup(t, q) == if q == path then value else Lookup(nodes, q) {
      SetValueLookup(nodes, path, value, q);
    }
  }

  /** The listing of the whole tree. */
  lemma ListingOfAll(nodes: seq<Node>, modules: seq<(Path, string)>)
    requires Tree(nodes) && nodes[0].value.None? && forall p :: Lookup(nodes, p) == Last(modules, p)
    ensures DistinctPaths(Listing(nodes, 0, [], 0))
    ensures forall p, link :: (p, link) in Listing(nodes, 0, [], 0) <==> Last(modules, p) == Some(link)
  {
    forall p, link
      ensures DistinctPaths(Listing(nodes, 0, [], 0))
      ensures (p, link) in Listing(nodes, 0, [], 0) <==> Last(modules, p) == Some(link)
    {
      EachPathOnce(nodes, p, link);
    }
  }

  /** When all below the root has been printed, no link is left. */
  lemma AllGone(a: seq<Node>, b: seq<Node>)
    requires Tree(a) && a[0].value.None? && Printed(a, b, 0, [], |a[0].names|)
    ensures forall p :: Lookup(b, p).None?
  {
    forall p ensures Lookup(b, p).None? {
      if Lookup(a, p).Some? && p != [] {
        GoesThroughAChild(a, [], p);
      }
    }
  }

  class Hierarchy {
    var nodes: seq<Node>

    ghost predicate Valid()
      reads this
    {
      Tree(nodes) && RealLinks(nodes) && nodes[0].value.None?
    }

    constructor ()
      ensures Valid() && GrownFrom(nodes, [])
    {
      nodes := [Node(None, [], map[])];
      new;
      forall p ensures (Walk(nodes, p).Some? <==> p == []) && ChildrenInOrder(nodes, [], p) {
        NothingThere(p);
      }
    }

    /** A tree without folders has no links. */
    lemma NoLinks()
      requires Valid() && GrownFrom(nodes, [])
      ensures forall p :: Lookup(nodes, p).None?
    {
    }

    static lemma {:induction false} NothingThere(p: Path)
      ensures Tree([Node(None, [], map[])])
      ensures p != [] ==> Walk([Node(None, [], map[])], p).None?
      ensures Lookup([Node(None, [], map[])], p).None?
      decreases |p|
    {
      if p != [] {
        NothingThere(p[..|p| - 1]);
      }
    }

    /** One segment of a path: creates the child if it is missing, and goes down to it. */
    method Descend(clone: nat, item: string, ghost path: Path, ghost before: seq<Path>) returns (child: nat)
      requires Valid() && Walk(nodes, path) == Some(clone) && GrownFrom(nodes, before + [path])
      modifies this
      ensures Valid() && Walk(nodes, path + [item]) == Some(child) && GrownFrom(nodes, before + [path + [item]])
      ensures forall p :: Lookup(nodes, p) == old(Lookup(nodes, p))
    {
      if item !in nodes[clone].kids {
        Create(clone, item, path, before);
      } else {
        WalkDown(nodes, path, item);
        GrownByOld(nodes, before, path, item);
      }
      child := nodes[clone].kids[item];
    }

    method Create(clone: nat, item: string, ghost path: Path, ghost before: seq<Path>)
      requires Valid() && Walk(nodes, path) == Some(clone) && GrownFrom(nodes, before + [path])
      requires item !in nodes[clone].kids
      modifies this
      ensures Valid() && GrownFrom(nodes, before + [path + [item]]) && nodes == AddChild(old(nodes), clone, item)
      ensures Walk(nodes, path + [item]) == Some(|old(nodes)|)
      ensures forall p :: Lookup(nodes, p) == old(Lookup(nodes, p))
    {
      Created(nodes, clone, path, item);
      GrownByNew(nodes, before, clone, path, item);
      nodes := AddChild(nodes, clone, item);
    }

    method Assign(clone: nat, link: string, ghost path: Path, ghost paths: seq<Path>)
      requires Valid() && Walk(nodes, path) == Some(clone) && path != [] && link != "" && GrownFrom(nodes, paths)
      modifies this
      ensures Valid() && GrownFrom(nodes, paths)
      ensures forall p :: Lookup(nodes, p) == if p == path then Some(link) else old(Lookup(nodes, p))
    {
      OneLinkChanged(nodes, clone, path, Some(link));
      GrownSameShape(nodes, SetValue(nodes, clone, Some(link)), paths);
      assert clone != 0 by {
        if clone == 0 {
          WalkUnique(nodes, path, []);
        }
      }
      nodes := SetValue(nodes, clone, Some(link));
    }

    /** One module: walks down from the root, creating what is missing, and sets the link at the end. */
    method Insert(path: Path, link: string, ghost before: seq<Path>)
      requires Valid() && Usable(path) && link != "" && GrownFrom(nodes, before)
      modifies this
      ensures Valid() && GrownFrom(nodes, before + [path])
      ensures forall p :: Lookup(nodes, p) == if p == path then Some(link) else old(Lookup(nodes, p))
    {
      var clone := 0;
      GrownAtRoot(nodes, before);
      assert path[..0] == [];
      for k := 0 to |path|
        invariant Valid() && Walk(nodes, path[..k]) == Some(clone) && GrownFrom(nodes, before + [path[..k]])
        invariant forall p :: Lookup(nodes, p) == old(Lookup(nodes, p))
      {
        assert path[..k + 1] == path[..k] + [path[k]];
        clone := Descend(clone, path[k], path[..k], before);
      }
      assert path[..|path|] == path;
      Assign(clone, link, path, before + [path]);
    }

    /** `convertModulesToHierarchy`: afterwards each path has the link of the last module with that path, and the
        folders are those of the modules, in the order in which they came up. */
    method Convert(modules: seq<(Path, string)>)
      requires Valid() && GrownFrom(nodes, [])
      requires forall m :: m in modules ==> Usable(m.0) && m.1 != ""
      modifies this
      ensures Valid() && GrownFrom(nodes, PathsOf(modules))
      ensures forall p :: Lookup(nodes, p) == Last(modules, p)
    {
      NoLinks();
      assert PathsOf(modules[..0]) == [];
      for k := 0 to |modules|
        invariant Valid() && GrownFrom(nodes, PathsOf(modules[..k]))
        invariant forall p :: Lookup(nodes, p) == Last(modules[..k], p)
      {
        assert modules[..k + 1][..k] == modules[..k];
        assert PathsOf(modules[..k + 1]) == PathsOf(modules[..k]) + [modules[k].0];
        Insert(modules[k].0, modules[k].1, PathsOf(modules[..k]));
      }
      assert modules[..|modules|] == modules;
    }

    method Delete(c: nat, ghost path: Path)
      requires Valid() && Walk(nodes, path) == Some(c)
      modifies this
      ensures Valid() && SameShape(old(nodes), nodes)
      ensures forall q :: Lookup(nodes, q) == if q == path then None else old(Lookup(nodes, q))
    {
      OneLinkChanged(nodes, c, path, None);
      nodes := SetValue(nodes, c, None);
    }

    /** A child's link is deleted, then all below it is printed. */
    method Clear(c: nat, depth: nat, ghost path: Path, ghost look: Path -> Option<string>) returns (inner: seq<Token>)
      requires Valid() && Walk(nodes, path) == Some(c)
      requires Agrees(nodes, look, path) && depth == DepthBelow(look, path)
      modifies this
      decreases |nodes| - c, 2
      ensures Valid() && Cleared(old(nodes), nodes, path) && Nested(inner)
      ensures Placed(inner, HeadingsAt(look, path)) == Places(look, Listing(old(nodes), c, path, 0))
    {
      ghost var b := nodes;
      Delete(c, path);
      ghost var t := nodes;
      SameShapeWalk(b, t, path);
      ListingSame(b, t, c, path, 0);
      inner := Print(c, depth, path, look);
      DeletedAndPrinted(b, t, nodes, c, path);
    }

    /** `getMarkdownLinks` for one child: its link or heading, then all below it. */
    method PrintChild(i: nat, depth: nat, k: nat, ghost a: seq<Node>, ghost prefix: Path, ghost look: Path -> Option<string>)
      returns (tokens: seq<Token>)
      requires Valid() && Tree(a) && Walk(a, prefix) == Some(i) && k < |a[i].names|
      requires Printed(a, nodes, i, prefix, k)
      requires Agrees(a, look, prefix) && depth == DepthBelow(look, prefix)
      modifies this
      decreases |nodes| - i, 0
      ensures Valid() && Printed(a, nodes, i, prefix, k + 1) && Nested(tokens)
      ensures Places(look, Listing(a, i, prefix, k))
           == Placed(tokens, HeadingsAt(look, prefix)) + Places(look, Listing(a, i, prefix, k + 1))
    {
      ghost var b := nodes;
      ChildUntouched(a, b, i, prefix, k);
      var name := nodes[i].names[k];
      var c := nodes[i].kids[name];
      ghost var path := prefix + [name];
      var value := nodes[c].value;
      AgreesBelow(a, look, prefix, name);
      PlaceBelow(look, prefix, name);
      ListingSame(a, b, c, path, 0);
      var inner := Clear(c, Deeper(name, value, depth), path, look);
      tokens := Head(name, value, depth) + inner + Tail(name, value, depth);
      ChildPlaces(look, prefix, name, inner);
      ChildNested(name, value, depth, inner);
      PrintedStep(a, b, nodes, i, prefix, k);
      PlacesOfChild(look, a, i, prefix, k);
    }

    /** `getMarkdownLinks`: prints all below a node, depth first. Every link below it is printed once, at its depth
        and in its dropdowns, and is gone afterwards; and every dropdown is closed. */
    method Print(i: nat, depth: nat, ghost prefix: Path, ghost look: Path -> Option<string>) returns (tokens: seq<Token>)
      requires Valid() && Walk(nodes, prefix) == Some(i)
      requires Agrees(nodes, look, prefix) && depth == DepthBelow(look, prefix)
      modifies this
      decreases |nodes| - i, 1
      ensures Valid() && Printed(old(nodes), nodes, i, prefix, |old(nodes)[i].names|) && Nested(tokens)
      ensures Placed(tokens, HeadingsAt(look, prefix)) == Places(look, Listing(old(nodes), i, prefix, 0))
    {
      ghost var a := nodes;
      var count := |nodes[i].names|;
      tokens := [];
      PrintedNothing(a, i, prefix);
      for k := 0 to count
        invariant Valid() && Printed(a, nodes, i, prefix, k)
        invariant SoFar(look, a, i, prefix, k, tokens)
      {
        var more := PrintChild(i, depth, k, a, prefix, look);
        SoFarMore(look, a, i, prefix, k, tokens, more);
        tokens := tokens + more;
      }
    }

    /** The script: builds the hierarchy of the modules and prints it. */
    method Render(modules: seq<(Path, string)>) returns (tokens: seq<Token>, ghost listing: seq<(Path, string)>)
      requires Valid() && GrownFrom(nodes, [])
      requires forall m :: m in modules ==> Usable(m.0) && m.1 != ""
      modifies this
      ensures Placed(tokens, []) == Places(p => Last(modules, p), listing) && Nested(tokens)
      ensures DistinctPaths(listing) && Ordered(PathsOf(modules), listing)
      ensures forall p, link :: (p, link) in listing <==> Last(modules, p) == Some(link)
      ensures Valid() && forall p :: Lookup(nodes, p).None?
    {
      Convert(modules);
      listing := Listing(nodes, 0, [], 0);
      ListingOfAll(nodes, modules);
      ListedInOrder(nodes, PathsOf(modules), 0, [], 0);
      ghost var a := nodes;
      tokens := Print(0, 0, [], p => Last(modules, p));
      AllGone(a, nodes);
    }
  }
}
