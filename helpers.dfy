// forward_sweep: an iterative depth-first walk over a tree of nodes as
// get_children presents them. The walk keeps a dict from each visited node
// to its parent and a dict from each visited node to an iterator over its
// children, and calls func on every node it lands on.
//
// A node is known by its path from the root: the positions of the children
// taken on the way down. The dicts of the walk are keyed by these paths, and
// an iterator is the number of children it has handed out.

module Helpers {
  import opened Errors

  /** A node and its children, in get_children order. */
  datatype Tree = Tree(kids: seq<Tree>)

  type Path = seq<nat>

  /** The node at a path, if the path leads to one. */
  function Lookup(t: Tree, p: Path): (r: Option<Tree>)
    ensures p == [] ==> r == Some(t)
    decreases |p|
  {
    if p == [] then Some(t)
    else match Lookup(t, p[..|p| - 1])
      case None => None
      case Some(u) => if p[|p| - 1] < |u.kids| then Some(u.kids[p[|p| - 1]]) else None
  }

  /** Going one child further down from a node. */
  lemma LookupChild(t: Tree, p: Path, j: nat)
    requires Lookup(t, p).Some?
    ensures Lookup(t, p + [j]) == if j < |Lookup(t, p).value.kids| then Some(Lookup(t, p).value.kids[j]) else None
  {
    assert (p + [j])[..|p|] == p;
  }

  /** A node's parent is a node. */
  lemma LookupParent(t: Tree, p: Path)
    requires p != [] && Lookup(t, p).Some?
    ensures Lookup(t, p[..|p| - 1]).Some? && p[|p| - 1] < |Lookup(t, p[..|p| - 1]).value.kids|
    ensures Lookup(t, p) == Some(Lookup(t, p[..|p| - 1]).value.kids[p[|p| - 1]])
  {
  }

  /** A node below the root is reached through one of the root's children. */
  lemma {:induction false} BelowRoot(t: Tree, p: Path)
    requires p != [] && Lookup(t, p).Some?
    ensures p[0] < |t.kids|
    decreases |p|
  {
    LookupParent(t, p);
    var q := p[..|p| - 1];
    if q != [] {
      BelowRoot(t, q);
      assert q[0] == p[0];
    }
  }

  // ---- the walk, defined by recursion on the tree ---------------------------------------------

  /**
   * The nodes func receives for the subtree of node u at path p, when the
   * walk comes down to it: u itself, the walk of each child in turn, and u
   * once more on climbing back when it has children.
   */
  function Walk(u: Tree, p: Path): (r: seq<Path>)
    ensures |r| > 0 && r[0] == p
    decreases u, 1, 0
  {
    [p] + Siblings(u, p, 0) + (if |u.kids| > 0 then [p] else [])
  }

  /** The walks of u's children from position j on. */
  function Siblings(u: Tree, p: Path, j: nat): (r: seq<Path>)
    decreases u, 0, |u.kids| - j
  {
    if j >= |u.kids| then [] else Walk(u.kids[j], p + [j]) + Siblings(u, p, j + 1)
  }

  /**
   * What func receives after the walk of node p is over: the walks of p's
   * later siblings, then its parent once more on climbing back, and so on
   * up to the root, which is not received again.
   */
  function Up(t: Tree, p: Path): (r: seq<Path>)
    requires p != [] && Lookup(t, p).Some?
    decreases |p|
  {
    LookupParent(t, p);
    var q := p[..|p| - 1];
    Siblings(Lookup(t, q).value, q, p[|p| - 1] + 1) + (if q == [] then [] else [q] + Up(t, q))
  }

  /**
   * forward_sweep on a tree: the nodes func receives, and whether the walk
   * fails. A root with children is received first, then the walk of each
   * child in turn; a root without children is received and then the parent
   * lookup of the root fails with KeyError.
   */
  function Sweep(t: Tree): (r: (seq<Path>, bool))
    ensures r.1 <==> |t.kids| == 0
    ensures |r.0| > 0 && r.0[0] == []
  {
    if |t.kids| == 0 then ([[]], true) else ([[]] + Siblings(t, [], 0), false)
  }

  /**
   * What func still receives from a point of the walk where it is about to
   * be called on p: a node reached going down still has its walk
   * ahead; a node reached by climbing back has only the rest above it.
   */
  function Remaining(t: Tree, p: Path, down: bool): (r: seq<Path>)
    requires Lookup(t, p).Some?
  {
    if p == [] then [[]] + Siblings(t, [], 0)
    else if down then Walk(Lookup(t, p).value, p) + Up(t, p)
    else [p] + Up(t, p)
  }

  // ---- what the walk visits ------------------------------------------------------------------

  /** Going down from a node along a path that starts with child j. */
  lemma {:induction false} LookupFront(u: Tree, j: nat, q: Path)
    ensures Lookup(u, [j] + q) == if j < |u.kids| then Lookup(u.kids[j], q) else None
    decreases |q|
  {
    if q != [] {
      var q' := q[..|q| - 1];
      assert ([j] + q)[..|[j] + q| - 1] == [j] + q';
      LookupFront(u, j, q');
    }
  }

  /** x is a node of the subtree u at path p. */
  ghost predicate Within(u: Tree, p: Path, x: Path)
  {
    |p| <= |x| && x[..|p|] == p && Lookup(u, x[|p|..]).Some?
  }

  /** The walk of a subtree visits only nodes of the subtree. */
  lemma {:induction false} WalkWithin(u: Tree, p: Path)
    ensures forall x :: x in Walk(u, p) ==> Within(u, p, x)
    decreases u, 1, 0
  {
    SiblingsWithin(u, p, 0);
    assert p[|p|..] == [];
  }

  /** The walks of u's children from position j on visit only nodes below those children. */
  lemma {:induction false} SiblingsWithin(u: Tree, p: Path, j: nat)
    ensures forall x :: x in Siblings(u, p, j) ==> Within(u, p, x) && |x| > |p| && x[|p|] >= j
    decreases u, 0, |u.kids| - j
  {
    if j < |u.kids| {
      var c := p + [j];
      WalkWithin(u.kids[j], c);
      SiblingsWithin(u, p, j + 1);
      forall x | x in Walk(u.kids[j], c) ensures Within(u, p, x) && |x| > |p| && x[|p|] >= j {
        assert x[..|c|][..|p|] == p;
        assert x[|p|..] == [j] + x[|c|..];
        LookupFront(u, j, x[|c|..]);
      }
    }
  }

  /** The walks of u's children from position i on include the walk of child j, for i <= j. */
  lemma {:induction false} SiblingsInclude(u: Tree, p: Path, i: nat, j: nat)
    requires i <= j < |u.kids|
    ensures forall x :: x in Walk(u.kids[j], p + [j]) ==> x in Siblings(u, p, i)
    decreases j - i
  {
    if i < j {
      SiblingsInclude(u, p, i + 1, j);
    }
  }

  /** The walk of a subtree visits every node of the subtree. */
  lemma {:induction false} WalkCovers(u: Tree, p: Path, q: Path)
    requires Lookup(u, q).Some?
    ensures p + q in Walk(u, p)
    decreases |q|
  {
    if q == [] {
      assert p + q == p;
    } else {
      var j := q[0];
      assert q == [j] + q[1..];
      LookupFront(u, j, q[1..]);
      WalkCovers(u.kids[j], p + [j], q[1..]);
      assert p + [j] + q[1..] == p + q;
      SiblingsInclude(u, p, 0, j);
    }
  }

  /** forward_sweep visits exactly the nodes of the tree. */
  lemma SweepVisitsTree(t: Tree)
    ensures forall x :: x in Sweep(t).0 <==> Lookup(t, x).Some?
  {
    forall x | Lookup(t, x).Some? ensures x in Sweep(t).0 {
      if x != [] {
        WalkCovers(t, [], x);
        BelowRoot(t, x);
        assert [] + x == x;
      }
    }
    SiblingsWithin(t, [], 0);
    forall x | x in Sweep(t).0 ensures Lookup(t, x).Some? {
      if x != [] {
        assert x[0..] == x;
      }
    }
  }

  /** The root is visited first and never again: the walk stops on climbing back to it. */
  lemma RootVisitedOnce(t: Tree)
    ensures Sweep(t).0[0] == []
    ensures forall k :: 0 < k < |Sweep(t).0| ==> Sweep(t).0[k] != []
  {
    SiblingsWithin(t, [], 0);
    forall k | 0 < k < |Sweep(t).0| ensures Sweep(t).0[k] != [] {
      assert Sweep(t).0[k] in Siblings(t, [], 0);
    }
  }

  /** The walks of u's children from j on begin with the walk of child j. */
  lemma {:induction false} SiblingsSplit(u: Tree, p: Path, i: nat, j: nat)
    requires i <= j < |u.kids|
    ensures exists a :: Siblings(u, p, i) == a + Walk(u.kids[j], p + [j]) + Siblings(u, p, j + 1)
    decreases j - i
  {
    if i == j {
      assert Siblings(u, p, i) == [] + Walk(u.kids[j], p + [j]) + Siblings(u, p, j + 1);
    } else {
      SiblingsSplit(u, p, i + 1, j);
      var a :| Siblings(u, p, i + 1) == a + Walk(u.kids[j], p + [j]) + Siblings(u, p, j + 1);
      var w := Walk(u.kids[i], p + [i]);
      Regroup4(w, a, Walk(u.kids[j], p + [j]), Siblings(u, p, j + 1));
    }
  }

  /**
   * The walk of every node below the root is one block of forward_sweep's
   * visits: each child's subtree is finished before the next sibling.
   */
  lemma {:induction false} SubtreeIsOneBlock(t: Tree, p: Path)
    requires p != [] && Lookup(t, p).Some?
    ensures exists a, b :: Sweep(t).0 == a + Walk(Lookup(t, p).value, p) + b
    decreases |p|
  {
    LookupParent(t, p);
    BelowRoot(t, p);
    var q := p[..|p| - 1];
    var i := p[|p| - 1];
    var w := Lookup(t, q).value;
    assert q + [i] == p;
    SiblingsSplit(w, q, 0, i);
    var s :| Siblings(w, q, 0) == s + Walk(w.kids[i], p) + Siblings(w, q, i + 1);
    var walk := Walk(w.kids[i], p);
    var after := Siblings(w, q, i + 1);
    if q == [] {
      Regroup4([[]], s, walk, after);
    } else {
      SubtreeIsOneBlock(t, q);
      var a, b :| Sweep(t).0 == a + Walk(w, q) + b;
      assert Walk(w, q) == [q] + (s + walk + after) + [q];
      Regroup7(a, [q], s, walk, after, b);
    }
  }

  /**
   * A node below the root with children is visited when the walk comes
   * down to it and again when it climbs back to it.
   */
  lemma InnerNodeVisitedTwice(t: Tree, p: Path)
    requires p != [] && Lookup(t, p).Some? && |Lookup(t, p).value.kids| > 0
    ensures exists i, j :: 0 <= i < j < |Sweep(t).0| && Sweep(t).0[i] == p && Sweep(t).0[j] == p
  {
    SubtreeIsOneBlock(t, p);
    var u := Lookup(t, p).value;
    var a, b :| Sweep(t).0 == a + Walk(u, p) + b;
    var walk := Walk(u, p);
    assert walk[|walk| - 1] == p;
    assert Sweep(t).0[|a|] == p;
    assert Sweep(t).0[|a| + |walk| - 1] == p;
  }

  // ---- how the walk moves ---------------------------------------------------------------------

  /** The rest of the walk after a node's walk, unfolded once. */
  lemma UpOnce(t: Tree, p: Path, q: Path, i: nat)
    requires p != [] && Lookup(t, p).Some? && q == p[..|p| - 1] && i == p[|p| - 1]
    ensures Lookup(t, q).Some?
    ensures Up(t, p) == Siblings(Lookup(t, q).value, q, i + 1) + (if q == [] then [] else [q] + Up(t, q))
  {
    LookupParent(t, p);
  }

  /** The walks of a node's children, the first one taken off. */
  lemma FirstSibling(u: Tree, p: Path)
    requires |u.kids| > 0
    ensures Siblings(u, p, 0) == Walk(u.kids[0], p + [0]) + Siblings(u, p, 1)
  {
  }

  /** The rest after the walk of a root's first child. */
  lemma UpFromFirstChildOfRoot(t: Tree)
    requires |t.kids| > 0
    ensures Lookup(t, [0]) == Some(t.kids[0])
    ensures Up(t, [0]) == Siblings(t, [], 1)
  {
    LookupChild(t, [], 0);
    UpOnce(t, [0], [], 0);
  }

  /** The rest after the walk of a first child below the root. */
  lemma UpFromFirstChild(t: Tree, p: Path)
    requires p != [] && Lookup(t, p).Some? && |Lookup(t, p).value.kids| > 0
    ensures Lookup(t, p + [0]) == Some(Lookup(t, p).value.kids[0])
    ensures Up(t, p + [0]) == Siblings(Lookup(t, p).value, p, 1) + ([p] + Up(t, p))
  {
    var c := p + [0];
    LookupChild(t, p, 0);
    assert c[..|c| - 1] == p;
    UpOnce(t, c, p, 0);
  }

  /** The walk still ahead at a node just reached, below the root. */
  lemma RemainingBelowRoot(t: Tree, p: Path)
    requires p != [] && Lookup(t, p).Some?
    ensures Remaining(t, p, true) == Walk(Lookup(t, p).value, p) + Up(t, p)
  {
  }

  /** Going down from the root to its first child. */
  lemma DescendFromRoot(t: Tree)
    requires |t.kids| > 0
    ensures Lookup(t, [0]).Some?
    ensures Remaining(t, [], true) == [[]] + Remaining(t, [0], true)
  {
    var w := Walk(t.kids[0], [0]);
    var tail := Siblings(t, [], 1);
    UpFromFirstChildOfRoot(t);
    RemainingBelowRoot(t, [0]);
    assert Remaining(t, [0], true) == w + tail;
    FirstSibling(t, []);
    assert [] + [0] == [0];
    assert Remaining(t, [], true) == [[]] + (w + tail);
  }

  /** The walk of a node with children. */
  lemma WalkOfInner(u: Tree, p: Path)
    requires |u.kids| > 0
    ensures Walk(u, p) == [p] + Siblings(u, p, 0) + [p]
  {
  }

  /** Regrouping a concatenation of five sequences. */
  lemma Regroup<T>(a: seq<T>, b: seq<T>, c: seq<T>, d: seq<T>, e: seq<T>)
    ensures a + (b + c) + d + e == a + (b + (c + (d + e)))
  {
  }

  /** Regrouping a concatenation of four sequences. */
  lemma Regroup4<T>(a: seq<T>, b: seq<T>, c: seq<T>, d: seq<T>)
    ensures a + (b + c + d) == (a + b) + c + d
  {
  }

  /** Regrouping a block and what surrounds it. */
  lemma Regroup7<T>(a: seq<T>, q: seq<T>, s: seq<T>, w: seq<T>, after: seq<T>, b: seq<T>)
    ensures a + (q + (s + w + after) + q) + b == (a + q + s) + w + (after + q + b)
  {
  }

  /** Moving one element from the front of the rest to the end of what is done. */
  lemma Shift<T>(done: seq<T>, x: T, rest: seq<T>)
    ensures done + [x] + rest == done + ([x] + rest)
  {
  }

  /** Going down from a node below the root to its first child. */
  lemma DescendBelowRoot(t: Tree, p: Path)
    requires p != [] && Lookup(t, p).Some? && |Lookup(t, p).value.kids| > 0
    ensures Lookup(t, p + [0]).Some?
    ensures Remaining(t, p, true) == [p] + Remaining(t, p + [0], true)
  {
    var u := Lookup(t, p).value;
    var c := p + [0];
    var w := Walk(u.kids[0], c);
    var tail := Siblings(u, p, 1);
    var up := Up(t, p);
    UpFromFirstChild(t, p);
    RemainingBelowRoot(t, c);
    RemainingBelowRoot(t, p);
    WalkOfInner(u, p);
    FirstSibling(u, p);
    Regroup([p], w, tail, [p], up);
  }

  /** Going down to the first child of a node just reached. */
  lemma Descend(t: Tree, p: Path)
    requires Lookup(t, p).Some? && |Lookup(t, p).value.kids| > 0
    ensures Lookup(t, p + [0]).Some?
    ensures Remaining(t, p, true) == [p] + Remaining(t, p + [0], true)
  {
    if p == [] {
      assert p + [0] == [0];
      DescendFromRoot(t);
    } else {
      DescendBelowRoot(t, p);
    }
  }

  /** A node with no children left to hand out is followed by the rest above it. */
  lemma NoMoreChildren(t: Tree, p: Path, down: bool)
    requires p != [] && Lookup(t, p).Some?
    requires down ==> |Lookup(t, p).value.kids| == 0
    ensures Remaining(t, p, down) == [p] + Up(t, p)
  {
    if down {
      assert Siblings(Lookup(t, p).value, p, 0) == [];
    }
  }

  /** After a node's walk, the walk moves on to its next sibling if there is one. */
  lemma ToSibling(t: Tree, p: Path)
    requires p != [] && Lookup(t, p).Some?
    requires p[|p| - 1] + 1 < |Lookup(t, p[..|p| - 1]).value.kids|
    ensures var next := p[..|p| - 1] + [p[|p| - 1] + 1];
            Lookup(t, next).Some? && Up(t, p) == Remaining(t, next, true)
  {
    var q := p[..|p| - 1];
    var i := p[|p| - 1];
    var next := q + [i + 1];
    LookupParent(t, p);
    LookupChild(t, q, i + 1);
    assert next[..|next| - 1] == q;
    UpOnce(t, p, q, i);
    UpOnce(t, next, q, i + 1);
  }

  /** After the walk of a last child, the walk climbs back to the parent, or stops at the root. */
  lemma ToParent(t: Tree, p: Path)
    requires p != [] && Lookup(t, p).Some?
    requires p[|p| - 1] + 1 >= |Lookup(t, p[..|p| - 1]).value.kids|
    ensures Lookup(t, p[..|p| - 1]).Some?
    ensures Up(t, p) == if p[..|p| - 1] == [] then [] else Remaining(t, p[..|p| - 1], false)
  {
    UpOnce(t, p, p[..|p| - 1], p[|p| - 1]);
  }

  /** A root without children is all there is to the walk. */
  lemma RootWithoutChildren(t: Tree, done: seq<Path>)
    requires |t.kids| == 0 && done + Remaining(t, [], true) == Sweep(t).0
    ensures done + [[]] == Sweep(t).0 && Sweep(t).1
  {
    assert Siblings(t, [], 0) == [];
    assert done + [[]] == [[]];
  }

  // ---- the dicts of the walk ------------------------------------------------------------------

  /**
   * The dicts of the walk at node `current`: each node above it has an
   * iterator that has handed out the children up to the one on the way to
   * `current`, and each node below the root on the way is in the parent
   * dict, which maps every node to its parent.
   */
  ghost predicate Trail(current: Path, children: map<Path, nat>, parent: map<Path, Path>)
  {
    && (forall j :: 0 <= j < |current| ==> current[..j] in children && children[current[..j]] == current[j] + 1)
    && (forall x :: x in parent ==> x != [] && parent[x] == x[..|x| - 1])
    && (forall j :: 0 < j <= |current| ==> current[..j] in parent)
  }

  /** What the parent lookup and the parent's iterator find. */
  lemma TrailParent(current: Path, children: map<Path, nat>, parent: map<Path, Path>)
    requires Trail(current, children, parent)
    ensures current in parent <==> current != []
    ensures current != [] ==> (&& parent[current] == current[..|current| - 1]
                               && parent[current] in children
                               && children[parent[current]] == current[|current| - 1] + 1)
  {
    assert current[..|current|] == current;
  }

  /** Going down to child k. */
  lemma TrailDown(current: Path, children: map<Path, nat>, parent: map<Path, Path>, k: nat)
    requires Trail(current, children, parent)
    ensures var next := current + [k];
            Trail(next, children[current := k + 1][next := 0], parent[next := current])
  {
    var next := current + [k];
    assert forall j :: 0 <= j <= |current| ==> next[..j] == current[..j];
    assert next[..|next|] == next && next[..|next| - 1] == current;
  }

  /** Going from a node to its next sibling i. */
  lemma TrailSibling(current: Path, children: map<Path, nat>, parent: map<Path, Path>, i: nat)
    requires current != [] && Trail(current, children, parent)
    ensures var up := current[..|current| - 1];
            var next := up + [i];
            Trail(next, children[up := i + 1][next := 0], parent[next := up])
  {
    var up := current[..|current| - 1];
    var next := up + [i];
    assert forall j :: 0 <= j <= |up| ==> next[..j] == current[..j];
    assert next[..|next|] == next && next[..|next| - 1] == up;
  }

  /** Climbing back to the parent. */
  lemma TrailClimb(current: Path, children: map<Path, nat>, parent: map<Path, Path>)
    requires current != [] && Trail(current, children, parent)
    ensures Trail(current[..|current| - 1], children, parent)
  {
    var up := current[..|current| - 1];
    assert forall j :: 0 <= j <= |up| ==> up[..j] == current[..j];
  }

  /**
   * The state of the walk about to call func on `current`: the dicts fit
   * the way down to it, and its iterator is fresh if it was reached going
   * down, or used up if it was reached by climbing back.
   */
  ghost predicate Walking(root: Tree, current: Path, children: map<Path, nat>, parent: map<Path, Path>, down: bool)
  {
    && Lookup(root, current).Some?
    && current in children
    && (down ==> children[current] == 0)
    && (!down ==> current != [] && children[current] == |Lookup(root, current).value.kids| > 0)
    && (current == [] ==> down)
    && Trail(current, children, parent)
  }

  /** next(children[current]) hands out a child: the walk goes down to it. */
  lemma WalkDown(root: Tree, current: Path, children: map<Path, nat>, parent: map<Path, Path>, down: bool)
    requires Walking(root, current, children, parent, down)
    requires children[current] < |Lookup(root, current).value.kids|
    ensures var k := children[current];
            var next := current + [k];
            && Walking(root, next, children[current := k + 1][next := 0], parent[next := current], true)
            && Remaining(root, current, down) == [current] + Remaining(root, next, true)
  {
    Descend(root, current);
    TrailDown(current, children, parent, children[current]);
  }

  /** The parent's iterator hands out the next sibling: the walk goes over to it. */
  lemma WalkOver(root: Tree, current: Path, children: map<Path, nat>, parent: map<Path, Path>, down: bool)
    requires Walking(root, current, children, parent, down)
    requires children[current] >= |Lookup(root, current).value.kids| && current != []
    requires var up := current[..|current| - 1];
             Lookup(root, up).Some? && up in children && children[up] < |Lookup(root, up).value.kids|
    ensures var up := current[..|current| - 1];
            var i := children[up];
            var next := up + [i];
            && Walking(root, next, children[up := i + 1][next := 0], parent[next := up], true)
            && Remaining(root, current, down) == [current] + Remaining(root, next, true)
  {
    TrailParent(current, children, parent);
    NoMoreChildren(root, current, down);
    ToSibling(root, current);
    TrailSibling(current, children, parent, children[current[..|current| - 1]]);
  }

  /** Both iterators are used up: the walk climbs back to the parent. */
  lemma WalkBack(root: Tree, current: Path, children: map<Path, nat>, parent: map<Path, Path>, down: bool)
    requires Walking(root, current, children, parent, down)
    requires children[current] >= |Lookup(root, current).value.kids| && current != []
    requires var up := current[..|current| - 1];
             Lookup(root, up).Some? && up in children && children[up] >= |Lookup(root, up).value.kids|
    ensures var up := current[..|current| - 1];
            && |root.kids| > 0
            && (up == [] ==> Remaining(root, current, down) == [current])
            && (up != [] ==> && Walking(root, up, children, parent, false)
                             && Remaining(root, current, down) == [current] + Remaining(root, up, false))
  {
    TrailParent(current, children, parent);
    NoMoreChildren(root, current, down);
    ToParent(root, current);
    TrailClimb(current, children, parent);
    BelowRoot(root, current);
    var up := current[..|current| - 1];
    if up == [] {
      assert [current] + [] == [current];
    }
  }

  // ---- the walk as written ----------------------------------------------------------------------

  /**
   * forward_sweep(root, func), with func recording the nodes it receives.
   * The visited nodes are exactly Sweep's, and the walk fails exactly when
   * the root has no children.
   */
  method ForwardSweep(root: Tree) returns (visited: seq<Path>, failed: bool)
    ensures (visited, failed) == Sweep(root)
  {
    var current: Path := [];
    var parent: map<Path, Path> := map[];
    var children: map<Path, nat> := map[[] := 0];
    ghost var down := true;
    visited := [];
    while true
      invariant Walking(root, current, children, parent, down)
      invariant visited + Remaining(root, current, down) == Sweep(root).0
      decreases |Sweep(root).0| - |visited|
    {
      ghost var done := visited;
      visited := visited + [current];
      // next(children[current], None)
      var k := children[current];
      if k < |Lookup(root, current).value.kids| {
        WalkDown(root, current, children, parent, down);
        Shift(done, current, Remaining(root, current + [k], true));
        var next: Path := current + [k];
        children := children[current := k + 1][next := 0];
        parent := parent[next := current];
        current := next;
        down := true;
        continue;
      }
      // parent[current]
      TrailParent(current, children, parent);
      if current !in parent {
        RootWithoutChildren(root, done);
        failed := true;
        return;
      }
      var up: Path := parent[current];
      // next(children[current_parent], None)
      var i := children[up];
      if i < |Lookup(root, up).value.kids| {
        WalkOver(root, current, children, parent, down);
        Shift(done, current, Remaining(root, up + [i], true));
        var next: Path := up + [i];
        children := children[up := i + 1][next := 0];
        parent := parent[next := up];
        current := next;
        down := true;
        continue;
      }
      WalkBack(root, current, children, parent, down);
      if up == [] {
        break;
      }
      Shift(done, current, Remaining(root, up, false));
      current := up;
      down := false;
    }
    failed := false;
  }
}
