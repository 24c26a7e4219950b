/** The forest of a gridboard: trees of dimension values whose leaves hold the cells. */
module GridForest {

  datatype GridStatus = Unknown | Ok | Long | Raised

  datatype Cell = Cell(status: GridStatus, time: int)

  const BLANK := Cell(Unknown, -1)

  /** A tree item is known by its path from the root; its children by their dimension value. */
  datatype Tree = Tree(cell: Cell, children: map<string, Tree>)

  type Path = seq<string>

  datatype Found = Missing | Found(cell: Cell)

  function At(t: Tree, p: Path): Found
    decreases |p|
  {
    if p == [] then Found(t.cell)
    else if p[0] in t.children then At(t.children[p[0]], p[1..])
    else Missing
  }

  predicate Has(t: Tree, p: Path) {
    At(t, p).Found?
  }

  lemma {:induction false} HasPrefix(t: Tree, p: Path, k: nat)
    requires k <= |p| && Has(t, p)
    ensures Has(t, p[..k])
    decreases k
  {
    if k > 0 {
      HasPrefix(t.children[p[0]], p[1..], k - 1);
      assert p[..k][1..] == p[1..][..k-1];
    }
  }

  // ---------------------------------------------------------------------------------------------
  // Merging
  // ---------------------------------------------------------------------------------------------

  const LEAF := Tree(BLANK, map[])

  /** The source is merged into the target, whose missing children are created blank. */
  function Merge(target: Tree, source: Tree): Tree
    decreases source
  {
    Tree(source.cell,
         map v | v in target.children.Keys + source.children.Keys ::
           if v in source.children then
             Merge(if v in target.children then target.children[v] else LEAF, source.children[v])
           else target.children[v])
  }

  /** Merging loses nothing: what the source has wins, the rest is as the target had it. */
  lemma {:induction false} MergeAt(target: Tree, source: Tree, p: Path)
    ensures At(Merge(target, source), p) == if Has(source, p) then At(source, p) else At(target, p)
    decreases |p|
  {
    if p != [] {
      var v := p[0];
      if v in source.children {
        MergeAt(if v in target.children then target.children[v] else LEAF, source.children[v], p[1..]);
      }
    }
  }

  // ---------------------------------------------------------------------------------------------
  // Adding and writing items
  // ---------------------------------------------------------------------------------------------

  function Grow(t: Tree, p: Path, v: string): Tree
    requires Has(t, p)
    decreases |p|
  {
    if p == [] then t.(children := t.children[v := LEAF])
    else t.(children := t.children[p[0] := Grow(t.children[p[0]], p[1..], v)])
  }

  lemma {:induction false} GrowAt(t: Tree, p: Path, v: string, q: Path)
    requires Has(t, p) && !Has(t, p + [v])
    ensures At(Grow(t, p, v), q) == if q == p + [v] then Found(BLANK) else At(t, q)
    decreases |p|
  {
    if p == [] {
      assert (p + [v])[1..] == [] && (p + [v])[0] == v;
      assert v in t.children ==> At(t, p + [v]) == At(t.children[v], []);
      if q != [] && q[0] == v {
        assert q == [v] + q[1..];
        assert q == p + [v] <==> q[1..] == [];
      }
    } else {
      assert (p + [v])[1..] == p[1..] + [v];
      if q != [] {
        assert q == p + [v] <==> q[0] == p[0] && q[1..] == p[1..] + [v] by {
          assert q == [q[0]] + q[1..] && p + [v] == [p[0]] + (p[1..] + [v]);
        }
        GrowAt(t.children[p[0]], p[1..], v, q[1..]);
      }
    }
  }

  function Write(t: Tree, p: Path, cell: Cell): Tree
    requires Has(t, p)
    decreases |p|
  {
    if p == [] then t.(cell := cell)
    else t.(children := t.children[p[0] := Write(t.children[p[0]], p[1..], cell)])
  }

  lemma {:induction false} WriteAt(t: Tree, p: Path, cell: Cell, q: Path)
    requires Has(t, p)
    ensures At(Write(t, p, cell), q) == if q == p then Found(cell) else At(t, q)
    decreases |p|
  {
    if p != [] && q != [] {
      assert q == p <==> q[0] == p[0] && q[1..] == p[1..] by {
        assert q == [q[0]] + q[1..] && p == [p[0]] + p[1..];
      }
      WriteAt(t.children[p[0]], p[1..], cell, q[1..]);
    }
  }

  // ---------------------------------------------------------------------------------------------
  // Chains of points
  // ---------------------------------------------------------------------------------------------

  /** Two points share a value in some dimension. */
  ghost predicate Touch(p: Path, q: Path) {
    exists i :: 0 <= i < |p| && i < |q| && p[i] == q[i]
  }

  ghost predicate Chain(points: set<Path>, chain: seq<Path>) {
    && (forall k :: 0 <= k < |chain| ==> chain[k] in points)
    && (forall k :: 0 < k < |chain| ==> Touch(chain[k-1], chain[k]))
  }

  /** A chain of points that share dimension values leads from one to the other. */
  ghost predicate Linked(points: set<Path>, p: Path, q: Path) {
    exists chain: seq<Path> :: chain != [] && chain[0] == p && chain[|chain|-1] == q && Chain(points, chain)
  }

  lemma LinkedItself(points: set<Path>, p: Path)
    requires p in points
    ensures Linked(points, p, p)
  {
    assert Chain(points, [p]);
  }

  lemma LinkedTouch(points: set<Path>, p: Path, q: Path)
    requires p in points && q in points && Touch(p, q)
    ensures Linked(points, p, q)
  {
    assert Chain(points, [p, q]);
  }

  lemma LinkedTrans(points: set<Path>, p: Path, q: Path, r: Path)
    requires Linked(points, p, q) && Linked(points, q, r)
    ensures Linked(points, p, r)
  {
    var a: seq<Path> :| a != [] && a[0] == p && a[|a|-1] == q && Chain(points, a);
    var b: seq<Path> :| b != [] && b[0] == q && b[|b|-1] == r && Chain(points, b);
    var c := a + b[1..];
    forall k | 0 < k < |c| ensures Touch(c[k-1], c[k]) {
      if k >= |a| {
        assert c[k] == b[k - |a| + 1] && c[k-1] == b[k - |a|];
      }
    }
    assert Chain(points, c);
    assert c[|c|-1] == r;
  }

  lemma LinkedBack(points: set<Path>, p: Path, q: Path)
    requires Linked(points, p, q)
    ensures Linked(points, q, p)
  {
    var a: seq<Path> :| a != [] && a[0] == p && a[|a|-1] == q && Chain(points, a);
    var b := seq(|a|, k requires 0 <= k < |a| => a[|a| - 1 - k]);
    forall k | 0 < k < |b| ensures Touch(b[k-1], b[k]) {
      assert Touch(a[|a| - 1 - k], a[|a| - k]);
      var i :| 0 <= i < |a[|a| - 1 - k]| && i < |a[|a| - k]| && a[|a| - 1 - k][i] == a[|a| - k][i];
      assert b[k-1][i] == b[k][i];
    }
    assert Chain(points, b);
  }

  lemma LinkedMore(points: set<Path>, more: set<Path>, p: Path, q: Path)
    requires Linked(points, p, q) && points <= more
    ensures Linked(more, p, q)
  {
    var a: seq<Path> :| a != [] && a[0] == p && a[|a|-1] == q && Chain(points, a);
    assert Chain(more, a);
  }
}
