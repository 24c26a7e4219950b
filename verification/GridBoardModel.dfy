/** The components of a gridboard as values: their trees, the index of each dimension, and what a
    merge and the walk of an update do to them. */
module GridBoardModel {
  import opened GridForest

  /** The address of the root of a component. */
  type Ref = nat

  datatype Board = Board(memory: map<Ref, Tree>, components: seq<Ref>, indexes: seq<map<string, Ref>>)

  ghost predicate Owns(b: Board, c: Ref, p: Path) {
    c in b.components && c in b.memory && Has(b.memory[c], p)
  }

  /** A recorded point: an item at full depth. */
  ghost predicate Leaf(b: Board, n: nat, c: Ref, p: Path) {
    Owns(b, c, p) && |p| == n
  }

  ghost predicate Distinct(s: seq<Ref>) {
    forall j, k :: 0 <= j < k < |s| ==> s[j] != s[k]
  }

  /** Every item of a tree is indexed to that tree under its dimension value. */
  ghost predicate Placed(b: Board, n: nat) {
    && |b.indexes| == n && Distinct(b.components) && (forall c <- b.components :: c in b.memory)
    && (forall c, p :: Owns(b, c, p) && p != [] ==>
          |p| <= n && p[|p|-1] in b.indexes[|p|-1] && b.indexes[|p|-1][p[|p|-1]] == c)
  }

  /** Every indexed value is that of a point in the tree it is indexed to, or of the point that is
      being added to the given root. */
  ghost predicate Backed(b: Board, n: nat, adding: Path, root: Ref) {
    |b.indexes| == n &&
    forall i, v | 0 <= i < n && v in b.indexes[i] ::
      && b.indexes[i][v] in b.components
      && (BackedBy(b, n, i, v) || (|adding| == n && adding[i] == v && b.indexes[i][v] == root))
  }

  ghost predicate BackedBy(b: Board, n: nat, i: nat, v: string)
    requires |b.indexes| == n && i < n && v in b.indexes[i]
  {
    exists p :: Leaf(b, n, b.indexes[i][v], p) && p[i] == v
  }

  /** The forest holds exactly the flat map from points to cells, but for some points. */
  ghost predicate Denotes(b: Board, n: nat, flat: map<Path, Cell>, but: set<Path>) {
    && (forall p <- flat ::
          |p| == n && (p !in but ==> exists c :: Leaf(b, n, c, p) && At(b.memory[c], p) == Found(flat[p])))
    && (forall c, p :: Leaf(b, n, c, p) && p !in but ==> p in flat)
  }

  /** The points of a tree are linked by chains of points. */
  ghost predicate Connected(b: Board, n: nat, points: set<Path>) {
    forall c, p, q :: Leaf(b, n, c, p) && Leaf(b, n, c, q) ==> Linked(points, p, q)
  }

  ghost predicate Inhabited(b: Board, n: nat, except: set<Ref>) {
    forall c <- b.components | c !in except :: exists p :: Leaf(b, n, c, p)
  }

  /** A point lies in one tree only: the one its values are indexed to. */
  lemma OneTree(b: Board, n: nat, c: Ref, p: Path, i: nat)
    requires Placed(b, n) && Leaf(b, n, c, p) && i < n
    ensures p[i] in b.indexes[i] && b.indexes[i][p[i]] == c
  {
    HasPrefix(b.memory[c], p, i + 1);
    assert Owns(b, c, p[..i+1]);
    assert p[..i+1][i] == p[i];
  }

  // ---------------------------------------------------------------------------------------------
  // Same tree, linked by a chain
  // ---------------------------------------------------------------------------------------------

  ghost predicate SameTree(b: Board, n: nat, p: Path, q: Path) {
    exists c :: Leaf(b, n, c, p) && Leaf(b, n, c, q)
  }

  lemma {:induction false} ChainStaysInTree(b: Board, n: nat, flat: map<Path, Cell>, chain: seq<Path>, c: Ref)
    requires 0 < n && Placed(b, n) && Denotes(b, n, flat, {}) && chain != [] && Chain(flat.Keys, chain)
    requires Leaf(b, n, c, chain[0])
    ensures Leaf(b, n, c, chain[|chain|-1])
    decreases |chain|
  {
    if |chain| > 1 {
      assert Touch(chain[0], chain[1]);
      var i :| 0 <= i < |chain[0]| && i < |chain[1]| && chain[0][i] == chain[1][i];
      assert chain[1] in flat.Keys && chain[1] != [];
      var d :| Leaf(b, n, d, chain[1]);
      OneTree(b, n, c, chain[0], i);
      OneTree(b, n, d, chain[1], i);
      assert Chain(flat.Keys, chain[1..]) by {
        forall k | 0 < k < |chain[1..]| ensures Touch(chain[1..][k-1], chain[1..][k]) {
          assert Touch(chain[k], chain[k+1]);
        }
      }
      ChainStaysInTree(b, n, flat, chain[1..], c);
    }
  }

  /** Two recorded points are in the same tree exactly when a chain of points that share dimension
      values links them. */
  lemma SameTreeIsLinked(b: Board, n: nat, flat: map<Path, Cell>, p: Path, q: Path)
    requires 0 < n && Placed(b, n) && Denotes(b, n, flat, {}) && Connected(b, n, flat.Keys)
    requires p in flat && q in flat
    ensures SameTree(b, n, p, q) <==> Linked(flat.Keys, p, q)
  {
    if Linked(flat.Keys, p, q) {
      var chain: seq<Path> :| chain != [] && chain[0] == p && chain[|chain|-1] == q && Chain(flat.Keys, chain);
      assert p != [];
      var c :| Leaf(b, n, c, p);
      ChainStaysInTree(b, n, flat, chain, c);
      assert Leaf(b, n, c, q);
    }
  }

  // ---------------------------------------------------------------------------------------------
  // Merging two components
  // ---------------------------------------------------------------------------------------------

  function Redirected(index: map<string, Ref>, source: Ref, target: Ref): map<string, Ref> {
    map v | v in index :: if index[v] == source then target else index[v]
  }

  function Without(s: seq<Ref>, x: Ref): seq<Ref> {
    if s == [] then [] else if s[0] == x then s[1..] else [s[0]] + Without(s[1..], x)
  }

  lemma ConsIn(s: seq<Ref>, w: seq<Ref>, x: Ref)
    requires Distinct(s) && s != [] && s[0] != x && Distinct(w)
    requires forall y :: y in w <==> y in s[1..] && y != x
    ensures Distinct([s[0]] + w)
    ensures forall y :: y in [s[0]] + w <==> y in s && y != x
  {
    assert s == [s[0]] + s[1..];
    assert s[0] !in w;
  }

  lemma {:induction false} WithoutIn(s: seq<Ref>, x: Ref)
    requires Distinct(s)
    ensures forall y :: y in Without(s, x) <==> y in s && y != x
    ensures Distinct(Without(s, x))
    ensures |Without(s, x)| == |s| - if x in s then 1 else 0
  {
    if s != [] && s[0] != x {
      WithoutIn(s[1..], x);
      var w := Without(s[1..], x);
      assert Without(s, x) == [s[0]] + w;
      hide Without;
      ConsIn(s, w, x);
    } else if s != [] {
      forall y ensures y in s[1..] <==> y in s && y != x {
        if y in s[1..] {
          var k :| 0 <= k < |s[1..]| && s[1..][k] == y;
          assert s[k+1] == y;
        }
      }
    }
  }

  function Merged(b: Board, target: Ref, source: Ref): Board
    requires target in b.memory && source in b.memory
  {
    Board(b.memory[target := Merge(b.memory[target], b.memory[source])] - {source},
          Without(b.components, source),
          seq(|b.indexes|, i requires 0 <= i < |b.indexes| => Redirected(b.indexes[i], source, target)))
  }

  ghost predicate TwoComponents(b: Board, n: nat, target: Ref, source: Ref) {
    Placed(b, n) && target in b.components && source in b.components && target != source
  }

  lemma MergedOwns(b: Board, n: nat, target: Ref, source: Ref, c: Ref, p: Path)
    requires TwoComponents(b, n, target, source)
    ensures var d := Merged(b, target, source);
            && (Owns(d, c, p) <==> c != source && (Owns(b, c, p) || (c == target && Owns(b, source, p))))
            && (Owns(d, c, p) ==>
                  At(d.memory[c], p)
                  == if c == target && Owns(b, source, p) then At(b.memory[source], p) else At(b.memory[c], p))
  {
    WithoutIn(b.components, source);
    MergeAt(b.memory[target], b.memory[source], p);
  }

  lemma MergedPlaced(b: Board, n: nat, target: Ref, source: Ref)
    requires TwoComponents(b, n, target, source)
    ensures Placed(Merged(b, target, source), n)
  {
    var d := Merged(b, target, source);
    WithoutIn(b.components, source);
    forall c, p | Owns(d, c, p) && p != []
      ensures |p| <= n && p[|p|-1] in d.indexes[|p|-1] && d.indexes[|p|-1][p[|p|-1]] == c
    {
      MergedOwns(b, n, target, source, c, p);
    }
  }

  lemma MergedBacked(b: Board, n: nat, target: Ref, source: Ref)
    requires TwoComponents(b, n, target, source) && Backed(b, n, [], 0) && 0 < n
    ensures Backed(Merged(b, target, source), n, [], 0)
  {
    var d := Merged(b, target, source);
    WithoutIn(b.components, source);
    forall i, v | 0 <= i < n && v in d.indexes[i]
      ensures d.indexes[i][v] in d.components && BackedBy(d, n, i, v)
    {
      assert BackedBy(b, n, i, v);
      var p :| Leaf(b, n, b.indexes[i][v], p) && p[i] == v;
      MergedOwns(b, n, target, source, d.indexes[i][v], p);
      assert Leaf(d, n, d.indexes[i][v], p);
    }
  }

  lemma MergedDenotes(b: Board, n: nat, target: Ref, source: Ref, flat: map<Path, Cell>)
    requires TwoComponents(b, n, target, source) && Denotes(b, n, flat, {}) && 0 < n
    ensures Denotes(Merged(b, target, source), n, flat, {})
  {
    var d := Merged(b, target, source);
    forall p <- flat ensures exists c :: Leaf(d, n, c, p) && At(d.memory[c], p) == Found(flat[p]) {
      assert |p| == n && p != [];
      var c :| Leaf(b, n, c, p) && At(b.memory[c], p) == Found(flat[p]);
      OneTree(b, n, c, p, 0);
      if Leaf(b, n, source, p) {
        OneTree(b, n, source, p, 0);
      }
      var e := if c == source then target else c;
      MergedOwns(b, n, target, source, e, p);
      assert Leaf(d, n, e, p);
    }
    forall c, p | Leaf(d, n, c, p) ensures p in flat {
      MergedOwns(b, n, target, source, c, p);
      assert Leaf(b, n, c, p) || Leaf(b, n, source, p);
      assert p != [];
    }
  }

  lemma MergedInhabited(b: Board, n: nat, target: Ref, source: Ref)
    requires TwoComponents(b, n, target, source) && Inhabited(b, n, {})
    ensures Inhabited(Merged(b, target, source), n, {})
  {
    var d := Merged(b, target, source);
    WithoutIn(b.components, source);
    forall c <- d.components ensures exists p :: Leaf(d, n, c, p) {
      var p :| Leaf(b, n, c, p);
      MergedOwns(b, n, target, source, c, p);
      assert Leaf(d, n, c, p);
    }
  }

  /** The points of a tree are linked to a given point. */
  ghost predicate LinkedTo(b: Board, n: nat, points: set<Path>, c: Ref, q: Path) {
    forall p :: Leaf(b, n, c, p) ==> Linked(points, p, q)
  }

  lemma MergedConnected(b: Board, n: nat, target: Ref, source: Ref, points: set<Path>, q: Path)
    requires TwoComponents(b, n, target, source) && Connected(b, n, points)
    requires LinkedTo(b, n, points, target, q) && LinkedTo(b, n, points, source, q)
    ensures Connected(Merged(b, target, source), n, points)
    ensures LinkedTo(Merged(b, target, source), n, points, target, q)
  {
    var d := Merged(b, target, source);
    forall p | Leaf(d, n, target, p) ensures Linked(points, p, q) {
      MergedOwns(b, n, target, source, target, p);
      assert Leaf(b, n, target, p) || Leaf(b, n, source, p);
    }
    forall c, p, r | Leaf(d, n, c, p) && Leaf(d, n, c, r) ensures Linked(points, p, r) {
      if c == target {
        LinkedBack(points, r, q);
        LinkedTrans(points, p, q, r);
      } else {
        MergedOwns(b, n, target, source, c, p);
        MergedOwns(b, n, target, source, c, r);
        assert Leaf(b, n, c, p) && Leaf(b, n, c, r);
      }
    }
  }

  lemma MergedLinkedTo(b: Board, n: nat, target: Ref, source: Ref, points: set<Path>, c: Ref, q: Path)
    requires TwoComponents(b, n, target, source) && LinkedTo(b, n, points, c, q) && c != target
    ensures LinkedTo(Merged(b, target, source), n, points, c, q)
  {
    var d := Merged(b, target, source);
    forall p | Leaf(d, n, c, p) ensures Linked(points, p, q) {
      MergedOwns(b, n, target, source, c, p);
      assert Leaf(b, n, c, p);
    }
  }

  // ---------------------------------------------------------------------------------------------
  // The steps of an update
  // ---------------------------------------------------------------------------------------------

  /** Between updates. */
  ghost predicate Settled(b: Board, n: nat, flat: map<Path, Cell>) {
    && Placed(b, n) && Backed(b, n, [], 0) && Denotes(b, n, flat, {}) && Connected(b, n, flat.Keys)
    && Inhabited(b, n, {})
  }

  /** The index of a dimension maps a value to exactly the tree that holds a point with it; so two
      trees share no value in any dimension. */
  lemma IndexIsExact(b: Board, n: nat, flat: map<Path, Cell>, i: nat, v: string, c: Ref)
    requires i < n && Settled(b, n, flat)
    ensures (v in b.indexes[i] && b.indexes[i][v] == c) <==> exists p :: Leaf(b, n, c, p) && p[i] == v
  {
    if exists p :: Leaf(b, n, c, p) && p[i] == v {
      var p :| Leaf(b, n, c, p) && p[i] == v;
      OneTree(b, n, c, p, i);
    }
    if v in b.indexes[i] && b.indexes[i][v] == c {
      assert BackedBy(b, n, i, v);
    }
    hide Owns, Denotes, Connected, Inhabited;
  }

  lemma TreesShareNoValue(b: Board, n: nat, flat: map<Path, Cell>, c: Ref, d: Ref, p: Path, q: Path, i: nat)
    requires i < n && Settled(b, n, flat) && Leaf(b, n, c, p) && Leaf(b, n, d, q) && c != d
    ensures p[i] != q[i]
  {
    hide Denotes, Connected, Inhabited, Backed;
    OneTree(b, n, c, p, i);
    OneTree(b, n, d, q, i);
  }

  /** Merging loses nothing: a point is recorded exactly when some tree has it, one tree only, and
      there holds the cell that was last written for it. */
  lemma ForestIsFlat(b: Board, n: nat, flat: map<Path, Cell>, p: Path)
    requires 0 < n && Settled(b, n, flat)
    ensures p in flat <==> exists c :: Leaf(b, n, c, p)
    ensures forall c, d :: Leaf(b, n, c, p) && Leaf(b, n, d, p) ==> c == d
    ensures forall c :: Leaf(b, n, c, p) ==> p in flat && At(b.memory[c], p) == Found(flat[p])
  {
    forall c, d | Leaf(b, n, c, p) && Leaf(b, n, d, p) ensures c == d {
      OneTree(b, n, c, p, 0);
      OneTree(b, n, d, p, 0);
    }
    hide Owns, Connected, Inhabited, Backed, Placed;
  }

  /** While the components that hold a value of the new point are merged. */
  ghost predicate Gathering(b: Board, n: nat, flat: map<Path, Cell>, values: Path, roots: seq<Ref>) {
    && 0 < n == |values| && Placed(b, n) && Backed(b, n, [], 0) && Denotes(b, n, flat, {})
    && Connected(b, n, flat.Keys + {values}) && Inhabited(b, n, {}) && Distinct(roots)
    && RootsLinked(b, n, flat.Keys + {values}, values, roots) && RootsIndexed(b, n, values, roots)
  }

  ghost predicate RootsLinked(b: Board, n: nat, points: set<Path>, values: Path, roots: seq<Ref>) {
    forall c <- roots :: c in b.components && LinkedTo(b, n, points, c, values)
  }

  /** The values of the new point are indexed to the roots only. */
  ghost predicate RootsIndexed(b: Board, n: nat, values: Path, roots: seq<Ref>) {
    && |b.indexes| == n == |values|
    && forall i :: 0 <= i < n && values[i] in b.indexes[i] ==> b.indexes[i][values[i]] in roots
  }

  lemma GatherRoots(b: Board, n: nat, flat: map<Path, Cell>, values: Path, roots: seq<Ref>)
    requires 0 < n == |values| && Settled(b, n, flat) && Distinct(roots)
    requires forall c ::
               c in roots <==> exists i :: 0 <= i < n && values[i] in b.indexes[i] && b.indexes[i][values[i]] == c
    ensures Gathering(b, n, flat, values, roots)
  {
    SettledParts(b, n, flat);
    var points := flat.Keys + {values};
    assert RootsLinked(b, n, points, values, roots) by {
      forall c <- roots ensures c in b.components && LinkedTo(b, n, points, c, values) {
        var i :| 0 <= i < n && values[i] in b.indexes[i] && b.indexes[i][values[i]] == c;
        RootIsLinked(b, n, flat, values, i);
      }
      hide *;
    }
    ConnectedMore(b, n, flat.Keys, points);
    hide Settled, Placed, Backed, Denotes, Connected, Inhabited, Distinct, RootsLinked;
    GatherOf(b, n, flat, values, roots);
  }

  lemma SettledParts(b: Board, n: nat, flat: map<Path, Cell>)
    requires Settled(b, n, flat)
    ensures Placed(b, n) && Backed(b, n, [], 0) && Denotes(b, n, flat, {}) && Connected(b, n, flat.Keys)
    ensures Inhabited(b, n, {}) && |b.indexes| == n
  {
    assert |b.indexes| == n by { hide Backed, Denotes, Connected, Inhabited; }
    hide Placed, Backed, Denotes, Connected, Inhabited;
  }

  lemma ConnectedMore(b: Board, n: nat, points: set<Path>, more: set<Path>)
    requires Connected(b, n, points) && points <= more
    ensures Connected(b, n, more)
  {
    hide Leaf, Linked;
    forall c, p, q | Leaf(b, n, c, p) && Leaf(b, n, c, q) ensures Linked(more, p, q) {
      LinkedMore(points, more, p, q);
    }
  }

  /** The tree that a value of the new point is indexed to is linked to the point. */
  lemma RootIsLinked(b: Board, n: nat, flat: map<Path, Cell>, values: Path, i: nat)
    requires i < n == |values| && Settled(b, n, flat) && |b.indexes| == n && values[i] in b.indexes[i]
    ensures b.indexes[i][values[i]] in b.components
    ensures LinkedTo(b, n, flat.Keys + {values}, b.indexes[i][values[i]], values)
  {
    SettledParts(b, n, flat);
    assert b.indexes[i][values[i]] in b.components && BackedBy(b, n, i, values[i]) by {
      hide Settled, Placed, Denotes, Connected, Inhabited, BackedBy;
    }
    hide Settled, Placed, Backed, Inhabited;
    var c := b.indexes[i][values[i]];
    var points := flat.Keys + {values};
    var q :| Leaf(b, n, c, q) && q[i] == values[i];
    assert Touch(q, values) && |q| == n && q in points by { hide Connected; }
    hide Denotes, Leaf, Touch;
    LinkedTouch(points, q, values);
    forall p | Leaf(b, n, c, p) ensures Linked(points, p, values) {
      LinkedMore(flat.Keys, points, p, q);
      LinkedTrans(points, p, q, values);
    }
  }

  lemma GatherNext(b: Board, n: nat, flat: map<Path, Cell>, values: Path, roots: seq<Ref>)
    requires Gathering(b, n, flat, values, roots) && 1 < |roots|
    ensures roots[0] in b.memory && roots[1] in b.memory && roots[1] in b.components
    ensures Gathering(Merged(b, roots[1], roots[0]), n, flat, values, roots[1..])
    ensures |Merged(b, roots[1], roots[0]).components| == |b.components| - 1
  {
    GatherFacts(b, n, flat, values, roots);
    hide *;
    var source, target := roots[0], roots[1];
    var points := flat.Keys + {values};
    GatheredRoots(b, n, target, source, points, values, roots);
    GatheredIndexes(b, n, values, roots);
    MergedPlaced(b, n, target, source);
    MergedBacked(b, n, target, source);
    MergedDenotes(b, n, target, source, flat);
    MergedInhabited(b, n, target, source);
    MergedConnected(b, n, target, source, points, values);
    GatherOf(Merged(b, target, source), n, flat, values, roots[1..]);
  }

  lemma GatherOf(b: Board, n: nat, flat: map<Path, Cell>, values: Path, roots: seq<Ref>)
    requires 0 < n == |values| && Placed(b, n) && Backed(b, n, [], 0) && Denotes(b, n, flat, {})
    requires Connected(b, n, flat.Keys + {values}) && Inhabited(b, n, {}) && Distinct(roots)
    requires RootsLinked(b, n, flat.Keys + {values}, values, roots) && RootsIndexed(b, n, values, roots)
    ensures Gathering(b, n, flat, values, roots)
  {
    hide Placed, Backed, Denotes, Connected, Inhabited, Distinct, RootsLinked, RootsIndexed;
  }

  lemma GatherFacts(b: Board, n: nat, flat: map<Path, Cell>, values: Path, roots: seq<Ref>)
    requires Gathering(b, n, flat, values, roots)
    ensures 0 < n == |values| && Placed(b, n) && Backed(b, n, [], 0) && Denotes(b, n, flat, {})
    ensures Connected(b, n, flat.Keys + {values}) && Inhabited(b, n, {}) && Distinct(roots)
    ensures RootsLinked(b, n, flat.Keys + {values}, values, roots) && RootsIndexed(b, n, values, roots)
    ensures 1 < |roots| ==>
              && TwoComponents(b, n, roots[1], roots[0]) && Distinct(roots[1..])
              && roots[0] in b.memory && roots[1] in b.memory && roots[1] in b.components
              && LinkedTo(b, n, flat.Keys + {values}, roots[0], values)
              && LinkedTo(b, n, flat.Keys + {values}, roots[1], values)
  {
    hide Backed, Denotes, Connected, Inhabited, RootsIndexed, LinkedTo, Owns;
    if 1 < |roots| {
      assert roots[0] in roots && roots[1] in roots;
    }
  }

  lemma GatheredRoots(b: Board, n: nat, target: Ref, source: Ref, points: set<Path>, values: Path, roots: seq<Ref>)
    requires TwoComponents(b, n, target, source) && Distinct(roots) && 1 < |roots|
    requires roots[0] == source && roots[1] == target && Connected(b, n, points)
    requires RootsLinked(b, n, points, values, roots)
    ensures RootsLinked(Merged(b, target, source), n, points, values, roots[1..])
    ensures |Merged(b, target, source).components| == |b.components| - 1
  {
    var d := Merged(b, target, source);
    WithoutIn(b.components, source);
    assert d.components == Without(b.components, source);
    assert source in roots && target in roots;
    hide Placed, LinkedTo, Connected, Merged, Without;
    MergedConnected(b, n, target, source, points, values);
    forall c <- roots[1..] ensures c in d.components && LinkedTo(d, n, points, c, values) {
      var k :| 0 <= k < |roots[1..]| && roots[1..][k] == c;
      assert roots[k+1] == c && c in roots;
      if c != target {
        MergedLinkedTo(b, n, target, source, points, c, values);
      }
    }
  }

  lemma GatheredIndexes(b: Board, n: nat, values: Path, roots: seq<Ref>)
    requires 1 < |roots| && roots[0] in b.memory && roots[1] in b.memory && RootsIndexed(b, n, values, roots)
    ensures RootsIndexed(Merged(b, roots[1], roots[0]), n, values, roots[1..])
  {
    var d := Merged(b, roots[1], roots[0]);
    forall i | 0 <= i < n && values[i] in d.indexes[i] ensures d.indexes[i][values[i]] in roots[1..] {
      assert b.indexes[i][values[i]] in roots;
      assert roots == [roots[0]] + roots[1..] && roots[1..][0] == roots[1];
    }
  }

  /** While the items of the new point are added below the only root that holds one of its values. */
  ghost predicate Walking(b: Board, n: nat, flat: map<Path, Cell>, values: Path, root: Ref, i: nat) {
    && 0 < n == |values| && i <= n && Placed(b, n) && Backed(b, n, values, root)
    && Denotes(b, n, flat, {values}) && Connected(b, n, flat.Keys + {values}) && Inhabited(b, n, {root})
    && Owns(b, root, values[..i]) && LinkedTo(b, n, flat.Keys + {values}, root, values)
    && RootsIndexed(b, n, values, [root])
    && (values in flat ==> Leaf(b, n, root, values))
  }

  lemma WalkFromRoot(b: Board, n: nat, flat: map<Path, Cell>, values: Path, root: Ref)
    requires Gathering(b, n, flat, values, [root])
    ensures Walking(b, n, flat, values, root, 0) && (Leaf(b, n, root, values) <==> values in flat)
  {
    hide *;
    GatherFacts(b, n, flat, values, [root]);
    OnlyRoot(b, n, flat.Keys + {values}, values, root);
    NothingToAdd(b, n, flat, values, root);
    if values in flat {
      FlatIsPlaced(b, n, flat, values);
    }
    LeafIsFlat(b, n, flat, root, values);
    WalkOf(b, n, flat, values, root, 0);
  }

  lemma OnlyRoot(b: Board, n: nat, points: set<Path>, values: Path, root: Ref)
    requires 0 < n && Placed(b, n) && RootsLinked(b, n, points, values, [root]) && RootsIndexed(b, n, values, [root])
    ensures LinkedTo(b, n, points, root, values) && Owns(b, root, values[..0])
    ensures values[0] in b.indexes[0] ==> b.indexes[0][values[0]] == root
  {
    hide LinkedTo;
    assert root in [root] && values[..0] == [];
  }

  lemma WalkOf(b: Board, n: nat, flat: map<Path, Cell>, values: Path, root: Ref, i: nat)
    requires 0 < n == |values| && i <= n && Placed(b, n) && Backed(b, n, values, root)
    requires Denotes(b, n, flat, {values}) && Connected(b, n, flat.Keys + {values}) && Inhabited(b, n, {root})
    requires Owns(b, root, values[..i]) && LinkedTo(b, n, flat.Keys + {values}, root, values)
    requires RootsIndexed(b, n, values, [root]) && (values in flat ==> Leaf(b, n, root, values))
    ensures Walking(b, n, flat, values, root, i)
  {
    hide Placed, Backed, Denotes, Connected, Inhabited, Owns, LinkedTo, RootsIndexed, Leaf;
  }

  /** A recorded point lies in the tree its first value is indexed to. */
  lemma FlatIsPlaced(b: Board, n: nat, flat: map<Path, Cell>, p: Path)
    requires 0 < n && Placed(b, n) && Denotes(b, n, flat, {}) && p in flat
    ensures |p| == n && p[0] in b.indexes[0] && Leaf(b, n, b.indexes[0][p[0]], p)
  {
    assert p != [];
    var c :| Leaf(b, n, c, p);
    OneTree(b, n, c, p, 0);
  }

  lemma LeafIsFlat(b: Board, n: nat, flat: map<Path, Cell>, c: Ref, p: Path)
    requires Denotes(b, n, flat, {})
    ensures Leaf(b, n, c, p) ==> p in flat
  {
    hide Leaf;
  }

  lemma NothingToAdd(b: Board, n: nat, flat: map<Path, Cell>, values: Path, root: Ref)
    requires 0 < n == |values| && Backed(b, n, [], 0) && Denotes(b, n, flat, {}) && Inhabited(b, n, {})
    ensures Backed(b, n, values, root) && Denotes(b, n, flat, {values}) && Inhabited(b, n, {root})
  {
    hide Leaf, BackedBy;
  }

  function Reindexed(indexes: seq<map<string, Ref>>, i: nat, v: string, root: Ref): seq<map<string, Ref>>
    requires i < |indexes|
  {
    var index: map<string, Ref> := indexes[i][v := root];
    indexes[i := index]
  }

  function Added(b: Board, root: Ref, v: string): Board
    requires b.indexes != []
  {
    Board(b.memory[root := LEAF], b.components + [root], Reindexed(b.indexes, 0, v, root))
  }

  lemma AddedOwns(b: Board, root: Ref, v: string, c: Ref, p: Path)
    requires b.indexes != [] && root !in b.components
    ensures var d := Added(b, root, v);
            && (Owns(d, c, p) <==> if c == root then p == [] else Owns(b, c, p))
            && (Owns(d, c, p) && c != root ==> d.memory[c] == b.memory[c])
  {
  }

  lemma WalkFromNewRoot(b: Board, n: nat, flat: map<Path, Cell>, values: Path, root: Ref)
    requires Gathering(b, n, flat, values, []) && root !in b.components
    ensures Walking(Added(b, root, values[0]), n, flat, values, root, 0)
    ensures !Leaf(Added(b, root, values[0]), n, root, values)
  {
    var d := Added(b, root, values[0]);
    if values in flat {
      FlatIsPlaced(b, n, flat, values);
    }
    assert values[0] !in b.indexes[0];
    assert values[..0] == [] && Owns(d, root, []);
    forall c, p ensures (Owns(d, c, p) <==> if c == root then p == [] else Owns(b, c, p))
      && (Owns(d, c, p) && c != root ==> d.memory[c] == b.memory[c])
    {
      AddedOwns(b, root, values[0], c, p);
    }
    assert RootsIndexed(d, n, values, [root]);
    assert AddedTo(b, d, n, values, root);
    AddedPlaced(b, d, n, values, root);
    AddedRest(b, d, n, flat, values, root);
    hide Placed, Backed, Denotes, Connected, Inhabited, LinkedTo, Added, Owns;
  }

  ghost predicate AddedTo(b: Board, d: Board, n: nat, values: Path, root: Ref) {
    && 0 < n == |values| == |b.indexes| && root !in b.components && root in d.memory
    && d.components == b.components + [root] && d.indexes == Reindexed(b.indexes, 0, values[0], root)
    && (forall c <- b.memory :: c in d.memory)
    && (forall c, p :: Owns(d, c, p) <==> if c == root then p == [] else Owns(b, c, p))
    && (forall c, p :: Owns(d, c, p) && c != root ==> c in d.memory && c in b.memory && d.memory[c] == b.memory[c])
  }

  lemma AddedPlaced(b: Board, d: Board, n: nat, values: Path, root: Ref)
    requires AddedTo(b, d, n, values, root) && Placed(b, n) && Backed(b, n, [], 0) && values[0] !in b.indexes[0]
    ensures Placed(d, n) && Backed(d, n, values, root)
  {
    AddedBacked(b, d, n, values, root);
    hide *;
    AddedIndexed(b, d, n, values, root);
    AddedDistinct(b, d, n, values, root);
  }

  ghost predicate IndexedAt(d: Board, n: nat, c: Ref, p: Path) {
    0 < |p| <= n == |d.indexes| && p[|p|-1] in d.indexes[|p|-1] && d.indexes[|p|-1][p[|p|-1]] == c
  }

  lemma AddedIndexed(b: Board, d: Board, n: nat, values: Path, root: Ref)
    requires AddedTo(b, d, n, values, root) && Placed(b, n) && values[0] !in b.indexes[0]
    ensures forall c, p :: Owns(d, c, p) && p != [] ==> IndexedAt(d, n, c, p)
  {
    hide Owns;
    forall c, p | Owns(d, c, p) && p != [] ensures IndexedAt(d, n, c, p) {
      assert Owns(b, c, p);
    }
  }

  lemma AddedDistinct(b: Board, d: Board, n: nat, values: Path, root: Ref)
    requires AddedTo(b, d, n, values, root) && Placed(b, n)
    requires forall c, p :: Owns(d, c, p) && p != [] ==> IndexedAt(d, n, c, p)
    ensures Placed(d, n)
  {
    hide Owns;
  }

  lemma AddedBacked(b: Board, d: Board, n: nat, values: Path, root: Ref)
    requires AddedTo(b, d, n, values, root) && Backed(b, n, [], 0)
    ensures Backed(d, n, values, root)
  {
    forall i, v | 0 <= i < n && v in d.indexes[i]
      ensures d.indexes[i][v] in d.components
           && (BackedBy(d, n, i, v) || (values[i] == v && d.indexes[i][v] == root))
    {
      hide Owns;
      if !(i == 0 && v == values[0]) {
        assert BackedBy(b, n, i, v) && b.indexes[i][v] in b.components;
        var p :| Leaf(b, n, b.indexes[i][v], p) && p[i] == v;
        assert Leaf(d, n, d.indexes[i][v], p);
      }
    }
  }

  lemma AddedRest(b: Board, d: Board, n: nat, flat: map<Path, Cell>, values: Path, root: Ref)
    requires AddedTo(b, d, n, values, root) && Denotes(b, n, flat, {}) && Inhabited(b, n, {})
    requires Connected(b, n, flat.Keys + {values})
    ensures Denotes(d, n, flat, {values}) && Inhabited(d, n, {root})
    ensures Connected(d, n, flat.Keys + {values}) && LinkedTo(d, n, flat.Keys + {values}, root, values)
  {
    AddedLeaves(b, d, n, values, root);
    AddedLinks(b, n, flat.Keys + {values}, root, values);
    hide AddedTo, Owns;
    NoException(b, n, flat, values, root);
    RestKept(b, d, n, flat, values, root);
  }

  lemma AddedLinks(b: Board, n: nat, points: set<Path>, root: Ref, q: Path)
    requires root !in b.components
    ensures LinkedTo(b, n, points, root, q)
  {
  }

  lemma NoException(b: Board, n: nat, flat: map<Path, Cell>, values: Path, root: Ref)
    requires Denotes(b, n, flat, {}) && Inhabited(b, n, {})
    ensures Denotes(b, n, flat, {values}) && Inhabited(b, n, {root})
  {
    hide Leaf;
  }

  lemma AddedLeaves(b: Board, d: Board, n: nat, values: Path, root: Ref)
    requires AddedTo(b, d, n, values, root)
    ensures LeavesBut(b, d, n, root, values)
  {
    forall c, p ensures Leaf(d, n, c, p) <==> Leaf(b, n, c, p) {
      hide Owns;
      assert |p| == n ==> p != [];
      assert c == root ==> !Owns(b, c, p) by { assert Owns(b, c, p) ==> c in b.components by { OwnsIn(b, c, p); } }
    }
    hide Owns;
  }

  lemma OwnsIn(b: Board, c: Ref, p: Path)
    ensures Owns(b, c, p) ==> c in b.components && c in b.memory
  {
  }

  /** The recorded points are the same, but maybe for one more in the given tree. */
  ghost predicate LeavesBut(b: Board, d: Board, n: nat, root: Ref, values: Path) {
    && (forall c <- d.components :: c in b.components || c == root)
    && (forall c, p :: Leaf(d, n, c, p) ==> Leaf(b, n, c, p) || (c == root && p == values))
    && (forall c, p :: Leaf(b, n, c, p) ==>
          Leaf(d, n, c, p) && c in b.memory && c in d.memory && At(d.memory[c], p) == At(b.memory[c], p))
  }

  lemma RestKept(b: Board, d: Board, n: nat, flat: map<Path, Cell>, values: Path, root: Ref)
    requires LeavesBut(b, d, n, root, values) && Denotes(b, n, flat, {values}) && Inhabited(b, n, {root})
    requires Connected(b, n, flat.Keys + {values}) && LinkedTo(b, n, flat.Keys + {values}, root, values)
    ensures Denotes(d, n, flat, {values}) && Inhabited(d, n, {root})
    ensures Connected(d, n, flat.Keys + {values}) && LinkedTo(d, n, flat.Keys + {values}, root, values)
  {
    hide *;
    DenotesKept(b, d, n, flat, values, root);
    InhabitedKept(b, d, n, values, root);
    ConnectedKept(b, d, n, flat.Keys + {values}, values, root);
  }

  lemma DenotesKept(b: Board, d: Board, n: nat, flat: map<Path, Cell>, values: Path, root: Ref)
    requires LeavesBut(b, d, n, root, values) && Denotes(b, n, flat, {values})
    ensures Denotes(d, n, flat, {values})
  {
    forall p <- flat | p != values ensures exists c :: Leaf(d, n, c, p) && At(d.memory[c], p) == Found(flat[p]) {
      var c :| Leaf(b, n, c, p) && At(b.memory[c], p) == Found(flat[p]);
      assert Leaf(d, n, c, p);
    }
    forall c, p | Leaf(d, n, c, p) && p != values ensures p in flat {
      assert Leaf(b, n, c, p);
    }
    hide Leaf;
  }

  lemma InhabitedKept(b: Board, d: Board, n: nat, values: Path, root: Ref)
    requires LeavesBut(b, d, n, root, values) && Inhabited(b, n, {root})
    ensures Inhabited(d, n, {root})
  {
    hide Leaf;
    forall c <- d.components | c != root ensures exists p :: Leaf(d, n, c, p) {
      var p :| Leaf(b, n, c, p);
      assert Leaf(d, n, c, p);
    }
  }

  lemma ConnectedKept(b: Board, d: Board, n: nat, points: set<Path>, values: Path, root: Ref)
    requires LeavesBut(b, d, n, root, values) && Connected(b, n, points) && LinkedTo(b, n, points, root, values)
    requires values in points
    ensures Connected(d, n, points) && LinkedTo(d, n, points, root, values)
  {
    hide Leaf, Linked;
    LinkedItself(points, values);
    forall c, p, q | Leaf(d, n, c, p) && Leaf(d, n, c, q) ensures Linked(points, p, q) {
      if p == values && c == root {
        if q != values {
          assert Leaf(b, n, c, q);
          LinkedBack(points, q, values);
        }
      } else if q == values && c == root {
        assert Leaf(b, n, c, p);
      } else {
        assert Leaf(b, n, c, p) && Leaf(b, n, c, q);
      }
    }
  }

  function Grown(b: Board, root: Ref, p: Path, v: string): Board
    requires root in b.memory && Has(b.memory[root], p) && |p| < |b.indexes|
  {
    b.(memory := b.memory[root := Grow(b.memory[root], p, v)],
       indexes := Reindexed(b.indexes, |p|, v, root))
  }

  lemma GrownOwns(b: Board, root: Ref, p: Path, v: string, c: Ref, q: Path)
    requires root in b.memory && root in b.components && Has(b.memory[root], p) && |p| < |b.indexes|
    requires !Has(b.memory[root], p + [v])
    ensures var d := Grown(b, root, p, v);
            && (Owns(d, c, q) <==> Owns(b, c, q) || (c == root && q == p + [v]))
            && (Owns(b, c, q) ==> At(d.memory[c], q) == At(b.memory[c], q))
  {
    GrowAt(b.memory[root], p, v, q);
  }

  lemma WalkNext(b: Board, n: nat, flat: map<Path, Cell>, values: Path, root: Ref, i: nat)
    requires Walking(b, n, flat, values, root, i) && i < n
    requires !Has(b.memory[root], values[..i+1])
    ensures Walking(Grown(b, root, values[..i], values[i]), n, flat, values, root, i + 1)
    ensures Leaf(Grown(b, root, values[..i], values[i]), n, root, values)
       <==> i + 1 == n || Leaf(b, n, root, values)
  {
    var d := Grown(b, root, values[..i], values[i]);
    WalkParts(b, n, flat, values, root, i);
    IsGrown(b, n, values, root, i);
    assert root in b.components && root in d.components && Owns(d, root, values[..i+1]);
    assert i + 1 == n ==> values[..i+1] == values;
    assert Leaf(d, n, root, values) <==> i + 1 == n || Leaf(b, n, root, values);
    assert RootsIndexed(d, n, values, [root]) by { hide Placed, Backed, Owns; }
    hide *;
    GrownPlaced(b, d, n, values, root, i);
    GrownRest(b, d, n, flat, values, root, i);
    WalkOf(d, n, flat, values, root, i + 1);
  }

  lemma WalkParts(b: Board, n: nat, flat: map<Path, Cell>, values: Path, root: Ref, i: nat)
    requires Walking(b, n, flat, values, root, i)
    ensures 0 < n == |values| && i <= n && Placed(b, n) && Backed(b, n, values, root)
    ensures Denotes(b, n, flat, {values}) && Connected(b, n, flat.Keys + {values}) && Inhabited(b, n, {root})
    ensures Owns(b, root, values[..i]) && LinkedTo(b, n, flat.Keys + {values}, root, values)
    ensures RootsIndexed(b, n, values, [root]) && (values in flat ==> Leaf(b, n, root, values))
  {
    hide Placed, Backed, Denotes, Connected, Inhabited, Owns, LinkedTo, RootsIndexed, Leaf;
  }

  lemma IsGrown(b: Board, n: nat, values: Path, root: Ref, i: nat)
    requires i < n == |values| == |b.indexes| && Owns(b, root, values[..i]) && !Has(b.memory[root], values[..i+1])
    ensures GrownBy(b, Grown(b, root, values[..i], values[i]), n, values, root, i)
  {
    var d := Grown(b, root, values[..i], values[i]);
    var item := values[..i+1];
    assert item == values[..i] + [values[i]];
    forall c, q
      ensures (Owns(d, c, q) <==> Owns(b, c, q) || (c == root && q == item))
           && (Owns(b, c, q) ==> At(d.memory[c], q) == At(b.memory[c], q))
    {
      GrownOwns(b, root, values[..i], values[i], c, q);
    }
  }

  ghost predicate GrownBy(b: Board, d: Board, n: nat, values: Path, root: Ref, i: nat) {
    && i < n == |values| == |b.indexes|
    && d.components == b.components && (forall c <- b.memory :: c in d.memory)
    && d.indexes == Reindexed(b.indexes, i, values[i], root)
    && (forall c, q :: Owns(d, c, q) <==> Owns(b, c, q) || (c == root && q == values[..i+1]))
    && (forall c, q :: Owns(b, c, q) ==> At(d.memory[c], q) == At(b.memory[c], q))
  }

  lemma GrownPlaced(b: Board, d: Board, n: nat, values: Path, root: Ref, i: nat)
    requires GrownBy(b, d, n, values, root, i) && Placed(b, n) && Backed(b, n, values, root)
    requires RootsIndexed(b, n, values, [root]) && root in b.components
    ensures Placed(d, n) && Backed(d, n, values, root)
  {
    GrownBacked(b, d, n, values, root, i);
    hide *;
    GrownFacts(b, d, n, values, root, i);
    StillPlaced(b, d, n, values[..i+1], root);
  }

  lemma GrownFacts(b: Board, d: Board, n: nat, values: Path, root: Ref, i: nat)
    requires GrownBy(b, d, n, values, root, i) && RootsIndexed(b, n, values, [root])
    ensures |values[..i+1]| == i + 1 && OneMoreItem(b, d, n, values[..i+1], root)
  {
    ReindexedExtends(b, n, values, root, i);
    hide Owns, Reindexed, Extends, RootsIndexed;
  }

  ghost predicate OneMoreItem(b: Board, d: Board, n: nat, item: Path, root: Ref) {
    && d.components == b.components && (forall c <- b.memory :: c in d.memory)
    && |d.indexes| == n && Extends(b.indexes, d.indexes) && IndexedAt(d, n, root, item)
    && (forall c, q :: Owns(d, c, q) ==> Owns(b, c, q) || (c == root && q == item))
  }

  lemma ReindexedExtends(b: Board, n: nat, values: Path, root: Ref, i: nat)
    requires RootsIndexed(b, n, values, [root]) && i < n
    ensures var indexes := Reindexed(b.indexes, i, values[i], root);
            |indexes| == n && Extends(b.indexes, indexes) && values[i] in indexes[i] && indexes[i][values[i]] == root
  {
  }

  ghost predicate Extends(a: seq<map<string, Ref>>, b: seq<map<string, Ref>>) {
    |a| == |b| && forall k, v | 0 <= k < |a| && v in a[k] :: v in b[k] && b[k][v] == a[k][v]
  }

  /** One more item, that is indexed as it should. */
  lemma StillPlaced(b: Board, d: Board, n: nat, item: Path, root: Ref)
    requires Placed(b, n) && OneMoreItem(b, d, n, item, root)
    ensures Placed(d, n)
  {
    hide Owns;
    forall c, p | Owns(d, c, p) && p != [] ensures IndexedAt(d, n, c, p) {
      if Owns(b, c, p) {
        assert p[|p|-1] in b.indexes[|p|-1];
      }
    }
  }

  lemma GrownBacked(b: Board, d: Board, n: nat, values: Path, root: Ref, i: nat)
    requires GrownBy(b, d, n, values, root, i) && Backed(b, n, values, root) && root in b.components
    ensures Backed(d, n, values, root)
  {
    hide Owns;
    forall k, v | 0 <= k < n && v in d.indexes[k]
      ensures d.indexes[k][v] in d.components
           && (BackedBy(d, n, k, v) || (values[k] == v && d.indexes[k][v] == root))
    {
      if !(k == i && v == values[i]) && BackedBy(b, n, k, v) {
        var p :| Leaf(b, n, b.indexes[k][v], p) && p[k] == v;
        assert Leaf(d, n, d.indexes[k][v], p);
      }
    }
  }

  lemma GrownRest(b: Board, d: Board, n: nat, flat: map<Path, Cell>, values: Path, root: Ref, i: nat)
    requires GrownBy(b, d, n, values, root, i) && root in b.components && Denotes(b, n, flat, {values})
    requires Connected(b, n, flat.Keys + {values}) && Inhabited(b, n, {root})
    requires LinkedTo(b, n, flat.Keys + {values}, root, values)
    ensures Denotes(d, n, flat, {values}) && Inhabited(d, n, {root})
    ensures Connected(d, n, flat.Keys + {values}) && LinkedTo(d, n, flat.Keys + {values}, root, values)
  {
    assert |values[..i+1]| == n ==> values[..i+1] == values;
    assert LeavesBut(b, d, n, root, values) by { hide Denotes, Connected, Inhabited, LinkedTo; }
    hide *;
    RestKept(b, d, n, flat, values, root);
  }

  function Written(b: Board, root: Ref, p: Path, cell: Cell): Board
    requires root in b.memory && Has(b.memory[root], p)
  {
    b.(memory := b.memory[root := Write(b.memory[root], p, cell)])
  }

  lemma WrittenOwns(b: Board, root: Ref, p: Path, cell: Cell, c: Ref, q: Path)
    requires root in b.memory && Has(b.memory[root], p)
    ensures var d := Written(b, root, p, cell);
            && (Owns(d, c, q) <==> Owns(b, c, q))
            && (Owns(b, c, q) ==> At(d.memory[c], q) == if c == root && q == p then Found(cell) else At(b.memory[c], q))
  {
    WriteAt(b.memory[root], p, cell, q);
  }

  ghost predicate WrittenAs(b: Board, d: Board, root: Ref, p: Path, cell: Cell) {
    && d.components == b.components && d.indexes == b.indexes && (forall c <- b.memory :: c in d.memory)
    && (forall c, q :: Owns(d, c, q) <==> Owns(b, c, q))
    && (forall c, q :: Owns(b, c, q) ==>
          c in b.memory && c in d.memory
          && At(d.memory[c], q) == if c == root && q == p then Found(cell) else At(b.memory[c], q))
  }

  /** The cell is written: the board is settled again, and the flat map has one more entry. */
  lemma WalkEnd(b: Board, n: nat, flat: map<Path, Cell>, values: Path, root: Ref, cell: Cell)
    requires Walking(b, n, flat, values, root, n)
    ensures Leaf(b, n, root, values) && root in b.memory && Has(b.memory[root], values)
    ensures Settled(Written(b, root, values, cell), n, flat[values := cell])
  {
    hide *;
    WalkFacts(b, n, flat, values, root);
    var d := Written(b, root, values, cell);
    assert flat[values := cell].Keys == flat.Keys + {values};
    IsWritten(b, root, values, cell);
    WrittenPlaced(b, d, n, values, root, cell);
    WrittenBacked(b, d, n, values, root, cell);
    WrittenDenotes(b, d, n, flat, values, root, cell);
    WrittenRest(b, d, n, flat.Keys + {values}, values, root, cell);
    SettledOf(d, n, flat[values := cell]);
  }

  lemma WalkFacts(b: Board, n: nat, flat: map<Path, Cell>, values: Path, root: Ref)
    requires Walking(b, n, flat, values, root, n)
    ensures Placed(b, n) && Backed(b, n, values, root) && Denotes(b, n, flat, {values})
    ensures Connected(b, n, flat.Keys + {values}) && Inhabited(b, n, {root}) && Leaf(b, n, root, values)
    ensures root in b.memory && root in b.components && Has(b.memory[root], values)
  {
    assert values[..n] == values;
    hide Placed, Backed, Denotes, Connected, Inhabited, LinkedTo, RootsIndexed;
  }

  lemma IsWritten(b: Board, root: Ref, values: Path, cell: Cell)
    requires root in b.memory && Has(b.memory[root], values)
    ensures WrittenAs(b, Written(b, root, values, cell), root, values, cell)
  {
    var d := Written(b, root, values, cell);
    forall c, q
      ensures (Owns(d, c, q) <==> Owns(b, c, q))
           && (Owns(b, c, q) ==>
                 At(d.memory[c], q) == if c == root && q == values then Found(cell) else At(b.memory[c], q))
    {
      WrittenOwns(b, root, values, cell, c, q);
    }
  }

  lemma SettledOf(b: Board, n: nat, flat: map<Path, Cell>)
    requires Placed(b, n) && Backed(b, n, [], 0) && Denotes(b, n, flat, {}) && Connected(b, n, flat.Keys)
    requires Inhabited(b, n, {})
    ensures Settled(b, n, flat)
  {
    hide Placed, Backed, Denotes, Connected, Inhabited;
  }

  lemma WrittenPlaced(b: Board, d: Board, n: nat, values: Path, root: Ref, cell: Cell)
    requires WrittenAs(b, d, root, values, cell) && Placed(b, n)
    ensures Placed(d, n)
  {
    hide Owns;
  }

  lemma WrittenBacked(b: Board, d: Board, n: nat, values: Path, root: Ref, cell: Cell)
    requires WrittenAs(b, d, root, values, cell) && Backed(b, n, values, root) && Leaf(b, n, root, values)
    ensures Backed(d, n, [], 0)
  {
    hide Owns;
    forall i, v | 0 <= i < n && v in d.indexes[i] ensures BackedBy(d, n, i, v) {
      assert BackedBy(b, n, i, v);
      var p :| Leaf(b, n, b.indexes[i][v], p) && p[i] == v;
      assert Leaf(d, n, d.indexes[i][v], p);
    }
  }

  lemma WrittenDenotes(b: Board, d: Board, n: nat, flat: map<Path, Cell>, values: Path, root: Ref, cell: Cell)
    requires WrittenAs(b, d, root, values, cell) && Denotes(b, n, flat, {values}) && Leaf(b, n, root, values)
    ensures Denotes(d, n, flat[values := cell], {})
  {
    hide Owns;
    var now := flat[values := cell];
    forall p <- now ensures |p| == n && exists c :: Leaf(d, n, c, p) && At(d.memory[c], p) == Found(now[p]) {
      if p == values {
        assert Leaf(d, n, root, p) && At(d.memory[root], p) == Found(now[p]);
      } else {
        var c :| Leaf(b, n, c, p) && At(b.memory[c], p) == Found(flat[p]);
        assert Leaf(d, n, c, p) && At(d.memory[c], p) == Found(now[p]);
      }
    }
    forall c, p | Leaf(d, n, c, p) ensures p in now {
      assert Leaf(b, n, c, p);
    }
  }

  lemma WrittenRest(b: Board, d: Board, n: nat, points: set<Path>, values: Path, root: Ref, cell: Cell)
    requires WrittenAs(b, d, root, values, cell) && Leaf(b, n, root, values)
    requires Connected(b, n, points) && Inhabited(b, n, {root})
    ensures Connected(d, n, points) && Inhabited(d, n, {})
  {
    hide Owns, Linked;
    forall c, p, q | Leaf(d, n, c, p) && Leaf(d, n, c, q) ensures Linked(points, p, q) {
      assert Leaf(b, n, c, p) && Leaf(b, n, c, q);
    }
    assert Leaf(d, n, root, values);
    forall c <- d.components | c != root ensures exists p :: Leaf(d, n, c, p) {
      var p :| Leaf(b, n, c, p);
      assert Leaf(d, n, c, p);
    }
  }
}
