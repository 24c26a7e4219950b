/** A gridboard: components merged as points arrive, one index for each dimension, counters. */
module Gridboard {
  import opened GridForest
  import opened GridBoardModel
  import A = Alert

  /** What an alert writes in a cell. */
  function CellOf(status: A.AlertStatus, now: int): Cell {
    match status
    case Raised => Cell(Raised, now)
    case Rising => Cell(Raised, now)
    case MayRise => Cell(Ok, now)
    case Dropping => Cell(Ok, now)
    case Canceled => Cell(Ok, now)
    case Nonexistent => Cell(Ok, now)
  }

  function ValueOf(raw: string): string {
    if raw == "" then "(none)" else raw
  }

  function Values(raw: seq<string>): (r: Path)
    ensures |r| == |raw| && forall i :: 0 <= i < |raw| ==> r[i] == ValueOf(raw[i])
  {
    seq(|raw|, i requires 0 <= i < |raw| => ValueOf(raw[i]))
  }

  /** Two alerts share a point exactly when they have the same values, an empty one being as good as the
      text that stands for it. */
  lemma SamePointExactly(a: seq<string>, b: seq<string>)
    requires |a| == |b|
    ensures Values(a) == Values(b)
       <==> forall i :: 0 <= i < |a| ==> a[i] == b[i] || {a[i], b[i]} == {"", "(none)"}
  {
    if Values(a) == Values(b) {
      forall i | 0 <= i < |a| ensures a[i] == b[i] || {a[i], b[i]} == {"", "(none)"} {
        assert Values(a)[i] == Values(b)[i];
      }
    }
    if forall i :: 0 <= i < |a| ==> a[i] == b[i] || {a[i], b[i]} == {"", "(none)"} {
      forall i | 0 <= i < |a| ensures Values(a)[i] == Values(b)[i] {
        SameValue(a[i], b[i]);
      }
    }
  }

  lemma SameValue(x: string, y: string)
    requires x == y || {x, y} == {"", "(none)"}
    ensures ValueOf(x) == ValueOf(y)
  {
    assert x in {x, y} && y in {x, y};
  }

  class Gridboard {
    const dimensions: nat
    var memory: map<Ref, Tree>
    var next: Ref
    var components: seq<Ref>
    var indexes: seq<map<string, Ref>>
    var updates: nat
    var currentComponents: int
    var currentItems: int
    ghost var flat: map<Path, Cell>

    ghost function Bd(): Board
      reads `memory, `components, `indexes
    {
      Board(memory, components, indexes)
    }

    /** The forest denotes the flat map; the counters count its trees and its points. */
    ghost predicate Valid()
      reads `memory, `next, `components, `indexes, `currentComponents, `currentItems, `flat
    {
      && |indexes| == dimensions && (forall r <- memory :: r < next) && (forall c <- components :: c in memory)
      && (if dimensions == 0 then components == [] && flat == map[] else Settled(Bd(), dimensions, flat))
      && currentComponents == |components| && currentItems == |flat|
    }

    constructor (dimensions: nat)
      ensures Valid() && this.dimensions == dimensions && flat == map[]
    {
      this.dimensions := dimensions;
      memory, next, components, updates, currentComponents, currentItems := map[], 0, [], 0, 0, 0;
      indexes := seq(dimensions, _ => map[]);
      flat := map[];
    }

    method Clear()
      requires Valid()
      modifies this
      ensures Valid() && flat == map[] && updates == old(updates)
    {
      hide Settled;
      components := [];
      ClearIndexes();
      currentComponents := 0;
      currentItems := 0;
      flat := map[];
      NothingIsSettled(Bd(), dimensions);
    }

    method ClearIndexes()
      modifies `indexes
      ensures |indexes| == old(|indexes|) && forall k :: 0 <= k < |indexes| ==> indexes[k] == map[]
    {
      for i := 0 to |indexes|
        invariant |indexes| == old(|indexes|) && (forall k :: 0 <= k < i ==> indexes[k] == map[])
      {
        indexes := indexes[i := map[]];
      }
    }

    /** The dimension values of a point, and the roots of the components that hold one of them. */
    method ComponentRoots(raw: seq<string>) returns (values: Path, roots: set<Ref>)
      requires |raw| == dimensions == |indexes|
      ensures values == Values(raw)
      ensures forall c :: c in roots <==>
                exists i :: 0 <= i < dimensions && values[i] in indexes[i] && indexes[i][values[i]] == c
    {
      values, roots := [], {};
      for i := 0 to dimensions
        invariant values == Values(raw)[..i]
        invariant forall c :: c in roots <==>
                    exists k :: 0 <= k < i && values[k] in indexes[k] && indexes[k][values[k]] == c
      {
        var value := if raw[i] == "" then "(none)" else raw[i];
        ghost var was := values;
        values := values + [value];
        if value in indexes[i] {
          roots := roots + {indexes[i][value]};
        }
        assert forall k :: 0 <= k < i ==> values[k] == was[k];
        assert values[i] == value;
      }
    }

    method Listed(refs: set<Ref>) returns (list: seq<Ref>)
      ensures Distinct(list) && forall c :: c in list <==> c in refs
    {
      list := [];
      var todo := refs;
      while todo != {}
        invariant todo <= refs && Distinct(list) && forall c :: c in list <==> c in refs - todo
      {
        var c :| c in todo;
        assert c !in list;
        todo := todo - {c};
        list := list + [c];
      }
    }

    method MergeInto(target: Tree, source: Tree) returns (merged: Tree)
      ensures merged == Merge(target, source)
      decreases source
    {
      var children := target.children;
      var todo := source.children.Keys;
      while todo != {}
        invariant todo <= source.children.Keys
        invariant children.Keys == target.children.Keys + (source.children.Keys - todo)
        invariant forall v <- children ::
                    children[v] == if v in source.children && v !in todo
                                   then Merge(if v in target.children then target.children[v] else LEAF,
                                              source.children[v])
                                   else target.children[v]
      {
        var v :| v in todo;
        todo := todo - {v};
        var child := if v in children then children[v] else LEAF;
        child := MergeInto(child, source.children[v]);
        children := children[v := child];
      }
      merged := Tree(source.cell, children);
      assert merged.children == Merge(target, source).children;
    }

    /** The source is merged into the target; references to it are replaced; it is removed. */
    method MergeComponents(target: Ref, source: Ref)
      requires target in memory && source in memory
      modifies `memory, `indexes, `components
      ensures Bd() == Merged(old(Bd()), target, source)
    {
      var merged := MergeInto(memory[target], memory[source]);
      memory := memory[target := merged];
      for i := 0 to |indexes|
        invariant |indexes| == old(|indexes|) && memory == old(memory)[target := merged]
        invariant components == old(components)
        invariant forall k :: 0 <= k < |indexes| ==>
                    indexes[k] == if k < i then Redirected(old(indexes)[k], source, target) else old(indexes)[k]
      {
        var index := Redirect(indexes[i], source, target);
        indexes := indexes[i := index];
      }
      Remove(source);
      memory := memory - {source};
      assert indexes == Merged(old(Bd()), target, source).indexes;
    }

    method Redirect(index: map<string, Ref>, source: Ref, target: Ref) returns (r: map<string, Ref>)
      ensures r == Redirected(index, source, target)
    {
      r := index;
      var todo := index.Keys;
      while todo != {}
        invariant todo <= index.Keys && r.Keys == index.Keys
        invariant forall v <- index :: r[v] == if v !in todo && index[v] == source then target else index[v]
      {
        var v :| v in todo;
        todo := todo - {v};
        if r[v] == source {
          r := r[v := target];
        }
      }
    }

    method Remove(source: Ref)
      modifies `components
      ensures components == Without(old(components), source)
    {
      for i := 0 to |components|
        invariant components == old(components)
        invariant Without(components, source) == components[..i] + Without(components[i..], source)
      {
        assert components[i..][1..] == components[i+1..];
        if components[i] == source {
          components := components[..i] + components[i+1..];
          return;
        }
        assert components[..i] + [components[i]] == components[..i+1];
      }
    }

    /** One alert updates the cell of its point: the components that hold one of its values are
        merged, and the items on its path are created when they are missing. */
    method Update(raw: seq<string>, status: A.AlertStatus, now: int)
      requires Valid() && |raw| == dimensions
      modifies this
      ensures Valid()
      ensures dimensions == 0 ==> flat == old(flat) && updates == old(updates)
      ensures dimensions > 0 ==>
                flat == old(flat)[Values(raw) := CellOf(status, now)] && updates == old(updates) + 1
    {
      if dimensions == 0 {
        return;
      }
      hide *;
      var values, roots := Gather(raw);
      WritePoint(values, roots, CellOf(status, now));
      updates := updates + 1;
    }

    /** The components that hold a value of the point become one, or a new one is made; the point is
        written there. */
    method WritePoint(values: Path, all: seq<Ref>, cell: Cell)
      requires 0 < dimensions && Gathering(Bd(), dimensions, flat, values, all) && Counted() && currentItems == |flat|
      modifies `memory, `indexes, `components, `currentComponents, `next, `currentItems, `flat
      ensures Valid() && flat == old(flat)[values := cell]
    {
      hide *;
      var roots := MergeRoots(values, all);
      var root := TheRoot(values, roots);
      WriteCell(values, root, cell);
    }

    method WriteCell(values: Path, root: Ref, cell: Cell)
      requires 0 < dimensions && Walking(Bd(), dimensions, flat, values, root, 0) && Counted() && currentItems == |flat|
      requires Leaf(Bd(), dimensions, root, values) ==> values in flat
      modifies `memory, `indexes, `currentItems, `flat
      ensures Valid() && flat == old(flat)[values := cell]
    {
      hide *;
      Walk(values, root);
      SetCell(values, root, cell);
    }

    method Gather(raw: seq<string>) returns (values: Path, roots: seq<Ref>)
      requires Valid() && |raw| == dimensions && dimensions > 0
      ensures values == Values(raw) && Gathering(Bd(), dimensions, flat, values, roots)
      ensures Counted() && currentItems == |flat| && |values| == dimensions
    {
      hide Settled, Gathering;
      var set0;
      values, set0 := ComponentRoots(raw);
      roots := Listed(set0);
      GatherRoots(Bd(), dimensions, flat, values, roots);
    }

    /** The only root left, or a new one. */
    method TheRoot(values: Path, roots: seq<Ref>) returns (root: Ref)
      requires |roots| <= 1 && Gathering(Bd(), dimensions, flat, values, roots) && Counted()
      modifies `memory, `indexes, `components, `currentComponents, `next
      ensures Walking(Bd(), dimensions, flat, values, root, 0) && Counted()
      ensures Leaf(Bd(), dimensions, root, values) ==> values in flat
    {
      hide Walking, Leaf, Added;
      GatherFacts(Bd(), dimensions, flat, values, roots);
      if roots == [] {
        hide Gathering;
        root := next;
        ComponentsAreKnown(Bd(), dimensions);
        WalkFromNewRoot(Bd(), dimensions, flat, values, root);
        CreateRoot(values[0]);
      } else {
        hide Gathering;
        root := roots[0];
        assert roots == [root];
        WalkFromRoot(Bd(), dimensions, flat, values, root);
      }
    }

    method SetCell(values: Path, root: Ref, cell: Cell)
      requires 0 < dimensions && Walked(values, root)
      modifies `memory, `flat
      ensures Valid() && flat == old(flat)[values := cell]
    {
      hide Settled, Walking, Leaf;
      WalkEnd(Bd(), dimensions, flat, values, root, cell);
      memory := memory[root := Write(memory[root], values, cell)];
      assert flat[values := cell].Keys == flat.Keys + {values};
      flat := flat[values := cell];
      SettledAreKnown(Bd(), dimensions, flat);
    }

    /** The new point has its item; its cell is to be written. */
    ghost predicate Walked(values: Path, root: Ref)
      reads `memory, `next, `components, `indexes, `currentComponents, `currentItems, `flat
    {
      && Counted() && |indexes| == dimensions && currentItems == |flat.Keys + {values}|
      && Walking(Bd(), dimensions, flat, values, root, dimensions)
    }

    /** What does not depend on the forest. */
    ghost predicate Counted()
      reads `memory, `next, `components, `currentComponents
    {
      (forall r <- memory :: r < next) && currentComponents == |components|
    }

    /** The roots are merged one after the other into the next, until one at most is left. */
    method MergeRoots(values: Path, all: seq<Ref>) returns (roots: seq<Ref>)
      requires Gathering(Bd(), dimensions, flat, values, all) && Counted()
      modifies `memory, `indexes, `components, `currentComponents
      ensures |roots| <= 1 && Gathering(Bd(), dimensions, flat, values, roots) && Counted()
    {
      hide Gathering;
      roots := all;
      while |roots| > 1
        invariant Gathering(Bd(), dimensions, flat, values, roots) && Counted()
      {
        GatherNext(Bd(), dimensions, flat, values, roots);
        var source := roots[0];
        roots := roots[1..];
        MergeComponents(roots[0], source);
        currentComponents := currentComponents - 1;
      }
    }

    method CreateRoot(value: string)
      requires indexes != [] && Counted()
      modifies `memory, `indexes, `components, `currentComponents, `next
      ensures Bd() == Added(old(Bd()), old(next), value) && Counted()
    {
      var root := next;
      next := next + 1;
      memory := memory[root := LEAF];
      components := components + [root];
      indexes := Reindexed(indexes, 0, value, root);
      currentComponents := currentComponents + 1;
    }

    /** The points recorded once the point being added has its item. */
    ghost function Recorded(values: Path, root: Ref): set<Path>
      reads this
    {
      flat.Keys + if Leaf(Bd(), dimensions, root, values) then {values} else {}
    }

    method Walk(values: Path, root: Ref)
      requires Walking(Bd(), dimensions, flat, values, root, 0) && Counted() && currentItems == |flat|
      requires Leaf(Bd(), dimensions, root, values) ==> values in flat
      modifies `memory, `indexes, `currentItems
      ensures Walked(values, root)
    {
      hide Walking, Leaf;
      WalkCounts(values, root, 0);
      assert Recorded(values, root) == flat.Keys;
      for i := 0 to dimensions
        invariant Walking(Bd(), dimensions, flat, values, root, i)
        invariant Counted() && currentItems == |Recorded(values, root)|
      {
        WalkReads(Bd(), dimensions, flat, values, root, i);
        if !Has(memory[root], values[..i+1]) {
          AddItem(values, root, i);
        } else {
          WalkOn(Bd(), dimensions, flat, values, root, i);
        }
      }
      WalkReads(Bd(), dimensions, flat, values, root, dimensions);
      WalkFacts(Bd(), dimensions, flat, values, root);
    }

    /** The missing item of a value; the last one is a new point. */
    method AddItem(values: Path, root: Ref, i: nat)
      requires i < dimensions && Walking(Bd(), dimensions, flat, values, root, i)
      requires root in memory && !Has(memory[root], values[..i+1]) && Counted()
      requires currentItems == |Recorded(values, root)| && !Leaf(Bd(), dimensions, root, values)
      modifies `memory, `indexes, `currentItems
      ensures Walking(Bd(), dimensions, flat, values, root, i + 1)
      ensures Counted() && currentItems == |Recorded(values, root)|
    {
      hide Walking, Leaf;
      WalkReads(Bd(), dimensions, flat, values, root, i);
      WalkNext(Bd(), dimensions, flat, values, root, i);
      WalkCounts(values, root, i);
      if i == dimensions - 1 {
        currentItems := currentItems + 1;
      }
      indexes := Reindexed(indexes, i, values[i], root);
      memory := memory[root := Grow(memory[root], values[..i], values[i])];
      WalkCounts(values, root, i + 1);
    }

    lemma WalkCounts(values: Path, root: Ref, i: nat)
      requires Walking(Bd(), dimensions, flat, values, root, i)
      ensures Leaf(Bd(), dimensions, root, values) ==> Recorded(values, root) == flat.Keys + {values}
      ensures !Leaf(Bd(), dimensions, root, values) ==> Recorded(values, root) == flat.Keys && values !in flat
    {
      WalkParts(Bd(), dimensions, flat, values, root, i);
      hide *;
    }
  }

  /** The item of the next value is there already. */
  lemma WalkOn(b: Board, n: nat, flat: map<Path, Cell>, values: Path, root: Ref, i: nat)
    requires Walking(b, n, flat, values, root, i) && i < n && root in b.memory && Has(b.memory[root], values[..i+1])
    ensures Walking(b, n, flat, values, root, i + 1)
  {
    WalkParts(b, n, flat, values, root, i);
    assert Owns(b, root, values[..i+1]);
    hide *;
    WalkOf(b, n, flat, values, root, i + 1);
  }

  lemma WalkReads(b: Board, n: nat, flat: map<Path, Cell>, values: Path, root: Ref, i: nat)
    requires Walking(b, n, flat, values, root, i)
    ensures n == |values| == |b.indexes| && i <= n && root in b.memory && Has(b.memory[root], values[..i])
    ensures i < n && !Has(b.memory[root], values[..i+1]) ==> !Leaf(b, n, root, values)
  {
    WalkParts(b, n, flat, values, root, i);
    assert n == |b.indexes| by { hide Owns; }
    hide Placed, Walking;
    if i < n && Has(b.memory[root], values) {
      HasPrefix(b.memory[root], values, i + 1);
    }
  }

  lemma ComponentsAreKnown(b: Board, n: nat)
    requires Placed(b, n)
    ensures |b.indexes| == n && forall c <- b.components :: c in b.memory
  {
    hide Owns;
  }

  lemma SettledAreKnown(b: Board, n: nat, flat: map<Path, Cell>)
    requires Settled(b, n, flat)
    ensures |b.indexes| == n && forall c <- b.components :: c in b.memory
  {
    hide Owns, Backed, Denotes, Connected, Inhabited;
  }

  lemma NothingIsSettled(b: Board, n: nat)
    requires b.components == [] && |b.indexes| == n && forall i :: 0 <= i < n ==> b.indexes[i] == map[]
    ensures Settled(b, n, map[])
  {
  }
}
