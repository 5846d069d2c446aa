/**
 * The scene side of utils/ui.py: `Graphic` (own `visible` flag, `parent` panel,
 * derived `is_rendered`), `Panel.child_elements`, and the `Canvas` registry of
 * graphics drawn each frame.
 *
 * Python graphics are objects; here each has a `GraphicId`, and the attributes
 * of all live graphics are held in one `Scene`. The parent relation must be
 * acyclic for `is_rendered` to terminate; a ghost rank that strictly grows from
 * parent to child witnesses this.
 */
module UiScene {
  import opened Wrappers

  type GraphicId = nat

  /** The attributes of one graphic that the registry and the visibility rule read. */
  datatype Graphic = Graphic(visible: bool, parent: Option<GraphicId>, isPanel: bool, children: seq<GraphicId>)

  type Nodes = map<GraphicId, Graphic>

  type Ranks = map<GraphicId, int>

  /** Every parent is a live graphic of strictly smaller rank: the parent chains are finite. */
  ghost predicate Ranked(nodes: Nodes, rank: Ranks) {
    && nodes.Keys <= rank.Keys
    && (forall g :: g in nodes ==> rank[g] >= 0)
    && (forall g :: g in nodes && nodes[g].parent.Some? ==>
          nodes[g].parent.value in nodes && rank[nodes[g].parent.value] < rank[g])
  }

  /** `Graphic.is_rendered`: visible, and the parent (if any) rendered. */
  function Rendered(nodes: Nodes, ghost rank: Ranks, g: GraphicId): (r: bool)
    requires Ranked(nodes, rank) && g in nodes
    ensures r ==> nodes[g].visible
    ensures nodes[g].parent.None? ==> r == nodes[g].visible
    ensures r && nodes[g].parent.Some? ==> Rendered(nodes, rank, nodes[g].parent.value)
    decreases rank[g]
  {
    match nodes[g].parent
    case None => nodes[g].visible
    case Some(p) => nodes[g].visible && Rendered(nodes, rank, p)
  }

  /** The graphic followed by its ancestors, nearest first. */
  ghost function Chain(nodes: Nodes, rank: Ranks, g: GraphicId): (c: seq<GraphicId>)
    requires Ranked(nodes, rank) && g in nodes
    ensures |c| >= 1 && c[0] == g
    ensures forall a :: a in c ==> a in nodes && rank[a] <= rank[g]
    decreases rank[g]
  {
    match nodes[g].parent
    case None => [g]
    case Some(p) => [g] + Chain(nodes, rank, p)
  }

  /** A graphic is rendered exactly when it and every one of its ancestors is visible. */
  lemma {:induction false} RenderedIsChainVisible(nodes: Nodes, rank: Ranks, g: GraphicId)
    requires Ranked(nodes, rank) && g in nodes
    ensures Rendered(nodes, rank, g) <==> forall a :: a in Chain(nodes, rank, g) ==> nodes[a].visible
    decreases rank[g]
  {
    match nodes[g].parent
    case None =>
    case Some(p) => RenderedIsChainVisible(nodes, rank, p);
  }

  /** The `visible` setter applied to graphic a. */
  function WithVisible(nodes: Nodes, a: GraphicId, v: bool): Nodes
    requires a in nodes
  {
    nodes[a := nodes[a].(visible := v)]
  }

  /** Setting a flag changes no parent, so no chain. */
  lemma {:induction false} WithVisibleKeepsChain(nodes: Nodes, rank: Ranks, a: GraphicId, v: bool, g: GraphicId)
    requires Ranked(nodes, rank) && a in nodes && g in nodes
    ensures Ranked(WithVisible(nodes, a, v), rank)
    ensures Chain(WithVisible(nodes, a, v), rank, g) == Chain(nodes, rank, g)
    decreases rank[g]
  {
    var n' := WithVisible(nodes, a, v);
    assert Ranked(n', rank) by {
      forall x | x in n' ensures n'[x].parent == nodes[x].parent { }
    }
    match nodes[g].parent
    case None =>
    case Some(p) => WithVisibleKeepsChain(nodes, rank, a, v, p);
  }

  /**
   * After `a.visible = v`, g is rendered exactly when every member of its chain
   * is visible, reading a's flag as v.
   */
  lemma ToggleEffect(nodes: Nodes, rank: Ranks, a: GraphicId, v: bool, g: GraphicId)
    requires Ranked(nodes, rank) && a in nodes && g in nodes
    ensures Ranked(WithVisible(nodes, a, v), rank)
    ensures Rendered(WithVisible(nodes, a, v), rank, g) <==>
              forall b :: b in Chain(nodes, rank, g) ==> (if b == a then v else nodes[b].visible)
  {
    WithVisibleKeepsChain(nodes, rank, a, v, g);
    RenderedIsChainVisible(WithVisible(nodes, a, v), rank, g);
  }

  /**
   * Toggling an ancestor a of g whose other chain members are visible makes g's
   * rendered state equal to the new flag, while g's own flag keeps its value.
   */
  lemma ToggleAncestor(nodes: Nodes, rank: Ranks, a: GraphicId, v: bool, g: GraphicId)
    requires Ranked(nodes, rank) && g in nodes
    requires a in Chain(nodes, rank, g) && a != g
    requires forall b :: b in Chain(nodes, rank, g) && b != a ==> nodes[b].visible
    ensures Ranked(WithVisible(nodes, a, v), rank)
    ensures Rendered(WithVisible(nodes, a, v), rank, g) == v
    ensures WithVisible(nodes, a, v)[g].visible == nodes[g].visible
  {
    ToggleEffect(nodes, rank, a, v, g);
  }

  /** Toggling a graphic outside g's chain leaves g's rendered state as it was. */
  lemma ToggleOutsideChain(nodes: Nodes, rank: Ranks, a: GraphicId, v: bool, g: GraphicId)
    requires Ranked(nodes, rank) && a in nodes && g in nodes
    requires a !in Chain(nodes, rank, g)
    ensures Ranked(WithVisible(nodes, a, v), rank)
    ensures Rendered(WithVisible(nodes, a, v), rank, g) == Rendered(nodes, rank, g)
  {
    ToggleEffect(nodes, rank, a, v, g);
    RenderedIsChainVisible(nodes, rank, g);
  }

  /**
   * `Graphic.set_parent(p)`: the parent is assigned, and a panel parent records
   * the child with `add_child_element`. A parent that is not a panel has no
   * `add_child_element`; the parent is still assigned before that call fails.
   */
  function Reparented(nodes: Nodes, g: GraphicId, p: Option<GraphicId>): (r: Nodes)
    requires g in nodes && (p.Some? ==> p.value in nodes)
    ensures r.Keys == nodes.Keys
    ensures r[g].parent == p && r[g].visible == nodes[g].visible
    ensures forall x :: x in nodes && x != g ==> r[x].parent == nodes[x].parent && r[x].visible == nodes[x].visible
    ensures forall x :: x in nodes ==> r[x].isPanel == nodes[x].isPanel
    ensures p.Some? && nodes[p.value].isPanel ==> r[p.value].children == nodes[p.value].children + [g]
    ensures forall x :: x in nodes && (p.None? || x != p.value || !nodes[x].isPanel) ==> r[x].children == nodes[x].children
  {
    var n := nodes[g := nodes[g].(parent := p)];
    if p.Some? && n[p.value].isPanel then
      n[p.value := n[p.value].(children := n[p.value].children + [g])]
    else
      n
  }

  /** A ranking for the reparented scene: g's subtree is shifted to sit just below the new parent. */
  ghost function Rerank(nodes: Nodes, rank: Ranks, g: GraphicId, p: Option<GraphicId>): Ranks
    requires Ranked(nodes, rank) && g in nodes && (p.Some? ==> p.value in nodes)
  {
    var base := if p.Some? then rank[p.value] + 1 else 0;
    map x | x in nodes :: if g in Chain(nodes, rank, x) then rank[x] - rank[g] + base else rank[x]
  }

  /** Reparenting keeps the parent relation acyclic as long as the new parent is not in g's subtree. */
  lemma RerankValid(nodes: Nodes, rank: Ranks, g: GraphicId, p: Option<GraphicId>)
    requires Ranked(nodes, rank) && g in nodes
    requires p.Some? ==> p.value in nodes && g !in Chain(nodes, rank, p.value)
    ensures Ranked(Reparented(nodes, g, p), Rerank(nodes, rank, g, p))
  {
    var n' := Reparented(nodes, g, p);
    var r' := Rerank(nodes, rank, g, p);
    forall x | x in n' ensures r'[x] >= 0 {
      assert Chain(nodes, rank, x)[0] == x;
    }
    forall x | x in n' && n'[x].parent.Some?
      ensures n'[x].parent.value in n' && r'[n'[x].parent.value] < r'[x]
    {
      if x != g {
        var y := nodes[x].parent.value;
        assert Chain(nodes, rank, x) == [x] + Chain(nodes, rank, y);
      }
    }
  }

  /** No chain of an existing graphic passes through a graphic that does not exist yet. */
  lemma {:induction false} FreshNotInChain(nodes: Nodes, rank: Ranks, g: GraphicId, isPanel: bool, x: GraphicId)
    requires Ranked(nodes, rank) && g !in nodes && x in nodes
    ensures Ranked(nodes[g := Graphic(true, None, isPanel, [])], rank[g := 0])
    ensures g !in Chain(nodes[g := Graphic(true, None, isPanel, [])], rank[g := 0], x)
    decreases rank[x]
  {
    var n1 := nodes[g := Graphic(true, None, isPanel, [])];
    var r1 := rank[g := 0];
    match nodes[x].parent
    case None =>
    case Some(y) =>
      FreshNotInChain(nodes, rank, g, isPanel, y);
      assert Chain(n1, r1, x) == [x] + Chain(n1, r1, y);
  }

  /** The live graphics: each graphic's own flag, parent and (for panels) recorded children. */
  class Scene {
    var nodes: Nodes
    ghost var rank: Ranks

    ghost predicate Valid()
      reads this
    {
      Ranked(nodes, rank)
    }

    constructor ()
      ensures Valid() && nodes == map[]
    {
      nodes := map[];
      rank := map[];
    }

    /** `g.is_rendered`. */
    function IsRendered(g: GraphicId): (r: bool)
      reads this
      requires Valid() && g in nodes
      ensures r <==> forall a :: a in Chain(nodes, rank, g) ==> nodes[a].visible
    {
      RenderedIsChainVisible(nodes, rank, g);
      Rendered(nodes, rank, g)
    }

    /**
     * The scene part of `Graphic.__init__`: a fresh graphic starts visible and
     * runs `set_parent(parent)`. When the parent is not a panel that call
     * raises and the graphic never comes to exist.
     */
    method Add(g: GraphicId, parent: Option<GraphicId>, isPanel: bool) returns (ok: bool)
      requires Valid() && g !in nodes && (parent.Some? ==> parent.value in nodes)
      modifies this
      ensures Valid()
      ensures ok == (parent.None? || old(nodes)[parent.value].isPanel)
      ensures ok ==> nodes == Reparented(old(nodes)[g := Graphic(true, None, isPanel, [])], g, parent)
      ensures !ok ==> nodes == old(nodes)
    {
      if parent.Some? && !nodes[parent.value].isPanel {
        return false;
      }
      var added := nodes[g := Graphic(true, None, isPanel, [])];
      ghost var r1 := rank[g := 0];
      if parent.Some? {
        FreshNotInChain(nodes, rank, g, isPanel, parent.value);
      } else {
        assert Ranked(added, r1);
      }
      RerankValid(added, r1, g, parent);
      nodes := Reparented(added, g, parent);
      rank := Rerank(added, r1, g, parent);
      ok := true;
    }

    /** The `visible` setter. */
    method SetVisible(g: GraphicId, v: bool)
      requires Valid() && g in nodes
      modifies this
      ensures Valid()
      ensures nodes == WithVisible(old(nodes), g, v)
    {
      WithVisibleKeepsChain(nodes, rank, g, v, g);
      nodes := WithVisible(nodes, g, v);
    }

    /**
     * `Graphic.set_parent(parent)`. `ok` is false when the parent is not a
     * panel: the parent is assigned and then `add_child_element` raises.
     */
    method SetParent(g: GraphicId, parent: Option<GraphicId>) returns (ok: bool)
      requires Valid() && g in nodes
      requires parent.Some? ==> parent.value in nodes && g !in Chain(nodes, rank, parent.value)
      modifies this
      ensures Valid()
      ensures ok == (parent.None? || old(nodes)[parent.value].isPanel)
      ensures nodes == Reparented(old(nodes), g, parent)
    {
      RerankValid(nodes, rank, g, parent);
      ok := parent.None? || nodes[parent.value].isPanel;
      rank := Rerank(nodes, rank, g, parent);
      nodes := Reparented(nodes, g, parent);
    }
  }

  /** The index of the first occurrence of x in s, as `list.remove` finds it. */
  function FirstIndex<T(==)>(s: seq<T>, x: T): (i: nat)
    requires x in s
    ensures i < |s| && s[i] == x && x !in s[..i]
  {
    if s[0] == x then 0
    else
      var j := FirstIndex(s[1..], x);
      assert s[..j + 1] == [s[0]] + s[1..][..j];
      j + 1
  }

  /** `list.remove(x)`: drop the first occurrence of x and keep everything else in order. */
  function RemoveFirst<T(==)>(s: seq<T>, x: T): (r: seq<T>)
    requires x in s
    ensures |r| == |s| - 1
    ensures multiset(r) == multiset(s) - multiset{x}
    ensures var i := FirstIndex(s, x); r == s[..i] + s[i + 1..]
  {
    var i := FirstIndex(s, x);
    assert s == s[..i] + [x] + s[i + 1..];
    s[..i] + s[i + 1..]
  }

  /** Registering a graphic that was not registered and then deregistering it restores the registry. */
  lemma AddThenRemove<T>(s: seq<T>, x: T)
    requires x !in s
    ensures RemoveFirst(s + [x], x) == s
  {
    assert forall k :: 0 <= k < |s| ==> (s + [x])[k] == s[k];
    assert (s + [x])[..|s|] == s;
  }

  /** Of the registered graphics, those rendered, in registry order, once per occurrence. */
  function RenderedOnly(nodes: Nodes, ghost rank: Ranks, s: seq<GraphicId>): (r: seq<GraphicId>)
    requires Ranked(nodes, rank) && forall e :: e in s ==> e in nodes
    ensures |r| <= |s|
    ensures forall e :: e in r ==> e in s && Rendered(nodes, rank, e)
  {
    if s == [] then []
    else
      var last := s[|s| - 1];
      RenderedOnly(nodes, rank, s[..|s| - 1]) + (if Rendered(nodes, rank, last) then [last] else [])
  }

  /** Filtering a concatenation filters each part: the relative order of drawn graphics is the registry's. */
  lemma {:induction false} RenderedOnlyConcat(nodes: Nodes, rank: Ranks, s1: seq<GraphicId>, s2: seq<GraphicId>)
    requires Ranked(nodes, rank) && forall e :: e in s1 + s2 ==> e in nodes
    ensures RenderedOnly(nodes, rank, s1 + s2) == RenderedOnly(nodes, rank, s1) + RenderedOnly(nodes, rank, s2)
    decreases |s2|
  {
    if s2 == [] {
      assert s1 + s2 == s1;
    } else {
      var s2' := s2[..|s2| - 1];
      assert (s1 + s2)[..|s1 + s2| - 1] == s1 + s2';
      RenderedOnlyConcat(nodes, rank, s1, s2');
    }
  }

  /** Each registered graphic is drawn as many times as it is registered if rendered, otherwise never. */
  lemma {:induction false} RenderedOnlyCount(nodes: Nodes, rank: Ranks, s: seq<GraphicId>, e: GraphicId)
    requires Ranked(nodes, rank) && forall x :: x in s ==> x in nodes
    requires e in nodes
    ensures multiset(RenderedOnly(nodes, rank, s))[e] == if Rendered(nodes, rank, e) then multiset(s)[e] else 0
    decreases |s|
  {
    if s != [] {
      var s' := s[..|s| - 1];
      assert s == s' + [s[|s| - 1]];
      RenderedOnlyCount(nodes, rank, s', e);
    }
  }

  /** The registry of graphics drawn each frame (`Canvas.graphic_elements`). */
  class Canvas {
    var graphicElements: seq<GraphicId>

    constructor ()
      ensures graphicElements == []
    {
      graphicElements := [];
    }

    /** `Canvas.update_managed_objects`: the whole registry is replaced. */
    method UpdateManagedObjects(elements: seq<GraphicId>)
      modifies this
      ensures graphicElements == elements
    {
      graphicElements := elements;
    }

    /** `Canvas.add_managed_object`: append, with no duplicate check. */
    method AddManagedObject(g: GraphicId)
      modifies this
      ensures graphicElements == old(graphicElements) + [g]
    {
      graphicElements := graphicElements + [g];
    }

    /**
     * `Canvas.remove_managed_object`: the first occurrence is removed; `ok`
     * is false (list.remove raises ValueError) when g is not registered.
     */
    method RemoveManagedObject(g: GraphicId) returns (ok: bool)
      modifies this
      ensures ok == (g in old(graphicElements))
      ensures ok ==> graphicElements == RemoveFirst(old(graphicElements), g)
      ensures !ok ==> graphicElements == old(graphicElements)
    {
      ok := g in graphicElements;
      if ok {
        graphicElements := RemoveFirst(graphicElements, g);
      }
    }

    /** `Canvas.draw`: the graphics drawn, in drawing order. */
    method Draw(scene: Scene) returns (drawn: seq<GraphicId>)
      requires scene.Valid() && forall e :: e in graphicElements ==> e in scene.nodes
      ensures drawn == RenderedOnly(scene.nodes, scene.rank, graphicElements)
    {
      drawn := [];
      if graphicElements == [] {
        return;
      }
      var i := 0;
      while i < |graphicElements|
        invariant 0 <= i <= |graphicElements|
        invariant drawn == RenderedOnly(scene.nodes, scene.rank, graphicElements[..i])
      {
        var graphic := graphicElements[i];
        assert graphicElements[..i + 1][..i] == graphicElements[..i];
        if scene.IsRendered(graphic) {
          drawn := drawn + [graphic];
        }
        i := i + 1;
      }
      assert graphicElements[..i] == graphicElements;
    }
  }

  /** `Graphic.__init__`: the graphic joins the scene and is appended to the Canvas registry. */
  method NewGraphic(scene: Scene, canvas: Canvas, g: GraphicId, parent: Option<GraphicId>, isPanel: bool)
    returns (ok: bool)
    requires scene.Valid() && g !in scene.nodes && (parent.Some? ==> parent.value in scene.nodes)
    modifies scene, canvas
    ensures scene.Valid()
    ensures ok == (parent.None? || old(scene.nodes)[parent.value].isPanel)
    ensures ok ==> scene.nodes == Reparented(old(scene.nodes)[g := Graphic(true, None, isPanel, [])], g, parent)
    ensures ok ==> canvas.graphicElements == old(canvas.graphicElements) + [g]
    ensures !ok ==> scene.nodes == old(scene.nodes) && canvas.graphicElements == old(canvas.graphicElements)
  {
    ok := scene.Add(g, parent, isPanel);
    if ok {
      canvas.AddManagedObject(g);
    }
  }

  /** `Graphic._override_rendering`: the graphic leaves the Canvas registry. */
  method OverrideRendering(canvas: Canvas, g: GraphicId) returns (ok: bool)
    modifies canvas
    ensures ok == (g in old(canvas.graphicElements))
    ensures ok ==> canvas.graphicElements == RemoveFirst(old(canvas.graphicElements), g)
    ensures !ok ==> canvas.graphicElements == old(canvas.graphicElements)
  {
    ok := canvas.RemoveManagedObject(g);
  }
}
