/** What the exported-surface search reports, stated by walks of the type graph. */
module SurfaceWalks {
  import opened Wrappers
  import opened SurfaceAudit

  // ---- Walks ----------------------------------------------------------------------------------

  function Vertex(t: Ty, edges: seq<Edge>, i: nat): Ty
    requires i <= |edges|
  {
    if i == 0 then t else edges[i - 1].target
  }

  function End(t: Ty, edges: seq<Edge>): Ty { Vertex(t, edges, |edges|) }

  function PathOf(path: string, edges: seq<Edge>): string
    decreases |edges|
  {
    if edges == [] then path else PathOf(path + edges[0].step, edges[1..])
  }

  predicate Walk(g: Graph, t: Ty, edges: seq<Edge>)
    decreases |edges|
  {
    edges != [] ==> edges[0] in Kids(g, t) && Walk(g, edges[0].target, edges[1..])
  }

  ghost predicate SameOwner(g: Graph, t: Ty, u: Ty) {
    g.owner(t).Some? && g.owner(t) == g.owner(u)
  }

  // No type before the i-th is that type, and none has its owner.
  ghost predicate FreshAt(g: Graph, t: Ty, edges: seq<Edge>, i: nat)
    requires i <= |edges|
  {
    forall j :: 0 <= j < i ==> Vertex(t, edges, j) != Vertex(t, edges, i)
  }

  ghost predicate OwnerFreshAt(g: Graph, t: Ty, edges: seq<Edge>, i: nat)
    requires i <= |edges|
  {
    forall j :: 0 <= j < i ==> !SameOwner(g, Vertex(t, edges, j), Vertex(t, edges, i))
  }

  // Every type that the walk leaves is not weak, not active and not owned by an active owner, and
  // repeats neither a type nor an owner of the walk.
  ghost predicate Admissible(g: Graph, t: Ty, edges: seq<Edge>, active: set<Ty>, owners: set<Owner>) {
    forall i :: 0 <= i < |edges| ==>
      Unfolds(g, active, owners, Vertex(t, edges, i)) && FreshAt(g, t, edges, i) && OwnerFreshAt(g, t, edges, i)
  }

  // The walk ends in a weak type, in a local index signature of a type it may still unfold, or in a
  // weak argument of a type whose owner repeats.
  ghost predicate Reports(g: Graph, root: Root, t: Ty, path: string, edges: seq<Edge>,
                          active: set<Ty>, owners: set<Owner>, k: Key) {
    var u, p, n := End(t, edges), PathOf(path, edges), |edges|;
    if g.weak(u).Some? then k == Named(root, p, g.weak(u).value)
    else
      && u !in active && FreshAt(g, t, edges, n)
      && if OwnerActive(g, owners, u) || !OwnerFreshAt(g, t, edges, n) then k in ArgumentKeys(g, root, u, p)
         else k in IndexKeys(g, root, u, p)
  }

  ghost predicate Trace(g: Graph, root: Root, t: Ty, path: string, edges: seq<Edge>,
                        active: set<Ty>, owners: set<Owner>, k: Key) {
    Walk(g, t, edges) && Admissible(g, t, edges, active, owners) && Reports(g, root, t, path, edges, active, owners, k)
  }

  // ---- Peeling the first edge -------------------------------------------------------------------

  lemma VertexTail(t: Ty, e: Edge, rest: seq<Edge>)
    ensures forall i: nat :: i <= |rest| ==> Vertex(t, [e] + rest, i + 1) == Vertex(e.target, rest, i)
    ensures Vertex(t, [e] + rest, 0) == t
  {
  }

  lemma WalkTail(g: Graph, t: Ty, e: Edge, rest: seq<Edge>)
    ensures Walk(g, t, [e] + rest) <==> e in Kids(g, t) && Walk(g, e.target, rest)
  {
    assert ([e] + rest)[1..] == rest;
  }

  lemma FreshTail(g: Graph, t: Ty, e: Edge, rest: seq<Edge>, i: nat)
    requires i <= |rest|
    ensures var u := Vertex(e.target, rest, i);
            && (FreshAt(g, t, [e] + rest, i + 1) <==> u != t && FreshAt(g, e.target, rest, i))
            && (OwnerFreshAt(g, t, [e] + rest, i + 1) <==> !SameOwner(g, t, u) && OwnerFreshAt(g, e.target, rest, i))
  {
    var edges := [e] + rest;
    VertexTail(t, e, rest);
    forall j | 0 < j < i + 1 ensures Vertex(t, edges, j) == Vertex(e.target, rest, j - 1) {}
    assert forall j :: 0 <= j < i ==> Vertex(e.target, rest, j) == Vertex(t, edges, j + 1);
  }

  // Not meeting t or its owner is what entering t adds to the active sets.
  lemma EnterMeans(g: Graph, active: set<Ty>, owners: set<Owner>, t: Ty, u: Ty)
    ensures Unfolds(g, active + {t}, WithOwner(g, owners, t), u)
            <==> Unfolds(g, active, owners, u) && u != t && !SameOwner(g, t, u)
    ensures OwnerActive(g, WithOwner(g, owners, t), u) <==> OwnerActive(g, owners, u) || SameOwner(g, t, u)
  {
  }

  lemma AdmissibleTail(g: Graph, t: Ty, e: Edge, rest: seq<Edge>, active: set<Ty>, owners: set<Owner>)
    ensures Admissible(g, t, [e] + rest, active, owners)
            <==> Unfolds(g, active, owners, t)
                 && Admissible(g, e.target, rest, active + {t}, WithOwner(g, owners, t))
  {
    var edges := [e] + rest;
    VertexTail(t, e, rest);
    forall i | 0 <= i < |rest|
      ensures var v, u := Vertex(t, edges, i + 1), Vertex(e.target, rest, i);
              && (Unfolds(g, active, owners, v) && FreshAt(g, t, edges, i + 1) && OwnerFreshAt(g, t, edges, i + 1)
                  <==> Unfolds(g, active + {t}, WithOwner(g, owners, t), u)
                       && FreshAt(g, e.target, rest, i) && OwnerFreshAt(g, e.target, rest, i)) {
      FreshTail(g, t, e, rest, i);
      EnterMeans(g, active, owners, t, Vertex(e.target, rest, i));
    }
    assert Vertex(t, edges, 0) == t && FreshAt(g, t, edges, 0) && OwnerFreshAt(g, t, edges, 0);
    if Admissible(g, t, edges, active, owners) {
      assert Unfolds(g, active, owners, Vertex(t, edges, 0));
      forall i | 0 <= i < |rest|
        ensures Unfolds(g, active + {t}, WithOwner(g, owners, t), Vertex(e.target, rest, i))
        ensures FreshAt(g, e.target, rest, i) && OwnerFreshAt(g, e.target, rest, i) {
        assert Unfolds(g, active, owners, Vertex(t, edges, i + 1));
      }
    }
    if Unfolds(g, active, owners, t) && Admissible(g, e.target, rest, active + {t}, WithOwner(g, owners, t)) {
      forall i | 0 <= i < |edges|
        ensures Unfolds(g, active, owners, Vertex(t, edges, i))
        ensures FreshAt(g, t, edges, i) && OwnerFreshAt(g, t, edges, i) {
        if i > 0 {
          assert Unfolds(g, active + {t}, WithOwner(g, owners, t), Vertex(e.target, rest, i - 1));
          assert Vertex(t, edges, (i - 1) + 1) == Vertex(e.target, rest, i - 1);
        }
      }
    }
  }

  lemma ReportsTail(g: Graph, root: Root, t: Ty, path: string, e: Edge, rest: seq<Edge>,
                    active: set<Ty>, owners: set<Owner>, k: Key)
    ensures Reports(g, root, t, path, [e] + rest, active, owners, k)
            <==> Reports(g, root, e.target, path + e.step, rest, active + {t}, WithOwner(g, owners, t), k)
  {
    var edges := [e] + rest;
    VertexTail(t, e, rest);
    FreshTail(g, t, e, rest, |rest|);
    EnterMeans(g, active, owners, t, End(e.target, rest));
    assert edges[1..] == rest;
    assert End(t, edges) == End(e.target, rest) && PathOf(path, edges) == PathOf(path + e.step, rest);
  }

  lemma TraceTail(g: Graph, root: Root, t: Ty, path: string, e: Edge, rest: seq<Edge>,
                  active: set<Ty>, owners: set<Owner>, k: Key)
    ensures Trace(g, root, t, path, [e] + rest, active, owners, k)
            <==> && e in Kids(g, t) && Unfolds(g, active, owners, t)
                 && Trace(g, root, e.target, path + e.step, rest, active + {t}, WithOwner(g, owners, t), k)
  {
    WalkTail(g, t, e, rest);
    AdmissibleTail(g, t, e, rest, active, owners);
    ReportsTail(g, root, t, path, e, rest, active, owners, k);
  }

  // ---- The search reports exactly the traces -----------------------------------------------------

  lemma {:induction false} SearchHasTrace(g: Graph, lim: Limits, root: Root, t: Ty, path: string, f: Frame, k: Key)
    returns (edges: seq<Edge>)
    requires Ready(g, lim, f, t) && k in Search(g, lim, root, t, path, f)
    ensures Trace(g, root, t, path, edges, f.active, f.owners, k)
    decreases Room(lim, f), lim.chain - |f.chain|
  {
    edges := [];
    if Unfolds(g, f.active, f.owners, t) && k !in IndexKeys(g, root, t, path) {
      SearchUnfolds(g, lim, root, t, path, f);
      EnterShrinks(g, lim, f, t);
      var n := Enter(g, f, t);
      var e :| e in Kids(g, t) && k in Search(g, lim, root, e.target, path + e.step, n);
      var rest := SearchHasTrace(g, lim, root, e.target, path + e.step, n, k);
      TraceTail(g, root, t, path, e, rest, f.active, f.owners, k);
      edges := [e] + rest;
    }
  }

  lemma FoundBelow(g: Graph, lim: Limits, root: Root, edges: set<Edge>, path: string, f: Frame, e: Edge, k: Key)
    requires forall x :: x in edges ==> Ready(g, lim, f, x.target)
    requires e in edges && k in Search(g, lim, root, e.target, path + e.step, f)
    ensures k in Below(g, lim, root, edges, path, f)
  {
  }

  lemma {:induction false} TraceIsFound(g: Graph, lim: Limits, root: Root, t: Ty, path: string, f: Frame, k: Key,
                                        edges: seq<Edge>)
    requires Ready(g, lim, f, t) && Trace(g, root, t, path, edges, f.active, f.owners, k)
    ensures k in Search(g, lim, root, t, path, f)
    decreases |edges|
  {
    if edges != [] {
      var e, rest := edges[0], edges[1..];
      assert edges == [e] + rest;
      TraceTail(g, root, t, path, e, rest, f.active, f.owners, k);
      SearchUnfolds(g, lim, root, t, path, f);
      TraceIsFound(g, lim, root, e.target, path + e.step, Enter(g, f, t), k, rest);
      FoundBelow(g, lim, root, Kids(g, t), path, Enter(g, f, t), e, k);
    } else if Unfolds(g, f.active, f.owners, t) {
      SearchUnfolds(g, lim, root, t, path, f);
    }
  }

  // The keys of one visit are precisely those of its admissible walks.
  lemma SearchIsExact(g: Graph, lim: Limits, root: Root, t: Ty, path: string, f: Frame, k: Key)
    requires Ready(g, lim, f, t)
    ensures k in Search(g, lim, root, t, path, f)
            <==> exists edges :: Trace(g, root, t, path, edges, f.active, f.owners, k)
  {
    if k in Search(g, lim, root, t, path, f) {
      var edges := SearchHasTrace(g, lim, root, t, path, f, k);
    }
    forall edges | Trace(g, root, t, path, edges, f.active, f.owners, k)
      ensures k in Search(g, lim, root, t, path, f) {
      TraceIsFound(g, lim, root, t, path, f, k, edges);
    }
  }

  // ---- The visiting order does not matter ----------------------------------------------------------

  // The same graph, with the children of every type listed in any order and any number of times.
  ghost predicate SameUpToOrder(g: Graph, h: Graph) {
    forall t ::
      && g.weak(t) == h.weak(t) && g.owner(t) == h.owner(t) && g.expand(t) == h.expand(t)
      && (forall e :: e in g.outer(t) <==> e in h.outer(t))
      && (forall e :: e in g.inner(t) <==> e in h.inner(t))
      && (forall i :: i in g.indexes(t) <==> i in h.indexes(t))
      && (forall a :: a in g.arguments(t) <==> a in h.arguments(t))
  }

  lemma SameLocally(g: Graph, h: Graph, root: Root, t: Ty, path: string)
    requires SameUpToOrder(g, h)
    ensures Kids(g, t) == Kids(h, t)
    ensures IndexKeys(g, root, t, path) == IndexKeys(h, root, t, path)
    ensures ArgumentKeys(g, root, t, path) == ArgumentKeys(h, root, t, path)
  {
    assert Followed(g.outer(t)) == Followed(h.outer(t));
    assert Followed(g.inner(t)) == Followed(h.inner(t));
    assert IndexEdges(g.indexes(t)) == IndexEdges(h.indexes(t));
  }

  lemma {:induction false} SameTraces(g: Graph, h: Graph, root: Root, t: Ty, path: string, edges: seq<Edge>,
                                      active: set<Ty>, owners: set<Owner>, k: Key)
    requires SameUpToOrder(g, h) && Trace(g, root, t, path, edges, active, owners, k)
    ensures Trace(h, root, t, path, edges, active, owners, k)
    decreases |edges|
  {
    SameLocally(g, h, root, t, path);
    if edges != [] {
      var e, rest := edges[0], edges[1..];
      assert edges == [e] + rest;
      TraceTail(g, root, t, path, e, rest, active, owners, k);
      SameTraces(g, h, root, e.target, path + e.step, rest, active + {t}, WithOwner(g, owners, t), k);
      TraceTail(h, root, t, path, e, rest, active, owners, k);
    }
  }

  lemma OrderDoesNotMatter(g: Graph, h: Graph, lim: Limits, lim': Limits, root: Root, t: Ty, path: string)
    requires SameUpToOrder(g, h) && Ready(g, lim, EMPTY, t) && Ready(h, lim', EMPTY, t)
    ensures Search(g, lim, root, t, path, EMPTY) == Search(h, lim', root, t, path, EMPTY)
  {
    forall k | k in Search(g, lim, root, t, path, EMPTY) ensures k in Search(h, lim', root, t, path, EMPTY) {
      var edges := SearchHasTrace(g, lim, root, t, path, EMPTY, k);
      SameTraces(g, h, root, t, path, edges, {}, {}, k);
      TraceIsFound(h, lim', root, t, path, EMPTY, k, edges);
    }
    forall k | k in Search(h, lim', root, t, path, EMPTY) ensures k in Search(g, lim, root, t, path, EMPTY) {
      var edges := SearchHasTrace(h, lim', root, t, path, EMPTY, k);
      SameTraces(h, g, root, t, path, edges, {}, {}, k);
      TraceIsFound(g, lim, root, t, path, EMPTY, k, edges);
    }
  }

  // ---- No weak type escapes ---------------------------------------------------------------------

  ghost predicate OwnersDistinct(g: Graph) {
    forall t, u :: SameOwner(g, t, u) ==> t == u
  }

  lemma EndTail(t: Ty, e: Edge, rest: seq<Edge>)
    ensures End(t, [e] + rest) == End(e.target, rest)
  {
    VertexTail(t, e, rest);
    assert Vertex(t, [e] + rest, |rest| + 1) == Vertex(e.target, rest, |rest|);
  }

  lemma {:induction false} WalkPart(g: Graph, t: Ty, edges: seq<Edge>, n: nat)
    requires Walk(g, t, edges) && n <= |edges|
    ensures Walk(g, t, edges[..n]) && End(t, edges[..n]) == Vertex(t, edges, n)
    decreases n
  {
    if n > 0 {
      var e, rest := edges[0], edges[1..];
      assert edges[..n] == [e] + rest[..n - 1];
      WalkPart(g, e.target, rest, n - 1);
      WalkTail(g, t, e, rest[..n - 1]);
    }
  }

  lemma {:induction false} WalkRest(g: Graph, t: Ty, edges: seq<Edge>, n: nat)
    requires Walk(g, t, edges) && n <= |edges|
    ensures Walk(g, Vertex(t, edges, n), edges[n..]) && End(Vertex(t, edges, n), edges[n..]) == End(t, edges)
    decreases n
  {
    if n == 0 {
      assert edges[0..] == edges;
    } else {
      var e, rest := edges[0], edges[1..];
      assert edges == [e] + rest && edges[n..] == rest[n - 1..];
      WalkTail(g, t, e, rest);
      VertexTail(t, e, rest);
      EndTail(t, e, rest);
      assert Vertex(t, edges, (n - 1) + 1) == Vertex(e.target, rest, n - 1);
      WalkRest(g, e.target, rest, n - 1);
    }
  }

  lemma {:induction false} WalkAppend(g: Graph, t: Ty, a: seq<Edge>, b: seq<Edge>)
    requires Walk(g, t, a) && Walk(g, End(t, a), b)
    ensures Walk(g, t, a + b) && End(t, a + b) == End(End(t, a), b)
    decreases |a|
  {
    if a == [] {
      assert a + b == b;
    } else {
      var e, rest := a[0], a[1..];
      assert a == [e] + rest && a + b == [e] + (rest + b);
      EndTail(t, e, rest);
      EndTail(t, e, rest + b);
      WalkTail(g, t, e, rest);
      WalkAppend(g, e.target, rest, b);
      WalkTail(g, t, e, rest + b);
    }
  }

  // Cutting a cycle out of a walk leaves a walk to the same end.
  lemma CutCycle(g: Graph, t: Ty, edges: seq<Edge>, i: nat, j: nat)
    requires Walk(g, t, edges) && i < j <= |edges| && Vertex(t, edges, i) == Vertex(t, edges, j)
    ensures Walk(g, t, edges[..i] + edges[j..]) && End(t, edges[..i] + edges[j..]) == End(t, edges)
  {
    WalkPart(g, t, edges, i);
    WalkRest(g, t, edges, j);
    WalkAppend(g, t, edges[..i], edges[j..]);
  }

  // Any walk to a weak type can be shortened to an admissible one, possibly to an earlier weak type.
  lemma {:induction false} SimpleWalk(g: Graph, t: Ty, edges: seq<Edge>) returns (simple: seq<Edge>)
    requires OwnersDistinct(g) && Walk(g, t, edges) && g.weak(End(t, edges)).Some?
    ensures Walk(g, t, simple) && g.weak(End(t, simple)).Some? && Admissible(g, t, simple, {}, {})
    decreases |edges|
  {
    if i: nat :| i < |edges| && g.weak(Vertex(t, edges, i)).Some? {
      WalkPart(g, t, edges, i);
      simple := SimpleWalk(g, t, edges[..i]);
    } else if i: nat, j: nat :| i < j < |edges| && Vertex(t, edges, i) == Vertex(t, edges, j) {
      CutCycle(g, t, edges, i, j);
      simple := SimpleWalk(g, t, edges[..i] + edges[j..]);
    } else {
      simple := edges;
    }
  }

  // When distinct types have distinct owners, a weak type that any walk of followed edges reaches from
  // the root leaves at least one finding for that root.
  lemma NoWeakTypeEscapes(g: Graph, lim: Limits, root: Root, t: Ty, path: string, edges: seq<Edge>)
    requires Ready(g, lim, EMPTY, t) && OwnersDistinct(g)
    requires Walk(g, t, edges) && g.weak(End(t, edges)).Some?
    ensures exists simple :: Walk(g, t, simple) && g.weak(End(t, simple)).Some?
              && Named(root, PathOf(path, simple), g.weak(End(t, simple)).value) in Search(g, lim, root, t, path, EMPTY)
  {
    var simple := SimpleWalk(g, t, edges);
    var k := Named(root, PathOf(path, simple), g.weak(End(t, simple)).value);
    assert Reports(g, root, t, path, simple, {}, {}, k);
    TraceIsFound(g, lim, root, t, path, EMPTY, k, simple);
  }

  // Two types of one declaration, the second with a weak member that is not an argument.
  function SharedOwner(): Graph {
    Graph((t: Ty) => if t == 2 then Some(AnyType) else None,
          (t: Ty) => if t < 2 then Some(0) else None,
          (t: Ty) => if t < 2 then [Edge(".constraint", t + 1, false)] else [],
          (t: Ty) => false, (t: Ty) => [], (t: Ty) => [], (t: Ty) => [])
  }

  lemma OwnerlessAlone(g: Graph, chain: seq<Ty>)
    requires forall t, u :: g.owner(t).None? ==> !Linked(g, t, u)
    requires 1 < |chain|
    ensures !OwnerlessWalk(g, chain)
  {
    var n := |chain| - 1;
    assert chain[..n][n - 1] == chain[n - 1];
    assert OwnerlessWalk(g, chain[..n]) ==> g.owner(chain[n - 1]).None?;
  }

  // The owner cut can hide a reachable weak type, so distinct owners cannot be dropped above.
  lemma SharedOwnerHidesWeak(root: Root, path: string)
    ensures var g, lim := SharedOwner(), Limits({0}, 1);
            && Ready(g, lim, EMPTY, 0)
            && Walk(g, 0, [Edge(".constraint", 1, false), Edge(".constraint", 2, false)]) && g.weak(2).Some?
            && Search(g, lim, root, 0, path, EMPTY) == {}
  {
    var g, lim := SharedOwner(), Limits({0}, 1);
    var e, d := Edge(".constraint", 1, false), Edge(".constraint", 2, false);
    assert Kids(g, 0) == {e} by { assert g.outer(0) == [e]; }
    assert Kids(g, 1) == {d} by { assert g.outer(1) == [d]; }
    assert [e, d][1..] == [d] && [d][1..] == [];
    forall t: Ty, u: Ty | g.owner(t).None? ensures !Linked(g, t, u) {
      assert Kids(g, t) == {};
    }
    forall chain | 1 < |chain| ensures !OwnerlessWalk(g, chain) { OwnerlessAlone(g, chain); }
    assert Bounded(g, lim);
    SearchUnfolds(g, lim, root, 0, path, EMPTY);
    var n := Enter(g, EMPTY, 0);
    BelowOne(g, lim, root, e, path, n);
    assert Search(g, lim, root, 1, path + e.step, n) == ArgumentKeys(g, root, 1, path + e.step) == {};
  }
}
