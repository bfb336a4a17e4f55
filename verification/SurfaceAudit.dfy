/**
 The exported-surface search: a depth-first walk of a possibly infinite type graph that cuts on
 active types and on active declaration owners, and keeps deduplicated findings.
 */
module SurfaceAudit {
  import opened Wrappers
  import opened Paths

  type Ty = nat
  type Owner = nat

  datatype Kind = AnyType | UnknownType | StringIndex | NumberIndex

  // exempt marks a type argument that only repeats a weak default of the built-in library.
  datatype Edge = Edge(step: string, target: Ty, exempt: bool)

  datatype Index = Index(kind: Option<Kind>, step: string, value: Ty)

  /** The type graph as one export root sees it. */
  datatype Graph = Graph(
    weak: Ty -> Option<Kind>,         // any or unknown
    owner: Ty -> Option<Owner>,       // alias symbol, or else symbol
    outer: Ty -> seq<Edge>,           // members, arguments, constraints: followed for every type
    expand: Ty -> bool,               // declared in the root's own file
    indexes: Ty -> seq<Index>,        // index signatures declared in that file
    inner: Ty -> seq<Edge>,           // signatures and public properties declared in that file
    arguments: Ty -> seq<Edge>)       // arguments looked at when the owner is already active

  datatype Root = Root(file: string, exportName: string, line: nat, column: nat)

  datatype Finding = Finding(kind: Kind, root: Root, surfacePath: string, subject: Ty)

  function KindName(kind: Kind): string {
    match kind
    case AnyType => "any"
    case UnknownType => "unknown"
    case StringIndex => "string-index"
    case NumberIndex => "number-index"
  }

  datatype Key = Key(file: string, exportName: string, surfacePath: string, kind: Kind)

  function Named(root: Root, path: string, kind: Kind): Key { Key(root.file, root.exportName, path, kind) }

  function KeyOf(f: Finding): Key { Named(f.root, f.surfacePath, f.kind) }

  // The text under which a finding is recorded.
  function Text(k: Key): string {
    k.file + ['\0'] + (k.exportName + ['\0'] + (k.surfacePath + ['\0'] + KindName(k.kind)))
  }

  lemma SplitText(k: Key)
    requires '\0' !in k.file && '\0' !in k.exportName && '\0' !in k.surfacePath
    ensures Split(Text(k), '\0') == [k.file, k.exportName, k.surfacePath, KindName(k.kind)]
  {
    SplitNone(k.file, '\0');
    SplitNone(k.exportName, '\0');
    SplitNone(k.surfacePath, '\0');
    SplitNone(KindName(k.kind), '\0');
    SplitAppend(k.file, k.exportName + ['\0'] + (k.surfacePath + ['\0'] + KindName(k.kind)), '\0');
    SplitAppend(k.exportName, k.surfacePath + ['\0'] + KindName(k.kind), '\0');
    SplitAppend(k.surfacePath, KindName(k.kind), '\0');
  }

  // Names without NUL are recorded under one text only if they are the same key.
  lemma TextIsInjective(k: Key, l: Key)
    requires '\0' !in k.file && '\0' !in k.exportName && '\0' !in k.surfacePath
    requires '\0' !in l.file && '\0' !in l.exportName && '\0' !in l.surfacePath
    ensures Text(k) == Text(l) <==> k == l
  {
    SplitText(k);
    SplitText(l);
    if Text(k) == Text(l) {
      var x, y := Split(Text(k), '\0'), Split(Text(l), '\0');
      assert x[0] == y[0] && x[1] == y[1] && x[2] == y[2] && x[3] == y[3];
      assert k.kind == l.kind by {
        assert |"any"| == 3 && |"unknown"| == 7 && |"string-index"| == |"number-index"| == 12;
        assert "string-index"[0] != "number-index"[0];
      }
    }
  }

  // ---- Edges and frames ---------------------------------------------------------------------

  function IndexEdge(i: Index): Edge { Edge(".indexValue", i.value, false) }

  function Followed(edges: seq<Edge>): set<Edge> { set e | e in edges && !e.exempt }

  function IndexEdges(indexes: seq<Index>): set<Edge> { set i | i in indexes :: IndexEdge(i) }

  // Every edge that the search follows out of t.
  function Kids(g: Graph, t: Ty): set<Edge> {
    Followed(g.outer(t))
    + if g.expand(t) then IndexEdges(g.indexes(t)) + Followed(g.inner(t)) else {}
  }

  predicate Linked(g: Graph, t: Ty, u: Ty) {
    exists e :: e in Kids(g, t) && e.target == u
  }

  // A walk of pairwise distinct types without owners.
  predicate OwnerlessWalk(g: Graph, chain: seq<Ty>) {
    chain == []
    || (var n := |chain| - 1;
        && g.owner(chain[n]).None? && chain[n] !in chain[..n]
        && (n > 0 ==> Linked(g, chain[n - 1], chain[n]))
        && OwnerlessWalk(g, chain[..n]))
  }

  // Finitely many owners, and a bound on ownerless walks. Types themselves may be infinitely many.
  datatype Limits = Limits(owners: set<Owner>, chain: nat)

  ghost predicate Bounded(g: Graph, lim: Limits) {
    && (forall t :: g.owner(t).Some? ==> g.owner(t).value in lim.owners)
    && (forall chain :: OwnerlessWalk(g, chain) ==> |chain| <= lim.chain)
  }

  // The types and owners being visited; chain is the ownerless tail of the visit stack.
  datatype Frame = Frame(active: set<Ty>, owners: set<Owner>, chain: seq<Ty>)

  const EMPTY := Frame({}, {}, [])

  ghost predicate Ready(g: Graph, lim: Limits, f: Frame, t: Ty) {
    && Bounded(g, lim) && f.owners <= lim.owners
    && OwnerlessWalk(g, f.chain) && (forall c :: c in f.chain ==> c in f.active)
    && (f.chain != [] ==> Linked(g, f.chain[|f.chain| - 1], t))
  }

  predicate OwnerActive(g: Graph, owners: set<Owner>, t: Ty) {
    g.owner(t).Some? && g.owner(t).value in owners
  }

  // Neither weak nor cut: the search unfolds t.
  predicate Unfolds(g: Graph, active: set<Ty>, owners: set<Owner>, t: Ty) {
    g.weak(t).None? && t !in active && !OwnerActive(g, owners, t)
  }

  function WithOwner(g: Graph, owners: set<Owner>, t: Ty): set<Owner> {
    if g.owner(t).Some? then owners + {g.owner(t).value} else owners
  }

  function Enter(g: Graph, f: Frame, t: Ty): Frame {
    Frame(f.active + {t}, WithOwner(g, f.owners, t), if g.owner(t).Some? then [] else f.chain + [t])
  }

  lemma LeaveRestores(g: Graph, f: Frame, t: Ty)
    requires Unfolds(g, f.active, f.owners, t)
    ensures Enter(g, f, t).active - {t} == f.active
    ensures g.owner(t).Some? ==> Enter(g, f, t).owners - {g.owner(t).value} == f.owners
  {
  }

  function Room(lim: Limits, f: Frame): nat { |lim.owners - f.owners| }

  // Unfolding a type makes the lexicographic measure (free owners, free chain) strictly smaller.
  lemma EnterShrinks(g: Graph, lim: Limits, f: Frame, t: Ty)
    requires Ready(g, lim, f, t) && Unfolds(g, f.active, f.owners, t)
    ensures var n := Enter(g, f, t);
            && n.owners <= lim.owners && |n.chain| <= lim.chain
            && (forall e :: e in Kids(g, t) ==> Ready(g, lim, n, e.target))
            && if g.owner(t).Some? then Room(lim, n) < Room(lim, f)
               else Room(lim, n) == Room(lim, f) && lim.chain - |n.chain| == lim.chain - |f.chain| - 1
  {
    var n := Enter(g, f, t);
    if g.owner(t).Some? {
      var o := g.owner(t).value;
      assert o in lim.owners - f.owners;
      assert lim.owners - n.owners == (lim.owners - f.owners) - {o};
    } else {
      assert n.chain[..|f.chain|] == f.chain;
    }
    forall e | e in Kids(g, t) ensures Ready(g, lim, n, e.target) {
      assert Linked(g, t, e.target);
    }
  }

  // ---- What one root reports ------------------------------------------------------------------

  // Weak arguments reported where the owner repeats.
  function ArgumentKeys(g: Graph, root: Root, t: Ty, path: string): set<Key> {
    set a | a in g.arguments(t) && g.weak(a.target).Some? :: Named(root, path + a.step, g.weak(a.target).value)
  }

  function SomeIndexKeys(root: Root, indexes: seq<Index>, path: string): set<Key> {
    set i | i in indexes && i.kind.Some? :: Named(root, path + ".[" + i.step + "]", i.kind.value)
  }

  function IndexKeys(g: Graph, root: Root, t: Ty, path: string): set<Key> {
    if g.expand(t) then SomeIndexKeys(root, g.indexes(t), path) else {}
  }

  ghost function Search(g: Graph, lim: Limits, root: Root, t: Ty, path: string, f: Frame): set<Key>
    requires Ready(g, lim, f, t)
    decreases Room(lim, f), lim.chain - |f.chain|, 0
  {
    if g.weak(t).Some? then {Named(root, path, g.weak(t).value)}
    else if t in f.active then {}
    else if OwnerActive(g, f.owners, t) then ArgumentKeys(g, root, t, path)
    else
      EnterShrinks(g, lim, f, t);
      IndexKeys(g, root, t, path) + Below(g, lim, root, Kids(g, t), path, Enter(g, f, t))
  }

  ghost function Below(g: Graph, lim: Limits, root: Root, edges: set<Edge>, path: string, f: Frame): set<Key>
    requires forall e :: e in edges ==> Ready(g, lim, f, e.target)
    decreases Room(lim, f), lim.chain - |f.chain|, 1
  {
    set e, k | e in edges && k in Search(g, lim, root, e.target, path + e.step, f) :: k
  }

  lemma BelowUnion(g: Graph, lim: Limits, root: Root, a: set<Edge>, b: set<Edge>, path: string, f: Frame)
    requires forall e :: e in a + b ==> Ready(g, lim, f, e.target)
    ensures Below(g, lim, root, a + b, path, f) == Below(g, lim, root, a, path, f) + Below(g, lim, root, b, path, f)
  {
    var all, left, right := Below(g, lim, root, a + b, path, f), Below(g, lim, root, a, path, f), Below(g, lim, root, b, path, f);
    forall k | k in all ensures k in left + right {
      var e :| e in a + b && k in Search(g, lim, root, e.target, path + e.step, f);
      if e in a { assert k in left; } else { assert k in right; }
    }
    forall k | k in left + right ensures k in all {
      if k in left {
        var e :| e in a && k in Search(g, lim, root, e.target, path + e.step, f);
        assert e in a + b;
      } else {
        var e :| e in b && k in Search(g, lim, root, e.target, path + e.step, f);
        assert e in a + b;
      }
    }
  }

  lemma BelowOne(g: Graph, lim: Limits, root: Root, e: Edge, path: string, f: Frame)
    requires Ready(g, lim, f, e.target)
    ensures Below(g, lim, root, {e}, path, f) == Search(g, lim, root, e.target, path + e.step, f)
  {
    var keys := Search(g, lim, root, e.target, path + e.step, f);
    forall k | k in keys ensures k in Below(g, lim, root, {e}, path, f) { assert e in {e}; }
  }

  lemma FollowedSnoc(edges: seq<Edge>, i: nat)
    requires i < |edges|
    ensures Followed(edges[..i + 1]) == Followed(edges[..i]) + if edges[i].exempt then {} else {edges[i]}
    ensures Followed(edges[..i + 1]) <= Followed(edges)
  {
    assert edges[..i + 1] == edges[..i] + [edges[i]];
  }

  lemma BelowSnoc(g: Graph, lim: Limits, root: Root, edges: seq<Edge>, i: nat, path: string, f: Frame, keys: set<Key>)
    requires i < |edges| && !edges[i].exempt && forall e :: e in Followed(edges) ==> Ready(g, lim, f, e.target)
    requires Followed(edges[..i + 1]) <= Followed(edges) && edges[i] in Followed(edges)
    requires Followed(edges[..i + 1]) == Followed(edges[..i]) + {edges[i]}
    ensures keys + Below(g, lim, root, Followed(edges[..i]), path, f)
                 + Search(g, lim, root, edges[i].target, path + edges[i].step, f)
            == keys + Below(g, lim, root, Followed(edges[..i + 1]), path, f)
  {
    BelowUnion(g, lim, root, Followed(edges[..i]), {edges[i]}, path, f);
    BelowOne(g, lim, root, edges[i], path, f);
    Associate(keys, Below(g, lim, root, Followed(edges[..i]), path, f),
              Search(g, lim, root, edges[i].target, path + edges[i].step, f));
  }

  lemma SearchUnfolds(g: Graph, lim: Limits, root: Root, t: Ty, path: string, f: Frame)
    requires Ready(g, lim, f, t) && Unfolds(g, f.active, f.owners, t)
    ensures forall e :: e in Kids(g, t) ==> Ready(g, lim, Enter(g, f, t), e.target)
    ensures Search(g, lim, root, t, path, f)
            == IndexKeys(g, root, t, path) + Below(g, lim, root, Kids(g, t), path, Enter(g, f, t))
  {
    EnterShrinks(g, lim, f, t);
  }

  /** One visit that the audit starts: an exported type, an exported value or a piece of type syntax. */
  datatype Seed = Seed(graph: Graph, root: Root, start: Ty, path: string)

  ghost predicate SeedsBounded(seeds: seq<Seed>, lims: seq<Limits>) {
    |seeds| == |lims| && forall i :: 0 <= i < |seeds| ==> Bounded(seeds[i].graph, lims[i])
  }

  ghost function SeedKeys(s: Seed, lim: Limits): set<Key>
    requires Bounded(s.graph, lim)
  {
    Search(s.graph, lim, s.root, s.start, s.path, EMPTY)
  }

  ghost function AuditKeys(seeds: seq<Seed>, lims: seq<Limits>): set<Key>
    requires SeedsBounded(seeds, lims)
  {
    set i, k | 0 <= i < |seeds| && k in SeedKeys(seeds[i], lims[i]) :: k
  }

  // The key is one of those of the first n seeds.
  ghost predicate KeyWithin(seeds: seq<Seed>, lims: seq<Limits>, n: nat, k: Key)
    requires SeedsBounded(seeds, lims) && n <= |seeds|
  {
    exists i :: 0 <= i < n && k in SeedKeys(seeds[i], lims[i])
  }

  lemma AuditKeysWithin(seeds: seq<Seed>, lims: seq<Limits>, n: nat, k: Key)
    requires SeedsBounded(seeds, lims) && n <= |seeds|
    ensures k in AuditKeys(seeds[..n], lims[..n]) <==> KeyWithin(seeds, lims, n, k)
  {
    var firstSeeds, firstLims := seeds[..n], lims[..n];
    assert forall i :: 0 <= i < n ==> firstSeeds[i] == seeds[i] && firstLims[i] == lims[i];
    if k in AuditKeys(firstSeeds, firstLims) {
      var i :| 0 <= i < n && k in SeedKeys(firstSeeds[i], firstLims[i]);
      assert k in SeedKeys(seeds[i], lims[i]);
    }
    if KeyWithin(seeds, lims, n, k) {
      var i :| 0 <= i < n && k in SeedKeys(seeds[i], lims[i]);
      assert k in SeedKeys(firstSeeds[i], firstLims[i]);
    }
  }

  lemma AuditKeysSnoc(seeds: seq<Seed>, lims: seq<Limits>, n: nat)
    requires SeedsBounded(seeds, lims) && n < |seeds|
    ensures AuditKeys(seeds[..n + 1], lims[..n + 1])
            == AuditKeys(seeds[..n], lims[..n]) + SeedKeys(seeds[n], lims[n])
  {
    forall k
      ensures k in AuditKeys(seeds[..n + 1], lims[..n + 1])
              <==> k in AuditKeys(seeds[..n], lims[..n]) || k in SeedKeys(seeds[n], lims[n]) {
      AuditKeysWithin(seeds, lims, n + 1, k);
      AuditKeysWithin(seeds, lims, n, k);
    }
  }

  lemma UnfoldedKeys(g: Graph, lim: Limits, root: Root, t: Ty, path: string, f: Frame, keys: set<Key>)
    requires Ready(g, lim, f, t) && Unfolds(g, f.active, f.owners, t)
    ensures forall e :: e in Kids(g, t) ==> Ready(g, lim, Enter(g, f, t), e.target)
    ensures keys + IndexKeys(g, root, t, path) + Below(g, lim, root, Kids(g, t), path, Enter(g, f, t))
            == keys + Search(g, lim, root, t, path, f)
  {
    SearchUnfolds(g, lim, root, t, path, f);
    Associate(keys, IndexKeys(g, root, t, path), Below(g, lim, root, Kids(g, t), path, Enter(g, f, t)));
  }

  lemma OneIndexKey(root: Root, x: Index, path: string)
    ensures SomeIndexKeys(root, [x], path) ==
            if x.kind.Some? then {Named(root, path + ".[" + x.step + "]", x.kind.value)} else {}
  {
    assert x in [x];
  }

  // ---- The mutable search ---------------------------------------------------------------------

  // One finding per key and one key per finding.
  ghost predicate Agree(findings: seq<Finding>, keys: set<Key>) {
    if findings == [] then keys == {}
    else
      var n := |findings| - 1;
      KeyOf(findings[n]) in keys && Agree(findings[..n], keys - {KeyOf(findings[n])})
  }

  ghost predicate OneToOne(findings: seq<Finding>, keys: set<Key>) {
    && (forall i, j :: 0 <= i < j < |findings| ==> KeyOf(findings[i]) != KeyOf(findings[j]))
    && (forall i :: 0 <= i < |findings| ==> KeyOf(findings[i]) in keys)
    && (forall k :: k in keys ==> exists i :: 0 <= i < |findings| && KeyOf(findings[i]) == k)
  }

  lemma OneToOneSnoc(init: seq<Finding>, f: Finding, keys: set<Key>)
    requires KeyOf(f) in keys
    ensures OneToOne(init, keys - {KeyOf(f)}) ==> OneToOne(init + [f], keys)
  {
    var all := init + [f];
    if OneToOne(init, keys - {KeyOf(f)}) {
      forall i | 0 <= i < |all| ensures KeyOf(all[i]) in keys && (i < |init| ==> KeyOf(all[i]) != KeyOf(f)) {
        if i < |init| { assert KeyOf(init[i]) in keys - {KeyOf(f)}; }
      }
      forall k | k in keys ensures exists i :: 0 <= i < |all| && KeyOf(all[i]) == k {
        if k == KeyOf(f) {
          assert all[|init|] == f;
        } else {
          assert k in keys - {KeyOf(f)};
          var i :| 0 <= i < |init| && KeyOf(init[i]) == k;
          assert all[i] == init[i];
        }
      }
    }
  }

  lemma {:induction false} AgreeMeans(findings: seq<Finding>, keys: set<Key>)
    requires Agree(findings, keys)
    ensures OneToOne(findings, keys)
    decreases |findings|
  {
    if findings != [] {
      var n := |findings| - 1;
      AgreeMeans(findings[..n], keys - {KeyOf(findings[n])});
      OneToOneSnoc(findings[..n], findings[n], keys);
      assert findings == findings[..n] + [findings[n]];
    }
  }

  lemma Regroup(k: set<Key>, i: set<Key>, a: set<Key>, b: set<Key>, c: set<Key>)
    ensures k + a + i + b + c == k + i + (a + (b + c))
    ensures k + i + a + b + c == k + (i + b) + (a + c)
  {
  }

  lemma Associate(k: set<Key>, i: set<Key>, a: set<Key>)
    ensures k + i + a == k + (i + a)
  {
  }

  class Audit {
    var findings: seq<Finding>
    var findingKeys: set<Key>
    var activeTypes: set<Ty>
    var activeTypeOwners: set<Owner>

    // findings and findingKeys are in one-to-one agreement.
    ghost predicate Valid()
      reads this
    {
      Agree(findings, findingKeys)
    }

    ghost predicate At(f: Frame)
      reads this
    {
      activeTypes == f.active && activeTypeOwners == f.owners
    }

    constructor ()
      ensures Valid() && findings == [] && findingKeys == {} && At(EMPTY)
    {
      findings, findingKeys, activeTypes, activeTypeOwners := [], {}, {}, {};
    }

    // The loop over every export of every selected module.
    method AuditExports(seeds: seq<Seed>, ghost lims: seq<Limits>)
      requires Valid() && At(EMPTY) && findingKeys == {} && SeedsBounded(seeds, lims)
      modifies this
      ensures Valid() && At(EMPTY) && findingKeys == AuditKeys(seeds, lims)
    {
      for i := 0 to |seeds|
        invariant Valid() && At(EMPTY) && findingKeys == AuditKeys(seeds[..i], lims[..i])
      {
        var s := seeds[i];
        VisitType(s.graph, s.root, s.start, s.path, lims[i], EMPTY);
        AuditKeysSnoc(seeds, lims, i);
      }
      assert seeds[..|seeds|] == seeds && lims[..|seeds|] == lims;
    }

    method AddFinding(root: Root, kind: Kind, subject: Ty, path: string)
      requires Valid()
      modifies this`findings, this`findingKeys
      ensures Valid() && findingKeys == old(findingKeys) + {Named(root, path, kind)}
      ensures findings == old(findings)
                          + if Named(root, path, kind) in old(findingKeys) then [] else [Finding(kind, root, path, subject)]
    {
      var finding := Finding(kind, root, path, subject);
      if KeyOf(finding) in findingKeys { return; }
      ghost var keys := findingKeys;
      findingKeys := findingKeys + {KeyOf(finding)};
      findings := findings + [finding];
      assert findingKeys - {KeyOf(finding)} == keys;
    }

    method VisitImmediateWeakArguments(g: Graph, root: Root, t: Ty, path: string)
      requires Valid()
      modifies this`findings, this`findingKeys
      ensures Valid() && old(findings) <= findings
      ensures findingKeys == old(findingKeys) + ArgumentKeys(g, root, t, path)
    {
      var arguments := g.arguments(t);
      for i := 0 to |arguments|
        invariant Valid() && old(findings) <= findings
        invariant findingKeys == old(findingKeys)
          + set a | a in arguments[..i] && g.weak(a.target).Some? :: Named(root, path + a.step, g.weak(a.target).value)
      {
        var a := arguments[i];
        assert arguments[..i + 1] == arguments[..i] + [a];
        if g.weak(a.target).Some? {
          AddFinding(root, g.weak(a.target).value, a.target, path + a.step);
        }
      }
      assert arguments[..|arguments|] == arguments;
    }

    // Reports exactly the keys of Search, and restores the active sets.
    method VisitType(g: Graph, root: Root, t: Ty, path: string, ghost lim: Limits, ghost f: Frame)
      requires Valid() && At(f) && Ready(g, lim, f, t)
      modifies this
      ensures Valid() && At(f) && old(findings) <= findings
      ensures findingKeys == old(findingKeys) + Search(g, lim, root, t, path, f)
      decreases Room(lim, f), lim.chain - |f.chain|, 1
    {
      if g.weak(t).Some? {
        AddFinding(root, g.weak(t).value, t, path);
        return;
      }
      if t in activeTypes { return; }
      var owner := g.owner(t);
      if owner.Some? && owner.value in activeTypeOwners {
        VisitImmediateWeakArguments(g, root, t, path);
        return;
      }
      Unfold(g, root, t, path, lim, f);
    }

    method Unfold(g: Graph, root: Root, t: Ty, path: string, ghost lim: Limits, ghost f: Frame)
      requires Valid() && At(f) && Ready(g, lim, f, t) && Unfolds(g, f.active, f.owners, t)
      modifies this
      ensures Valid() && At(f) && old(findings) <= findings
      ensures findingKeys == old(findingKeys) + Search(g, lim, root, t, path, f)
      decreases Room(lim, f), lim.chain - |f.chain|, 0
    {
      var owner := g.owner(t);
      EnterShrinks(g, lim, f, t);
      activeTypes := activeTypes + {t};
      if owner.Some? { activeTypeOwners := activeTypeOwners + {owner.value}; }
      ghost var keys := findingKeys;
      VisitStructure(g, root, t, path, lim, Enter(g, f, t));
      UnfoldedKeys(g, lim, root, t, path, f, keys);
      if owner.Some? { activeTypeOwners := activeTypeOwners - {owner.value}; }
      activeTypes := activeTypes - {t};
      LeaveRestores(g, f, t);
    }

    // Everything between entering and leaving one type.
    method VisitStructure(g: Graph, root: Root, t: Ty, path: string, ghost lim: Limits, ghost f: Frame)
      requires Valid() && At(f) && forall e :: e in Kids(g, t) ==> Ready(g, lim, f, e.target)
      modifies this
      ensures Valid() && At(f) && old(findings) <= findings
      ensures findingKeys == old(findingKeys) + IndexKeys(g, root, t, path) + Below(g, lim, root, Kids(g, t), path, f)
      decreases Room(lim, f), lim.chain - |f.chain|, 4
    {
      ghost var outer, index, inner := Followed(g.outer(t)), IndexEdges(g.indexes(t)), Followed(g.inner(t));
      ghost var keys := findingKeys;
      VisitEdges(g, root, g.outer(t), path, lim, f);
      if !g.expand(t) {
        assert Kids(g, t) == outer;
        return;
      }
      assert Kids(g, t) == outer + (index + inner);
      VisitIndexes(g, root, g.indexes(t), path, lim, f);
      VisitEdges(g, root, g.inner(t), path, lim, f);
      BelowUnion(g, lim, root, index, inner, path, f);
      BelowUnion(g, lim, root, outer, index + inner, path, f);
      Regroup(keys, SomeIndexKeys(root, g.indexes(t), path), Below(g, lim, root, outer, path, f),
              Below(g, lim, root, index, path, f), Below(g, lim, root, inner, path, f));
    }

    method VisitEdges(g: Graph, root: Root, edges: seq<Edge>, path: string, ghost lim: Limits, ghost f: Frame)
      requires Valid() && At(f) && forall e :: e in Followed(edges) ==> Ready(g, lim, f, e.target)
      modifies this
      ensures Valid() && At(f) && old(findings) <= findings
      ensures findingKeys == old(findingKeys) + Below(g, lim, root, Followed(edges), path, f)
      decreases Room(lim, f), lim.chain - |f.chain|, 2
    {
      assert Followed(edges[..0]) == {};
      for i := 0 to |edges|
        invariant Valid() && At(f) && old(findings) <= findings
        invariant Followed(edges[..i]) <= Followed(edges)
        invariant findingKeys == old(findingKeys) + Below(g, lim, root, Followed(edges[..i]), path, f)
      {
        var e := edges[i];
        FollowedSnoc(edges, i);
        if e.exempt { continue; }
        VisitType(g, root, e.target, path + e.step, lim, f);
        BelowSnoc(g, lim, root, edges, i, path, f, old(findingKeys));
      }
      assert edges[..|edges|] == edges;
    }

    method VisitIndex(g: Graph, root: Root, x: Index, path: string, ghost lim: Limits, ghost f: Frame)
      requires Valid() && At(f) && Ready(g, lim, f, x.value)
      modifies this
      ensures Valid() && At(f) && old(findings) <= findings
      ensures findingKeys == old(findingKeys) + SomeIndexKeys(root, [x], path)
                             + Below(g, lim, root, {IndexEdge(x)}, path, f)
      decreases Room(lim, f), lim.chain - |f.chain|, 2
    {
      if x.kind.Some? { AddFinding(root, x.kind.value, x.value, path + ".[" + x.step + "]"); }
      OneIndexKey(root, x, path);
      VisitType(g, root, x.value, path + ".indexValue", lim, f);
      BelowOne(g, lim, root, IndexEdge(x), path, f);
    }

    method VisitIndexes(g: Graph, root: Root, indexes: seq<Index>, path: string, ghost lim: Limits, ghost f: Frame)
      requires Valid() && At(f)
      requires forall e :: e in IndexEdges(indexes) ==> Ready(g, lim, f, e.target)
      modifies this
      ensures Valid() && At(f) && old(findings) <= findings
      ensures findingKeys == old(findingKeys) + SomeIndexKeys(root, indexes, path)
                             + Below(g, lim, root, IndexEdges(indexes), path, f)
      decreases Room(lim, f), lim.chain - |f.chain|, 3
    {
      for i := 0 to |indexes|
        invariant Valid() && At(f) && old(findings) <= findings
        invariant IndexEdges(indexes[..i]) <= IndexEdges(indexes)
        invariant findingKeys == old(findingKeys) + SomeIndexKeys(root, indexes[..i], path)
                                 + Below(g, lim, root, IndexEdges(indexes[..i]), path, f)
      {
        var x := indexes[i];
        assert indexes[..i + 1] == indexes[..i] + [x];
        IndexesSnoc(root, indexes[..i], x, path);
        IndexIncluded(indexes, i);
        VisitIndex(g, root, x, path, lim, f);
        IndexBelowSnoc(g, lim, root, indexes[..i], x, path, f, old(findingKeys));
      }
      assert indexes[..|indexes|] == indexes;
    }
  }

  lemma IndexesSnoc(root: Root, xs: seq<Index>, x: Index, path: string)
    ensures IndexEdges(xs + [x]) == IndexEdges(xs) + {IndexEdge(x)}
    ensures SomeIndexKeys(root, xs + [x], path) == SomeIndexKeys(root, xs, path) + SomeIndexKeys(root, [x], path)
  {
    forall y ensures y in xs + [x] <==> y in xs || y == x {}
    assert x in [x] && x in xs + [x];
  }

  lemma IndexIncluded(indexes: seq<Index>, i: nat)
    requires i < |indexes|
    ensures IndexEdge(indexes[i]) in IndexEdges(indexes) && IndexEdges(indexes[..i + 1]) <= IndexEdges(indexes)
  {
  }

  lemma IndexBelowSnoc(g: Graph, lim: Limits, root: Root, xs: seq<Index>, x: Index, path: string, f: Frame, keys: set<Key>)
    requires forall e :: e in IndexEdges(xs) + {IndexEdge(x)} ==> Ready(g, lim, f, e.target)
    requires IndexEdges(xs + [x]) == IndexEdges(xs) + {IndexEdge(x)}
    requires SomeIndexKeys(root, xs + [x], path) == SomeIndexKeys(root, xs, path) + SomeIndexKeys(root, [x], path)
    ensures keys + SomeIndexKeys(root, xs, path) + Below(g, lim, root, IndexEdges(xs), path, f)
                 + SomeIndexKeys(root, [x], path) + Below(g, lim, root, {IndexEdge(x)}, path, f)
            == keys + SomeIndexKeys(root, xs + [x], path) + Below(g, lim, root, IndexEdges(xs + [x]), path, f)
  {
    BelowUnion(g, lim, root, IndexEdges(xs), {IndexEdge(x)}, path, f);
    Regroup(keys, SomeIndexKeys(root, xs, path), Below(g, lim, root, IndexEdges(xs), path, f),
            SomeIndexKeys(root, [x], path), Below(g, lim, root, {IndexEdge(x)}, path, f));
  }
}
