/** Handing client data to a type and, along casts without a converter, to every type
    equivalent to it that has none: a flood fill that changes the graph it walks on. */
module ClientData {
  import opened CastLists

  type Graph = map<TypeInfo, set<TypeInfo>>

  /** `g` has an edge for every cast without a converter. */
  ghost predicate Drawn(world: set<TypeInfo>, g: Graph)
    reads world`cast, world`casts, set t, i | t in world && 0 <= i < |t.casts| :: t.casts[i]
  {
    && world == g.Keys
    && forall t | t in world :: t.WellLinked() && g[t] == Targets(t.casts) && g[t] <= world
  }

  /** The targets of the casts without a converter. */
  ghost function Targets(casts: seq<CastInfo>): set<TypeInfo> {
    set e | e in casts && !e.hasConverter :: e.target
  }

  type Data = map<TypeInfo, nat>

  ghost function DataOf(world: set<TypeInfo>): (d: Data)
    reads world`clientData
    ensures d.Keys == world
  {
    map t | t in world :: t.clientData
  }

  ghost function Lacking(d: Data): set<TypeInfo> {
    set t | t in d && d[t] == 0
  }

  /** The types at most `n` edges away from `a`, where every type but `a` lacks data. */
  ghost function Within(g: Graph, lacking: set<TypeInfo>, a: TypeInfo, n: nat): set<TypeInfo> {
    if n == 0 then {a}
    else var near := Within(g, lacking, a, n - 1);
      near + set t, u | t in near && t in g && u in g[t] && u in lacking :: u
  }

  ghost predicate Reach(g: Graph, lacking: set<TypeInfo>, a: TypeInfo, b: TypeInfo) {
    exists n: nat :: b in Within(g, lacking, a, n)
  }

  lemma ReachSelf(g: Graph, lacking: set<TypeInfo>, a: TypeInfo)
    ensures Reach(g, lacking, a, a)
  {
    assert a in Within(g, lacking, a, 0);
  }

  lemma {:induction false} WithinStep(g: Graph, lacking: set<TypeInfo>, fewer: set<TypeInfo>, a: TypeInfo, b: TypeInfo,
                                      n: nat)
    requires fewer <= lacking && a in g && b in g[a] && b in lacking
    ensures Within(g, fewer, b, n) <= Within(g, lacking, a, n + 1)
  {
    if n > 0 {
      WithinStep(g, lacking, fewer, a, b, n - 1);
    } else {
      assert Within(g, lacking, a, 0) == {a};
    }
  }

  /** A way from a neighbour that lacks data is a way from here. */
  lemma ReachStep(g: Graph, lacking: set<TypeInfo>, fewer: set<TypeInfo>, a: TypeInfo, b: TypeInfo, c: TypeInfo)
    requires fewer <= lacking && a in g && b in g[a] && b in lacking && Reach(g, fewer, b, c)
    ensures Reach(g, lacking, a, c)
  {
    var n: nat :| c in Within(g, fewer, b, n);
    WithinStep(g, lacking, fewer, a, b, n);
  }

  /** A set that contains the start and is closed under the edges to types lacking data
      contains all that can be reached. */
  lemma {:induction false} ReachStays(g: Graph, lacking: set<TypeInfo>, a: TypeInfo, s: set<TypeInfo>, n: nat)
    requires a in s && forall t, u | t in s && t in g && u in g[t] && u in lacking :: u in s
    ensures Within(g, lacking, a, n) <= s
  {
    if n > 0 {
      ReachStays(g, lacking, a, s, n - 1);
    }
  }

  // ------------------------------------------------------ clearing the data of a type

  /** With NULL for data no type stops lacking it, so the recursion follows every way: it
      goes no deeper than `n` calls. */
  ghost predicate Ends(g: Graph, lacking: set<TypeInfo>, t: TypeInfo, n: nat)
    decreases n
  {
    n > 0 && forall u | t in g && u in g[t] && u in lacking :: Ends(g, lacking, u, n - 1)
  }

  /** Some type that can be reached can be reached again from itself. */
  ghost predicate Cyclic(g: Graph, lacking: set<TypeInfo>, root: TypeInfo) {
    exists n: nat, m: nat, u, v |
      u in Within(g, lacking, root, n) && u in g && v in g[u] && v in lacking :: u in Within(g, lacking, v, m)
  }

  lemma {:induction false} EndsLater(g: Graph, lacking: set<TypeInfo>, t: TypeInfo, n: nat)
    requires Ends(g, lacking, t, n)
    ensures Ends(g, lacking, t, n + 1)
    decreases n
  {
    forall u | t in g && u in g[t] && u in lacking ensures Ends(g, lacking, u, n) {
      EndsLater(g, lacking, u, n - 1);
    }
  }

  /** What can be reached ends, too. */
  lemma {:induction false} EndsAlong(g: Graph, lacking: set<TypeInfo>, a: TypeInfo, b: TypeInfo, n: nat, m: nat)
    requires Ends(g, lacking, a, n) && b in Within(g, lacking, a, m)
    ensures Ends(g, lacking, b, n)
    decreases m
  {
    if m > 0 {
      var near := Within(g, lacking, a, m - 1);
      if b in near {
        EndsAlong(g, lacking, a, b, n, m - 1);
      } else {
        var t :| t in near && t in g && b in g[t] && b in lacking;
        EndsAlong(g, lacking, a, t, n, m - 1);
        EndsLater(g, lacking, b, n - 1);
      }
    }
  }

  lemma {:induction false} CycleNeverEnds(g: Graph, lacking: set<TypeInfo>, u: TypeInfo, v: TypeInfo, n: nat, m: nat)
    requires u in g && v in g[u] && v in lacking && u in Within(g, lacking, v, m)
    ensures !Ends(g, lacking, u, n)
    decreases n
  {
    if Ends(g, lacking, u, n) {
      EndsAlong(g, lacking, v, u, n - 1, m);
      CycleNeverEnds(g, lacking, u, v, n - 1, m);
    }
  }

  /** The types in `before` all lead to `t` in one or more edges. */
  ghost predicate LeadTo(g: Graph, lacking: set<TypeInfo>, before: set<TypeInfo>, t: TypeInfo) {
    forall a | a in before :: exists v, m: nat :: a in g && v in g[a] && v in lacking && t in Within(g, lacking, v, m)
  }

  lemma LeadOn(g: Graph, lacking: set<TypeInfo>, before: set<TypeInfo>, t: TypeInfo, u: TypeInfo)
    requires LeadTo(g, lacking, before, t) && t in g && u in g[t] && u in lacking
    ensures LeadTo(g, lacking, before + {t}, u)
  {
    forall a | a in before + {t}
      ensures exists v, m: nat :: a in g && v in g[a] && v in lacking && u in Within(g, lacking, v, m)
    {
      if a == t {
        assert u in Within(g, lacking, u, 0);
      } else {
        var v, m: nat :| a in g && v in g[a] && v in lacking && t in Within(g, lacking, v, m);
        assert u in Within(g, lacking, v, m + 1);
      }
    }
  }

  lemma IsCycle(g: Graph, lacking: set<TypeInfo>, root: TypeInfo, n: nat, u: TypeInfo, v: TypeInfo, m: nat)
    requires u in Within(g, lacking, root, n) && u in g && v in g[u] && v in lacking && u in Within(g, lacking, v, m)
    ensures Cyclic(g, lacking, root)
  {
  }

  /** Without a cycle, an edge leads to a type that is not on the way here. */
  lemma NoWayBack(g: Graph, lacking: set<TypeInfo>, root: TypeInfo, before: set<TypeInfo>, t: TypeInfo, u: TypeInfo,
                  k: nat)
    requires !Cyclic(g, lacking, root) && t in Within(g, lacking, root, k) && LeadTo(g, lacking, before, t)
    requires t in g && u in g[t] && u in lacking
    ensures u != t && u !in before
  {
    hide Cyclic;
    if u == t {
      IsCycle(g, lacking, root, k, t, t, 0);
    } else if u in before {
      var v, m: nat :| u in g && v in g[u] && v in lacking && t in Within(g, lacking, v, m);
      WithinStep(g, lacking, lacking, u, v, m);
      IsCycle(g, lacking, root, k, t, u, m + 1);
    }
  }

  /** Without a cycle the recursion is no deeper than the number of types it can be at. */
  lemma {:induction false} AcyclicEnds(g: Graph, lacking: set<TypeInfo>, root: TypeInfo, before: set<TypeInfo>,
                                      t: TypeInfo, k: nat, rest: set<TypeInfo>)
    requires !Cyclic(g, lacking, root) && t in Within(g, lacking, root, k) && LeadTo(g, lacking, before, t)
    requires rest == lacking + {root} - before && t in rest
    ensures Ends(g, lacking, t, |rest|)
    decreases rest
  {
    hide Within, LeadTo, Cyclic;
    forall u | t in g && u in g[t] && u in lacking ensures Ends(g, lacking, u, |rest| - 1) {
      NoWayBack(g, lacking, root, before, t, u, k);
      LeadOn(g, lacking, before, t, u);
      OneFurther(g, lacking, root, t, u, k);
      hide Ends;
      AcyclicEnds(g, lacking, root, before + {t}, u, k + 1, rest - {t});
    }
  }

  lemma OneFurther(g: Graph, lacking: set<TypeInfo>, root: TypeInfo, t: TypeInfo, u: TypeInfo, k: nat)
    requires t in Within(g, lacking, root, k) && t in g && u in g[t] && u in lacking
    ensures u in Within(g, lacking, root, k + 1)
  {
  }

  /** Clearing the data of a type ends exactly if no cycle of casts without a converter,
      through types without data, can be reached from it. */
  lemma ClearingEndsExactly(g: Graph, lacking: set<TypeInfo>, root: TypeInfo)
    ensures (exists n: nat :: Ends(g, lacking, root, n)) <==> !Cyclic(g, lacking, root)
  {
    if !Cyclic(g, lacking, root) {
      assert root in Within(g, lacking, root, 0);
      var all := lacking + {root};
      AcyclicEnds(g, lacking, root, {}, root, 0, all);
      assert Ends(g, lacking, root, |all|);
    } else {
      forall n: nat ensures !Ends(g, lacking, root, n) {
        if Ends(g, lacking, root, n) {
          var k: nat, m: nat, u, v :| u in Within(g, lacking, root, k) && u in g && v in g[u] && v in lacking
                                      && u in Within(g, lacking, v, m);
          EndsAlong(g, lacking, root, u, n, k);
          CycleNeverEnds(g, lacking, u, v, n, m);
        }
      }
    }
  }

  // ------------------------------------------------------------------- the flood

  /** From `d` to `d'`, only types without data and the root got data, and only along ways
      through types without data. */
  ghost predicate Spread(g: Graph, d: Data, d': Data, ti: TypeInfo, data: nat) {
    && d.Keys == d'.Keys == g.Keys && ti in d && d'[ti] == data
    && (forall t | t in d && t != ti && d[t] != 0 :: d'[t] == d[t])
    && (forall t | t in d && d[t] == 0 && d'[t] != 0 :: d'[t] == data && Reach(g, Lacking(d), ti, t))
  }

  /** `t` has no neighbour without data. */
  ghost predicate Settled(g: Graph, d: Data, t: TypeInfo) {
    t in g && forall u | u in g[t] && u in d :: d[u] != 0
  }

  /** Every type that got data is settled, with the possible exception of `except`. */
  ghost predicate SettledBut(g: Graph, d: Data, d': Data, except: set<TypeInfo>) {
    forall t | t in d && t in d' && d[t] == 0 && d'[t] != 0 && t !in except :: Settled(g, d', t)
  }

  ghost predicate Flooded(g: Graph, d: Data, d': Data, ti: TypeInfo, data: nat) {
    Spread(g, d, d', ti, data) && SettledBut(g, d, d', {}) && Settled(g, d', ti)
  }

  /** A flood from a neighbour continues a flood. */
  lemma FloodContinues(g: Graph, d0: Data, d1: Data, d2: Data, ti: TypeInfo, tc: TypeInfo, data: nat)
    requires data != 0 && Spread(g, d0, d1, ti, data) && SettledBut(g, d0, d1, {ti})
    requires tc in g[ti] && tc in d1 && d1[tc] == 0 && Flooded(g, d1, d2, tc, data)
    ensures Spread(g, d0, d2, ti, data) && SettledBut(g, d0, d2, {ti})
    ensures d2.Keys == d1.Keys && d2[tc] != 0 && forall t | t in d1 && d1[t] != 0 :: d2[t] == d1[t]
  {
    forall t | t in d0 && d0[t] == 0 && d2[t] != 0 ensures d2[t] == data && Reach(g, Lacking(d0), ti, t) {
      if d1[t] == 0 {
        assert tc in Lacking(d0);
        ReachStep(g, Lacking(d0), Lacking(d1), ti, tc, t);
      }
    }
  }

  lemma FloodStarts(g: Graph, d: Data, ti: TypeInfo, data: nat)
    requires data != 0 && ti in d && d.Keys == g.Keys
    ensures Spread(g, d, d[ti := data], ti, data) && SettledBut(g, d, d[ti := data], {ti})
    ensures Lacking(d[ti := data]) <= Lacking(d)
  {
    ReachSelf(g, Lacking(d), ti);
    hide Reach;
  }

  /** Ever fewer types lack data. */
  lemma FewerLacking(g: Graph, d0: Data, d1: Data, ti: TypeInfo, tc: TypeInfo, data: nat)
    requires data != 0 && Spread(g, d0, d1, ti, data) && tc in d1 && d1[tc] == 0
    ensures Lacking(d1) - {tc} < Lacking(d0) - {ti}
  {
    hide Reach;
    assert tc in Lacking(d0) - {ti};
  }

  /** The targets of the first `n` casts of `ti` that have no converter have data. */
  ghost predicate Visited(d: Data, casts: seq<CastInfo>, n: nat) {
    forall k | 0 <= k < n && k < |casts| && !casts[k].hasConverter :: casts[k].target in d && d[casts[k].target] != 0
  }

  lemma VisitedAll(world: set<TypeInfo>, g: Graph, d: Data, ti: TypeInfo)
    requires Drawn(world, g) && ti in world && Visited(d, ti.casts, |ti.casts|)
    ensures Settled(g, d, ti)
  {
  }

  lemma VisitedMore(d: Data, d': Data, casts: seq<CastInfo>, n: nat)
    requires Visited(d, casts, n) && n < |casts|
    requires casts[n].hasConverter || (casts[n].target in d' && d'[casts[n].target] != 0)
    requires forall t | t in d && d[t] != 0 :: t in d' && d'[t] != 0
    ensures Visited(d', casts, n + 1)
  {
  }

  /** What walking along the list of `ti` needs to know. */
  lemma DrawnAt(world: set<TypeInfo>, g: Graph, ti: TypeInfo, i: nat)
    requires Drawn(world, g) && ti in world && i <= |ti.casts|
    ensures ti.cast == (if |ti.casts| > 0 then ti.casts[0] else null) && world == g.Keys
    ensures i < |ti.casts| ==>
      && ti.casts[i].next == (if i + 1 < |ti.casts| then ti.casts[i + 1] else null)
      && (!ti.casts[i].hasConverter ==> ti.casts[i].target in g[ti] && ti.casts[i].target in world)
  {
    assert ti.WellLinked();
    var j := i + 1;
    assert j < |ti.casts| ==> ti.casts[i].next == ti.casts[j];
  }

  /** Before clearing, what lacks data or will. */
  ghost function Cleared(d: Data, ti: TypeInfo): set<TypeInfo> {
    Lacking(d) + {ti}
  }

  lemma ClearingGoesOn(g: Graph, d: Data, ti: TypeInfo, tc: TypeInfo, depth: nat)
    requires ti in d && Ends(g, Cleared(d, ti), ti, depth) && ti in g && tc in g[ti] && tc in d && d[ti := 0][tc] == 0
    ensures depth > 0 && Ends(g, Cleared(d[ti := 0], tc), tc, depth - 1) && d[ti := 0][tc := 0] == d[ti := 0]
  {
    assert Cleared(d[ti := 0], tc) == Cleared(d, ti);
  }

  /** The recursion of SWIG_TypeClientData.  With data it ends because every call but the
      outermost gives data to a type that had none; with NULL it goes down to `depth` calls. */
  method Flood(ti: TypeInfo, data: nat, ghost world: set<TypeInfo>, ghost g: Graph, ghost depth: nat)
    requires ti in world && Drawn(world, g)
    requires data == 0 ==> Ends(g, Cleared(DataOf(world), ti), ti, depth)
    modifies world`clientData
    ensures data != 0 ==> Flooded(g, old(DataOf(world)), DataOf(world), ti, data)
    ensures data == 0 ==> DataOf(world) == old(DataOf(world))[ti := 0]
    decreases if data == 0 then depth else 0, if data == 0 then {} else Lacking(DataOf(world)) - {ti}
  {
    hide *;
    ghost var d0 := DataOf(world);
    DrawnAt(world, g, ti, 0);
    var cast := ti.cast;
    SetData(ti, data, world);
    if data != 0 {
      FloodStarts(g, d0, ti, data);
    }
    ghost var i := 0;
    VisitedNone(DataOf(world), ti.casts);
    while cast != null
      invariant i <= |ti.casts| && cast == if i < |ti.casts| then ti.casts[i] else null
      invariant Drawn(world, g)
      invariant data != 0 ==> Spread(g, d0, DataOf(world), ti, data) && SettledBut(g, d0, DataOf(world), {ti})
      invariant data != 0 ==> Visited(DataOf(world), ti.casts, i)
      invariant data == 0 ==> DataOf(world) == d0[ti := 0]
      decreases |ti.casts| - i
    {
      ghost var d1 := DataOf(world);
      DrawnAt(world, g, ti, i);
      if !cast.hasConverter {
        var tc := cast.target;
        DataAt(world, tc);
        if tc.clientData == 0 {
          if data != 0 {
            FewerLacking(g, d0, d1, ti, tc, data);
            Flood(tc, data, world, g, 0);
            FloodContinues(g, d0, d1, DataOf(world), ti, tc, data);
          } else {
            ClearingGoesOn(g, d0, ti, tc, depth);
            Flood(tc, data, world, g, depth - 1);
          }
        }
      }
      if data != 0 {
        VisitedMore(d1, DataOf(world), ti.casts, i);
      }
      DrawnAt(world, g, ti, i);
      cast := cast.next;
      i := i + 1;
    }
    if data != 0 {
      VisitedAll(world, g, DataOf(world), ti);
      FloodEnds(g, d0, DataOf(world), ti, data);
    }
  }

  method SetData(ti: TypeInfo, data: nat, ghost world: set<TypeInfo>)
    requires ti in world
    modifies ti`clientData
    ensures DataOf(world) == old(DataOf(world))[ti := data]
  {
    ti.clientData := data;
  }

  lemma DataAt(world: set<TypeInfo>, t: TypeInfo)
    requires t in world
    ensures DataOf(world)[t] == t.clientData
  {
  }

  lemma FloodEnds(g: Graph, d: Data, d': Data, ti: TypeInfo, data: nat)
    requires Spread(g, d, d', ti, data) && SettledBut(g, d, d', {ti}) && Settled(g, d', ti)
    ensures Flooded(g, d, d', ti, data)
  {
  }

  lemma VisitedNone(d: Data, casts: seq<CastInfo>)
    ensures Visited(d, casts, 0)
  {
  }

  /** One cast leads from a type to the targets of its casts without a converter, and to no
      others. */
  lemma Neighbours(world: set<TypeInfo>, g: Graph, lacking: set<TypeInfo>, ti: TypeInfo)
    requires ti in world && Drawn(world, g)
    ensures (forall e | e in ti.casts :: e.hasConverter) ==> forall t | Reach(g, lacking, ti, t) :: t == ti
    ensures forall e | e in ti.casts && !e.hasConverter ::
      e.target in world && (e.target in lacking ==> Reach(g, lacking, ti, e.target))
  {
    if forall e | e in ti.casts :: e.hasConverter {
      assert g[ti] == {};
      forall t | Reach(g, lacking, ti, t) ensures t == ti {
        var n: nat :| t in Within(g, lacking, ti, n);
        ReachStays(g, lacking, ti, {ti}, n);
      }
    }
    forall e | e in ti.casts && !e.hasConverter && e.target in lacking ensures Reach(g, lacking, ti, e.target) {
      assert e.target in g[ti];
      ReachSelf(g, lacking, e.target);
      ReachStep(g, lacking, lacking, ti, e.target, e.target);
    }
  }

  /** SWIG_TypeClientData.  With data: afterwards the root has the data, a type that had data
      of its own keeps it, and a type that had none has it exactly if it can be reached from
      the root through types that had none.  With NULL: if it ends, which is exactly if no
      cycle can be reached, only the root has changed. */
  method TypeClientData(ti: TypeInfo, data: nat, ghost world: set<TypeInfo>, ghost g: Graph)
    requires ti in world && Drawn(world, g)
    requires data == 0 ==> !Cyclic(g, Cleared(DataOf(world), ti), ti)
    modifies world`clientData
    ensures ti.clientData == data
    ensures forall t | t in world && t != ti && old(t.clientData) != 0 :: t.clientData == old(t.clientData)
    ensures forall t | t in world && t != ti && old(t.clientData) == 0 ::
      t.clientData == if Reach(g, Lacking(old(DataOf(world))), ti, t) then data else 0
    ensures forall t | t in world && data != 0 && (t == ti || (old(t.clientData) == 0 && t.clientData != 0)) ::
      Settled(g, DataOf(world), t)
    ensures (forall e | e in ti.casts :: e.hasConverter) ==>
      forall t | t in world && t != ti :: t.clientData == old(t.clientData)
    ensures forall e | e in ti.casts && !e.hasConverter && e.target != ti && old(e.target.clientData) == 0 ::
      e.target.clientData == data
  {
    hide Drawn, Reach, Within, Ends, Cyclic, Cleared, TypeInfo.WellLinked;
    ghost var d := DataOf(world);
    Neighbours(world, g, Lacking(d), ti);
    ghost var depth: nat := 0;
    if data == 0 {
      ClearingEndsExactly(g, Cleared(d, ti), ti);
      depth :| Ends(g, Cleared(d, ti), ti, depth);
    }
    Flood(ti, data, world, g, depth);
    if data != 0 {
      FloodIsReach(g, d, DataOf(world), ti, data);
    }
  }

  lemma FloodIsReach(g: Graph, d: Data, d': Data, ti: TypeInfo, data: nat)
    requires data != 0 && Flooded(g, d, d', ti, data)
    ensures forall t | t in d && t != ti && d[t] == 0 :: d'[t] == if Reach(g, Lacking(d), ti, t) then data else 0
  {
    var s := set t | t in d && (t == ti || d[t] == 0) && d'[t] != 0;
    forall t | t in d && Reach(g, Lacking(d), ti, t) ensures t in s {
      var n: nat :| t in Within(g, Lacking(d), ti, n);
      ReachStays(g, Lacking(d), ti, s, n);
    }
  }
}
