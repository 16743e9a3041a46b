/** Walking a singly linked structure in a finite heap: a walk either ends or runs into a
    cycle, and a slow and a fast walker find out which. */
module Walks {

  datatype Spot<+T> = End | On(node: T)

  /** `nx` gives the link of every node whose link is not NULL. */
  function Follow<T>(nx: map<T, T>, x: Spot<T>): Spot<T> {
    if x.On? && x.node in nx then On(nx[x.node]) else End
  }

  /** Where a walk is after `k` steps. */
  function Walk<T>(nx: map<T, T>, x: Spot<T>, k: nat): Spot<T> {
    if k == 0 then x else Follow(nx, Walk(nx, x, k - 1))
  }

  /** The walk comes back to a node it has been on before. */
  ghost predicate Cyclic<T>(nx: map<T, T>, x: Spot<T>) {
    exists i: nat, j: nat | i < j :: Walk(nx, x, i) == Walk(nx, x, j) && Walk(nx, x, i) != End
  }

  /** The walk ends after exactly `n` nodes. */
  ghost predicate EndsAfter<T>(nx: map<T, T>, x: Spot<T>, n: nat) {
    && Walk(nx, x, n) == End
    && forall k: nat | k < n :: Walk(nx, x, k) != End
  }

  lemma {:induction false} StaysEnded<T>(nx: map<T, T>, x: Spot<T>, k: nat, m: nat)
    requires k <= m && Walk(nx, x, k) == End
    ensures Walk(nx, x, m) == End
    decreases m - k
  {
    if k < m {
      StaysEnded(nx, x, k + 1, m);
    }
  }

  /** Two equal spots are followed by equal spots. */
  lemma {:induction false} Shift<T>(nx: map<T, T>, x: Spot<T>, a: nat, b: nat, d: nat)
    requires Walk(nx, x, a) == Walk(nx, x, b)
    ensures Walk(nx, x, a + d) == Walk(nx, x, b + d)
  {
    if d > 0 {
      Shift(nx, x, a, b, d - 1);
    }
  }

  /** On a cycle of length `c`, whole laps make no difference. */
  lemma {:induction false} Laps<T>(nx: map<T, T>, x: Spot<T>, a: nat, c: nat, k: nat, laps: nat)
    requires a <= k && Walk(nx, x, a) == Walk(nx, x, a + c)
    ensures Walk(nx, x, k) == Walk(nx, x, k + laps * c)
    decreases laps
  {
    if laps > 0 {
      Laps(nx, x, a, c, k, laps - 1);
      var d := k - a + (laps - 1) * c;
      Shift(nx, x, a, a + c, d);
      assert a + d == k + (laps - 1) * c;
      assert a + c + d == k + laps * c;
    } else {
      assert laps * c == 0;
    }
  }

  lemma AtLeast(k: nat, c: nat)
    requires c > 0
    ensures k * c >= k
  {
    assert k * (c - 1) >= 0;
  }

  lemma CyclicNeverEnds<T>(nx: map<T, T>, x: Spot<T>, k: nat)
    requires Cyclic(nx, x)
    ensures Walk(nx, x, k) != End
  {
    var a: nat, b: nat :| a < b && Walk(nx, x, a) == Walk(nx, x, b) && Walk(nx, x, a) != End;
    var c := b - a;
    Laps(nx, x, a, c, a, k);
    AtLeast(k, c);
    if Walk(nx, x, k) == End {
      StaysEnded(nx, x, k, a + k * c);
    }
  }

  // ------------------------------------------------------------- finite heaps

  ghost function Nodes<T>(nx: map<T, T>, x: Spot<T>): set<T> {
    nx.Keys + nx.Values + (if x.On? then {x.node} else {})
  }

  lemma {:induction false} WalkInNodes<T>(nx: map<T, T>, x: Spot<T>, k: nat)
    ensures Walk(nx, x, k).On? ==> Walk(nx, x, k).node in Nodes(nx, x)
  {
    if k > 0 {
      WalkInNodes(nx, x, k - 1);
    }
  }

  /** Looking for an end or a repetition: `at` says when each node was visited. */
  lemma {:induction false} Search<T>(nx: map<T, T>, x: Spot<T>, k: nat, at: map<T, nat>)
    requires at.Keys <= Nodes(nx, x)
    requires forall n | n in at :: at[n] < k && Walk(nx, x, at[n]) == On(n)
    requires forall i: nat | i < k :: Walk(nx, x, i) != End
    ensures Cyclic(nx, x) || exists m: nat :: EndsAfter(nx, x, m)
    decreases Nodes(nx, x) - at.Keys
  {
    if Walk(nx, x, k) == End {
      assert EndsAfter(nx, x, k);
    } else {
      var n := Walk(nx, x, k).node;
      WalkInNodes(nx, x, k);
      if n in at {
        assert Walk(nx, x, at[n]) == Walk(nx, x, k);
      } else {
        assert at[n := k].Keys == at.Keys + {n};
        Search(nx, x, k + 1, at[n := k]);
      }
    }
  }

  /** In a finite heap a walk is cyclic or it ends. */
  lemma CyclicOrEnds<T>(nx: map<T, T>, x: Spot<T>)
    ensures Cyclic(nx, x) || exists m: nat :: EndsAfter(nx, x, m)
  {
    Search(nx, x, 0, map[]);
  }

  /** A walk that ends does so once, and is not cyclic. */
  lemma EndsOnce<T>(nx: map<T, T>, x: Spot<T>)
    ensures forall m: nat, n: nat | EndsAfter(nx, x, m) && EndsAfter(nx, x, n) :: m == n
    ensures forall n: nat | EndsAfter(nx, x, n) :: !Cyclic(nx, x)
  {
    forall n: nat | EndsAfter(nx, x, n) ensures !Cyclic(nx, x) {
      if Cyclic(nx, x) {
        CyclicNeverEnds(nx, x, n);
      }
    }
  }

  // ------------------------------------------------- the slow and the fast walker

  /** If the walk is cyclic, the walkers meet after `Meeting` steps of the slow one at the
      latest. */
  lemma WalkersMeet<T>(nx: map<T, T>, x: Spot<T>) returns (m: nat)
    requires Cyclic(nx, x)
    ensures m > 0 && Walk(nx, x, m) == Walk(nx, x, 2 * m)
  {
    var a: nat, b: nat :| a < b && Walk(nx, x, a) == Walk(nx, x, b) && Walk(nx, x, a) != End;
    var c := b - a;
    m := (a + 1) * c;
    AtLeast(a + 1, c);
    Laps(nx, x, a, c, m, a + 1);
  }

  /** An upper bound on the number of steps the slow walker takes. */
  lemma Bound<T>(nx: map<T, T>, x: Spot<T>) returns (m: nat)
    ensures m > 0 && (Walk(nx, x, m) == End || Walk(nx, x, m) == Walk(nx, x, 2 * m))
  {
    if Cyclic(nx, x) {
      m := WalkersMeet(nx, x);
    } else {
      CyclicOrEnds(nx, x);
      var k: nat :| EndsAfter(nx, x, k);
      m := k + 1;
      StaysEnded(nx, x, k, m);
    }
  }

  /** What the walkers' position after at least one step says about the walk. */
  lemma Verdict<T>(nx: map<T, T>, x: Spot<T>, i: nat)
    requires i > 0 && (Walk(nx, x, i) == End || Walk(nx, x, i) == Walk(nx, x, 2 * i))
    ensures Walk(nx, x, i) != End <==> Cyclic(nx, x)
  {
    if Walk(nx, x, i) == End && Cyclic(nx, x) {
      CyclicNeverEnds(nx, x, i);
    }
    if Walk(nx, x, i) != End {
      assert Walk(nx, x, i) == Walk(nx, x, i + i);
    }
  }
}
