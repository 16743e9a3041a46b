/** What is true of values and nodes in every schedule, stray links included: nothing is lost
    and nothing comes out twice. */
module Values {
  import opened Words
  import opened Machine
  import opened MachineInvariant
  import opened MachineOrder
  import opened Fifo
  import F = Freelist
  import Q = Queue
  import I = QueueInvariant

  // ------------------------------------------------------------- the chain in memory

  /** Along hanging nodes this decreases. */
  ghost function Rank(q: Q.Queue, place: map<nat, Place>, p: nat): nat {
    if p in place && place[p].Live? then q.first + 1 else Q.Stamp(q.left, p)
  }

  /** The nodes that hang behind `p`, one behind the other. */
  ghost predicate IsTail(q: Q.Queue, place: map<nat, Place>, p: nat, c: seq<nat>) {
    && (forall x | x in c :: x in place && place[x].Behind? && Q.Stamp(q.left, x) < Rank(q, place, p))
    && (forall i, j | 0 <= i < j < |c| :: c[i] != c[j])
    && (forall x | x in place && place[x].Behind? && (place[x].parent == p || place[x].parent in c) :: x in c)
  }

  /** What hanging nodes are like. */
  lemma HangingNode(q: Q.Queue, place: map<nat, Place>, x: nat)
    requires Q.Valid(q, place) && x in place && place[x].Behind?
    ensures var p := place[x].parent;
      && p in place && p in q.heap && q.heap[p].next.ptr == x && x in q.heap && Q.Bears(q.heap, place, x)
      && Rank(q, place, x) < Rank(q, place, p) <= q.first + 1
      && (place[p].Behind? || place[p].Held? || p == q.nodes[|q.nodes| - 1])
  {
    I.LiveNodes(q, place);
    assert forall e | e in place && place[e].Live? :: place[e].at < |q.nodes| && q.nodes[place[e].at] == e;
    hide Q.Chained, Q.Loaded, Q.Placed, Q.Retired, Q.Tagged, Q.TaggedBehind, Q.TagsUsed;
  }

  lemma {:induction false} TailFrom(q: Q.Queue, place: map<nat, Place>, p: nat) returns (c: seq<nat>)
    requires Q.Valid(q, place) && p in place && Q.Bears(q.heap, place, p) && (place[p].Behind? || place[p].Live?)
    ensures IsChain(q.heap, q.heap[p].next.ptr, c) && IsTail(q, place, p, c)
    decreases Rank(q, place, p)
  {
    hide Q.Valid, Rank;
    if q.heap[p].next.ptr == NULL {
      c := [];
      forall x | x in place && place[x].Behind? ensures place[x].parent != p {
        HangingNode(q, place, x);
        NullNotNode(q, place, x);
      }
    } else {
      var x := q.heap[p].next.ptr;
      HangingNode(q, place, x);
      NullNotNode(q, place, x);
      var rest := TailFrom(q, place, x);
      c := [x] + rest;
      TailGrows(q, place, p, x, rest);
    }
  }

  lemma NullNotNode(q: Q.Queue, place: map<nat, Place>, x: nat)
    requires Q.Valid(q, place) && x in place
    ensures x != NULL
  {
  }

  lemma TailGrows(q: Q.Queue, place: map<nat, Place>, p: nat, x: nat, rest: seq<nat>)
    requires Q.Valid(q, place) && IsTail(q, place, x, rest)
    requires x in place && place[x] == Behind(p)
    ensures IsTail(q, place, p, [x] + rest)
  {
    HangingNode(q, place, x);
    assert Rank(q, place, x) == Q.Stamp(q.left, x);
    forall y | y in place && place[y].Behind? && place[y].parent == p ensures y == x {
      HangingNode(q, place, y);
    }
    hide Q.Valid, Q.Bears;
    var c := [x] + rest;
    forall i, j | 0 <= i < j < |c| ensures c[i] != c[j] {
      if i == 0 {
        assert c[j] == rest[j - 1];
      } else {
        assert c[i] == rest[i - 1] && c[j] == rest[j - 1];
      }
    }
  }

  /** The whole chain from `deq`: the nodes the history has, then those that hang behind
      the last of them. */
  ghost predicate IsWhole(q: Q.Queue, place: map<nat, Place>, tail: seq<nat>) {
    && q.first < |q.nodes|
    && IsTail(q, place, q.nodes[|q.nodes| - 1], tail)
    && IsChain(q.heap, q.deq.ptr, q.nodes[q.first..] + tail)
  }

  lemma {:induction false} ChainJoin(q: Q.Queue, i: nat, tail: seq<nat>)
    requires q.first <= i < |q.nodes| && Q.Allocated(q.heap, q.nodes) && Q.Chained(q.heap, q.nodes, q.first)
    requires IsChain(q.heap, q.heap[q.nodes[|q.nodes| - 1]].next.ptr, tail)
    ensures IsChain(q.heap, q.nodes[i], q.nodes[i..] + tail)
    decreases |q.nodes| - i
  {
    var c := q.nodes[i..] + tail;
    if i < |q.nodes| - 1 {
      ChainJoin(q, i + 1, tail);
      assert Q.NextIs(q.heap, q.nodes, i);
      assert c[1..] == q.nodes[i + 1..] + tail;
    } else {
      assert c[1..] == tail;
    }
  }

  lemma WholeChain(q: Q.Queue, place: map<nat, Place>) returns (tail: seq<nat>)
    requires Q.Valid(q, place)
    ensures IsWhole(q, place, tail)
  {
    I.LiveNodes(q, place);
    I.EndsOfValid(q, place);
    assert Q.Ended(q.heap, place, q.nodes);
    tail := TailFrom(q, place, q.nodes[|q.nodes| - 1]);
    ChainJoin(q, q.first, tail);
    hide Q.Valid, IsTail, IsChain;
  }

  lemma WholeDistinct(q: Q.Queue, place: map<nat, Place>, tail: seq<nat>)
    requires Q.Valid(q, place) && IsWhole(q, place, tail)
    ensures var c := q.nodes[q.first..] + tail; forall j, k | 0 <= j < k < |c| :: c[j] != c[k]
  {
    I.LiveNodes(q, place);
    hide Q.Valid, IsChain, Rank;
    var live := q.nodes[q.first..];
    assert forall j | 0 <= j < |live| :: live[j] in place && place[live[j]] == Live(q.first + j);
    assert forall j | 0 <= j < |tail| :: tail[j] in place && place[tail[j]].Behind?;
    assert forall j, k | 0 <= j < k < |tail| :: tail[j] != tail[k];
    hide IsTail;
    JoinDistinct(live, tail);
  }

  lemma JoinDistinct(a: seq<nat>, b: seq<nat>)
    requires forall j, k | 0 <= j < k < |a| :: a[j] != a[k]
    requires forall j, k | 0 <= j < k < |b| :: b[j] != b[k]
    requires forall j, k | 0 <= j < |a| && 0 <= k < |b| :: a[j] != b[k]
    ensures forall j, k | 0 <= j < k < |a + b| :: (a + b)[j] != (a + b)[k]
  {
  }

  /** The chain from `deq` is acyclic, ends in NULL and contains `enq`. */
  lemma WholeShape(q: Q.Queue, place: map<nat, Place>) returns (c: seq<nat>, at: nat)
    requires Q.Valid(q, place)
    ensures IsChain(q.heap, q.deq.ptr, c) && (forall j, k | 0 <= j < k < |c| :: c[j] != c[k])
    ensures at < |c| && c[at] == q.enq.ptr
  {
    I.EndsOfValid(q, place);
    hide Q.Valid, IsChain, IsTail;
    var tail := WholeChain(q, place);
    WholeDistinct(q, place, tail);
    c, at := q.nodes[q.first..] + tail, q.last - q.first;
  }

  /** The same in every state of every schedule. */
  lemma ChainShape(s: System, n: nat, labels: seq<Label>, i: nat) returns (c: seq<nat>, at: nat)
    requires Init(s, n) && i <= |labels|
    ensures var q := Before(s, labels, i).q;
      && IsChain(q.heap, q.deq.ptr, c) && (forall j, k | 0 <= j < k < |c| :: c[j] != c[k])
      && at < |c| && c[at] == q.enq.ptr
  {
    InitInv(s, n);
    RunKeepsInv(s, labels, i);
    var s' := Before(s, labels, i);
    hide Init, Before, Run, Q.Valid, F.Valid, ThreadInv, HeldInv, IsChain;
    c, at := WholeShape(s'.q, s'.fl.place);
  }

  // --------------------------------------------------------------- values come out once

  /** `f` says which link swap each value that came out belongs to: none comes out twice. */
  ghost predicate Selects(f: seq<nat>, out: seq<Value>, linked: seq<Value>) {
    && |f| == |out|
    && (forall j | 0 <= j < |f| :: f[j] < |linked| && linked[f[j]] == out[j])
    && (forall j, k | 0 <= j < k < |f| :: f[j] != f[k])
  }

  lemma TagsSelect(q: Q.Queue, place: map<nat, Place>)
    requires Q.Valid(q, place)
    ensures Selects(q.tags[1..q.first + 1], q.out, q.linked)
  {
    I.EndsOfValid(q, place);
    assert q.out == q.values[1..q.first + 1] && Q.Tagged(q.values, q.tags, q.linked);
    hide Q.Valid;
    var f := q.tags[1..q.first + 1];
    assert forall j | 0 <= j < |f| :: f[j] == q.tags[j + 1] && q.out[j] == q.values[j + 1];
  }

  /** Following `next` from `r` leads to `x`. */
  ghost predicate LeadsTo(heap: map<nat, Q.Node>, r: nat, x: nat, k: nat)
    decreases k
  {
    if k == 0 then r == x else r in heap && LeadsTo(heap, heap[r].next.ptr, x, k - 1)
  }

  lemma {:induction false} LeadsOn(heap: map<nat, Q.Node>, r: nat, p: nat, k: nat)
    requires LeadsTo(heap, r, p, k) && p in heap
    ensures LeadsTo(heap, r, heap[p].next.ptr, k + 1)
    decreases k
  {
    if k > 0 {
      LeadsOn(heap, heap[r].next.ptr, p, k - 1);
    }
  }

  /** Every hanging node that is not in the tail of the chain is reached by `next` from an
      element that some thread holds. */
  lemma {:induction false} RootOf(q: Q.Queue, place: map<nat, Place>, tail: seq<nat>, x: nat) returns (r: nat, k: nat)
    requires Q.Valid(q, place) && IsWhole(q, place, tail) && x in place && place[x].Behind? && x !in tail
    ensures k > 0 && LeadsTo(q.heap, r, x, k)
    ensures r in place && place[r].Held? && exists y :: y in place && place[y] == Behind(r)
    decreases q.first + 1 - Rank(q, place, x)
  {
    HangingNode(q, place, x);
    var p := place[x].parent;
    hide Q.Valid, Rank, IsChain;
    if place[p].Behind? {
      r, k := RootOf(q, place, tail, p);
      LeadsOn(q.heap, r, p, k);
      k := k + 1;
    } else {
      r, k := p, 1;
      assert LeadsTo(q.heap, x, x, 0);
      assert place[x] == Behind(r);
    }
  }

  // ------------------------------------------------------------------ nothing is lost

  ghost function Without<T>(s: seq<T>, p: nat): (r: seq<T>)
    requires p < |s|
    ensures |r| == |s| - 1 && forall i | 0 <= i < |r| :: r[i] == s[if i < p then i else i + 1]
  {
    s[..p] + s[p + 1..]
  }

  lemma WithoutOne<T>(s: seq<T>, p: nat)
    requires p < |s|
    ensures multiset(s) == multiset(Without(s, p)) + multiset{s[p]}
  {
    assert s == s[..p] + [s[p]] + s[p + 1..];
  }

  /** Picking every entry of `linked` once, in any order, gives the same values. */
  lemma {:induction false} Permutes(picks: seq<nat>, values: seq<Value>, linked: seq<Value>)
    requires |picks| == |values|
    requires forall i | 0 <= i < |picks| :: picks[i] < |linked| && values[i] == linked[picks[i]]
    requires forall i, j | 0 <= i < j < |picks| :: picks[i] != picks[j]
    requires forall k: nat | k < |linked| :: k in picks
    ensures multiset(values) == multiset(linked)
    decreases |linked|
  {
    if linked == [] {
      assert values == [];
    } else {
      var n := |linked| - 1;
      assert n in picks;
      var p :| 0 <= p < |picks| && picks[p] == n;
      forall k: nat | k < n ensures k in Without(picks, p) {
        assert k in picks;
        var i :| 0 <= i < |picks| && picks[i] == k;
        assert Without(picks, p)[if i < p then i else i - 1] == k;
      }
      WithoutOne(values, p);
      WithoutOne(linked, n);
      assert Without(linked, n) == linked[..n];
      hide Without;
      Permutes(Without(picks, p), Without(values, p), linked[..n]);
    }
  }

  lemma {:induction false} Enumerate(b: set<nat>) returns (s: seq<nat>)
    ensures forall x :: x in s <==> x in b
    ensures forall i, j | 0 <= i < j < |s| :: s[i] != s[j]
  {
    if b == {} {
      s := [];
    } else {
      var x :| x in b;
      var r := Enumerate(b - {x});
      s := [x] + r;
    }
  }

  ghost function TagsOf(tag: map<nat, nat>, b: seq<nat>): (r: seq<nat>)
    ensures |r| == |b| && forall i | 0 <= i < |b| :: r[i] == Q.Stamp(tag, b[i])
  {
    seq(|b|, i requires 0 <= i < |b| => Q.Stamp(tag, b[i]))
  }

  lemma {:induction false} DataAt(heap: map<nat, Q.Node>, c: seq<nat>)
    ensures |Data(heap, c)| == |c| && forall i | 0 <= i < |c| :: Data(heap, c)[i] == Q.At(heap, c[i]).data
    decreases |c|
  {
    if c != [] {
      DataAt(heap, c[1..]);
    }
  }

  /** The hanging nodes, each once. */
  ghost predicate AreBehind(place: map<nat, Place>, b: seq<nat>) {
    && (forall x :: x in b <==> x in place && place[x].Behind?)
    && (forall i, j | 0 <= i < j < |b| :: b[i] != b[j])
  }

  lemma PicksAreTags(q: Q.Queue, place: map<nat, Place>, b: seq<nat>)
    requires Q.Valid(q, place) && AreBehind(place, b)
    ensures multiset(q.values[1..] + Data(q.heap, b)) == multiset(q.linked)
  {
    I.EndsOfValid(q, place);
    assert Q.Tagged(q.values, q.tags, q.linked) && Q.TagsUsed(place, q.tags, q.tag, |q.linked|);
    assert Q.TaggedBehind(q.heap, place, q.tags, q.tag, q.linked);
    hide Q.Valid, Q.Ends, Data;
    DataAt(q.heap, b);
    assert forall i | 0 <= i < |b| :: b[i] in b;
    var live, hung := q.tags[1..], TagsOf(q.tag, b);
    assert forall i | 0 <= i < |live| :: live[i] == q.tags[i + 1] && q.values[1..][i] == q.values[i + 1];
    JoinDistinct(live, hung);
    forall k: nat | k < |q.linked| ensures k in live + hung {
      assert Q.TagUsed(place, q.tags, q.tag, k);
      if i :| 1 <= i < |q.tags| && q.tags[i] == k {
        assert live[i - 1] == k;
      } else {
        var x :| x in place && place[x].Behind? && x in q.tag && q.tag[x] == k;
        var i :| 0 <= i < |b| && b[i] == x;
        assert hung[i] == k;
      }
    }
    hide Q.Tagged, Q.TagsUsed, Q.TaggedBehind, AreBehind;
    Permutes(live + hung, q.values[1..] + Data(q.heap, b), q.linked);
  }

  lemma OutAndLive(q: Q.Queue, place: map<nat, Place>)
    requires Q.Valid(q, place)
    ensures q.first < |q.nodes| && q.out + Data(q.heap, q.nodes[q.first + 1..]) == q.values[1..]
  {
    I.EndsOfValid(q, place);
    assert Q.Loaded(q.heap, q.nodes, q.values, q.first) && q.out == q.values[1..q.first + 1];
    hide Q.Valid;
    DataSuffix(q, q.first + 1);
    assert q.values[1..] == q.values[1..q.first + 1] + q.values[q.first + 1..];
  }

  lemma {:induction false} DataJoin(heap: map<nat, Q.Node>, a: seq<nat>, b: seq<nat>)
    ensures Data(heap, a + b) == Data(heap, a) + Data(heap, b)
  {
    if a == [] {
      assert a + b == b;
    } else {
      DataJoin(heap, a[1..], b);
      assert (a + b)[1..] == a[1..] + b;
    }
  }

  /** The chain in memory, the values that came out and those of the other hanging nodes are
      together the values linked, each once. */
  lemma Together(q: Q.Queue, place: map<nat, Place>, tail: seq<nat>, b: seq<nat>)
    requires Q.Valid(q, place) && IsWhole(q, place, tail) && AreBehind(place, tail + b)
    ensures var c := q.nodes[q.first..] + tail;
      multiset(q.out + Data(q.heap, c[1..]) + Data(q.heap, b)) == multiset(q.linked)
  {
    PicksAreTags(q, place, tail + b);
    OutAndLive(q, place);
    hide Q.Valid, IsWhole, AreBehind, Data;
    var live := q.nodes[q.first + 1..];
    RestOfChain(q.nodes, q.first, tail);
    DataJoin(q.heap, live, tail);
    DataJoin(q.heap, tail, b);
    Regroup(q.out, Data(q.heap, live), Data(q.heap, tail), Data(q.heap, b), q.values[1..], Data(q.heap, tail + b));
  }

  lemma RestOfChain(nodes: seq<nat>, first: nat, tail: seq<nat>)
    requires first < |nodes|
    ensures (nodes[first..] + tail)[1..] == nodes[first + 1..] + tail
  {
  }

  lemma Regroup(a: seq<Value>, b: seq<Value>, c: seq<Value>, d: seq<Value>, ab: seq<Value>, cd: seq<Value>)
    requires ab == a + b && cd == c + d
    ensures a + (b + c) + d == ab + cd
  {
  }

  /** In the middle of an enqueue, after nulling the next pointer of its element. */
  predicate Preparing(pc: Q.Pc) {
    pc in {Q.InitNextDraw, Q.InitNextCtr, Q.InitFe, Q.InitData, Q.EnqPtr, Q.EnqCtr, Q.EnqNextPtr,
           Q.EnqNextCtr, Q.EnqCheckPtr, Q.EnqCheckCtr, Q.EnqLink, Q.EnqHelp}
  }

  lemma BearerPrepares(fl: F.Freelist, q: Q.Queue, th: Thread, u: Tid, r: nat, y: nat)
    requires ThreadInv(fl, q, th, u) && Holds(th) && Element(th) == r && y in fl.place && fl.place[y] == Behind(r)
    ensures Preparing(th.q.pc) && th.q.elem == r
  {
    hide Q.Knows, F.Knows, Nested, Q.Bears;
  }

  /** The node is reached by `next` from the element of a thread in the middle of an enqueue. */
  ghost predicate Waits(s: System, x: nat) {
    exists u, k: nat :: u in s.threads && Preparing(s.threads[u].q.pc) && k > 0
                         && LeadsTo(s.q.heap, s.threads[u].q.elem, x, k)
  }

  lemma HangingWaits(s: System, tail: seq<nat>, x: nat)
    requires Inv(s) && IsWhole(s.q, s.fl.place, tail) && x in s.fl.place && s.fl.place[x].Behind? && x !in tail
    ensures Waits(s, x)
  {
    hide F.Valid, Q.Valid, ThreadInv, Holds, Element, IsWhole, LeadsTo;
    var r, k := RootOf(s.q, s.fl.place, tail, x);
    var y :| y in s.fl.place && s.fl.place[y] == Behind(r);
    var u := s.fl.place[r].owner;
    BearerPrepares(s.fl, s.q, s.threads[u], u, r, y);
  }

  /** In every state of every schedule, however many stray links there were: the values that
      came out, those in the chain from `deq`, and those of some nodes `b` that wait behind
      the element of an unfinished enqueue are together the values of all link swaps, each
      exactly once. */
  lemma NothingLostNothingTwice(s: System, n: nat, labels: seq<Label>, i: nat) returns (c: seq<nat>, b: seq<nat>)
    requires Init(s, n) && i <= |labels|
    ensures var q := Before(s, labels, i).q;
      && c != [] && IsChain(q.heap, q.deq.ptr, c)
      && multiset(q.out + Data(q.heap, c[1..]) + Data(q.heap, b)) == multiset(q.linked)
    ensures forall x | x in b :: Waits(Before(s, labels, i), x)
  {
    InitInv(s, n);
    RunKeepsInv(s, labels, i);
    var s' := Before(s, labels, i);
    hide Init, Before, Run;
    c, b := StateKeeps(s');
  }

  lemma TailAndRest(q: Q.Queue, place: map<nat, Place>, tail: seq<nat>, b: seq<nat>)
    requires IsWhole(q, place, tail)
    requires forall x :: x in b <==> x in place && place[x].Behind? && x !in tail
    requires forall i, j | 0 <= i < j < |b| :: b[i] != b[j]
    ensures AreBehind(place, tail + b)
  {
    hide IsChain, Rank;
    assert forall j, k | 0 <= j < |tail| && 0 <= k < |b| :: tail[j] in tail && b[k] in b;
    JoinDistinct(tail, b);
  }

  /** The live part of the history and the tail are the nodes of the chain; with the other
      hanging nodes they are all that is placed in the chain or behind something. */
  lemma AllNodes(q: Q.Queue, place: map<nat, Place>, tail: seq<nat>, b: seq<nat>)
    requires Q.Valid(q, place) && IsWhole(q, place, tail) && AreBehind(place, tail + b)
    ensures var all := q.nodes[q.first..] + tail + b;
      && (forall x :: x in all <==> x in place && (place[x].Live? || place[x].Behind?))
      && (forall j, k | 0 <= j < k < |all| :: all[j] != all[k])
  {
    hide *;
    LiveInNodes(q, place);
    Join(place, q.nodes[q.first..], tail + b, q.first);
    Associates(q.nodes[q.first..], tail, b);
  }

  lemma Associates(a: seq<nat>, b: seq<nat>, c: seq<nat>)
    ensures (a + b) + c == a + (b + c)
  {
  }

  lemma Join(place: map<nat, Place>, live: seq<nat>, rest: seq<nat>, first: nat)
    requires AreBehind(place, rest)
    requires forall j | 0 <= j < |live| :: live[j] in place && place[live[j]] == Live(first + j)
    requires forall x | x in place && place[x].Live? :: x in live
    ensures forall x :: x in live + rest <==> x in place && (place[x].Live? || place[x].Behind?)
    ensures forall j, k | 0 <= j < k < |live + rest| :: (live + rest)[j] != (live + rest)[k]
  {
    assert forall j | 0 <= j < |rest| :: rest[j] in rest;
    JoinDistinct(live, rest);
  }

  lemma LiveInNodes(q: Q.Queue, place: map<nat, Place>)
    requires Q.Valid(q, place)
    ensures q.first < |q.nodes| && forall x | x in place && place[x].Live? :: x in q.nodes[q.first..]
    ensures forall j | 0 <= j < |q.nodes| - q.first ::
      var x := q.nodes[q.first..][j]; x in place && place[x] == Live(q.first + j)
  {
    I.LiveNodes(q, place);
    assert Q.Placed(place, q.nodes, q.first);
    hide Q.Valid;
    forall x | x in place && place[x].Live? ensures x in q.nodes[q.first..] {
      assert q.nodes[q.first..][place[x].at - q.first] == x;
    }
  }

  lemma StateKeeps(s: System) returns (c: seq<nat>, b: seq<nat>)
    requires Inv(s)
    ensures forall x :: x in c + b <==> x in s.fl.place && (s.fl.place[x].Live? || s.fl.place[x].Behind?)
    ensures forall j, k | 0 <= j < k < |c + b| :: (c + b)[j] != (c + b)[k]
    ensures c != [] && IsChain(s.q.heap, s.q.deq.ptr, c)
    ensures multiset(s.q.out + Data(s.q.heap, c[1..]) + Data(s.q.heap, b)) == multiset(s.q.linked)
    ensures forall x | x in b :: Waits(s, x)
  {
    var q, place := s.q, s.fl.place;
    assert Q.Valid(q, place);
    hide Q.Valid, F.Valid, ThreadInv, HeldInv, Data, Waits, IsChain;
    var tail := WholeChain(q, place);
    b := Enumerate(set x | x in place && place[x].Behind? && x !in tail);
    c := q.nodes[q.first..] + tail;
    TailAndRest(q, place, tail, b);
    AllNodes(q, place, tail, b);
    hide AreBehind;
    Together(q, place, tail, b);
    forall x | x in b ensures Waits(s, x) {
      HangingWaits(s, tail, x);
    }
    assert IsChain(q.heap, q.deq.ptr, c);
  }

  lemma NobodyWaits(s: System, x: nat)
    requires forall u | u in s.threads :: !Preparing(s.threads[u].q.pc)
    ensures !Waits(s, x)
  {
  }

  /** So whenever no enqueue is in progress, the values that came out and those in the chain
      are together the values enqueued. */
  lemma SettledIsWhole(s: System, n: nat, labels: seq<Label>, i: nat) returns (c: seq<nat>)
    requires Init(s, n) && i <= |labels|
    requires var s' := Before(s, labels, i); forall u | u in s'.threads :: !Preparing(s'.threads[u].q.pc)
    ensures var q := Before(s, labels, i).q;
      && c != [] && IsChain(q.heap, q.deq.ptr, c)
      && multiset(q.out + Data(q.heap, c[1..])) == multiset(q.linked)
  {
    var b;
    c, b := NothingLostNothingTwice(s, n, labels, i);
    hide Init, Before, Run, IsChain, Preparing, LeadsTo;
    hide Waits;
    if b != [] {
      NobodyWaits(Before(s, labels, i), b[0]);
    }
    var q := Before(s, labels, i).q;
    assert q.out + Data(q.heap, c[1..]) + Data(q.heap, b) == q.out + Data(q.heap, c[1..]);
  }

  /** No link swap's value comes out twice. */
  lemma NothingTwice(s: System, n: nat, labels: seq<Label>, i: nat) returns (f: seq<nat>)
    requires Init(s, n) && i <= |labels|
    ensures Selects(f, Before(s, labels, i).q.out, Before(s, labels, i).q.linked)
  {
    InitInv(s, n);
    RunKeepsInv(s, labels, i);
    var s' := Before(s, labels, i);
    hide Init, Before, Run, Q.Valid, F.Valid, ThreadInv, HeldInv, Selects;
    I.EndsOfValid(s'.q, s'.fl.place);
    TagsSelect(s'.q, s'.fl.place);
    f := s'.q.tags[1..s'.q.first + 1];
  }
}
