/** Every step of a queue call keeps the queue's invariant, whatever other threads do and
    whatever its link swap hits. */
module QueueInvariant {
  import opened Words
  import opened Queue

  lemma ChainedTail(heap: map<nat, Node>, nodes: seq<nat>, values: seq<Value>, first: nat)
    requires Chained(heap, nodes, first) && Loaded(heap, nodes, values, first)
    ensures Chained(heap, nodes, first + 1) && Loaded(heap, nodes, values, first + 1)
  {
  }

  // ------------------------------------------------------------- re-initialisation

  /** A call may write the element it holds, as long as it does not drop what hangs behind. */
  ghost predicate MayWrite(q: Queue, place: map<nat, Place>, e: nat, n: Node) {
    && e in q.heap && e in place && place[e].Held?
    && (n.next.ptr == q.heap[e].next.ptr || Clear(q, place, e))
  }

  lemma WriteKeepsChain(q: Queue, place: map<nat, Place>, e: nat, n: Node)
    requires Valid(q, place) && MayWrite(q, place, e, n)
    ensures var heap' := q.heap[e := n];
      Chained(heap', q.nodes, q.first) && Loaded(heap', q.nodes, q.values, q.first) && Retired(heap', q.nodes, place)
  {
    hide Ended, Hung, Aged, Tagged, TaggedBehind, TagsUsed, Clear;
    var heap' := q.heap[e := n];
    forall i | q.first <= i < |q.nodes| ensures q.nodes[i] != e {
      assert place[q.nodes[i]] == Live(i);
    }
    forall i | q.first <= i < |q.nodes| - 1 ensures NextIs(heap', q.nodes, i) {
      assert NextIs(q.heap, q.nodes, i);
    }
  }

  lemma WriteKeepsHung(q: Queue, place: map<nat, Place>, e: nat, n: Node)
    requires Hung(q.heap, place, |q.nodes|) && MayWrite(q, place, e, n)
    ensures Hung(q.heap[e := n], place, |q.nodes|)
  {
  }

  lemma WriteKeepsEnded(q: Queue, place: map<nat, Place>, e: nat, n: Node)
    requires Ended(q.heap, place, q.nodes) && MayWrite(q, place, e, n) && IsLive(place, q.nodes[|q.nodes| - 1])
    ensures Ended(q.heap[e := n], place, q.nodes)
  {
    hide Clear;
  }

  lemma WriteKeepsBehind(q: Queue, place: map<nat, Place>, e: nat, n: Node)
    requires TaggedBehind(q.heap, place, q.tags, q.tag, q.linked) && MayWrite(q, place, e, n)
    ensures TaggedBehind(q.heap[e := n], place, q.tags, q.tag, q.linked)
  {
    hide Clear;
  }

  lemma WriteKeepsValid(q: Queue, place: map<nat, Place>, e: nat, n: Node)
    requires Valid(q, place) && MayWrite(q, place, e, n)
    ensures Valid(SetNode(q, e, n), place)
  {
    hide Chained, Loaded, Retired, Hung, Ended, Placed, Aged, Tagged, TaggedBehind, TagsUsed, Clear;
    LiveNodes(q, place);
    WriteKeepsChain(q, place, e, n);
    WriteKeepsHung(q, place, e, n);
    WriteKeepsEnded(q, place, e, n);
    WriteKeepsBehind(q, place, e, n);
  }

  // ------------------------------------------------------------------------- links

  /** A link swap that hits a live node hits the last one. */
  lemma LiveIsLast(q: Queue, place: map<nat, Place>, l: Local)
    requires Valid(q, place) && LinkFires(q, l) && IsLive(place, l.enq.ptr)
    ensures l.enq.ptr == q.nodes[|q.nodes| - 1] && place[l.enq.ptr] == Live(|q.nodes| - 1)
    ensures l.enq.ptr in q.heap
  {
    hide Loaded, Retired, Hung, Ended, Aged, Tagged, TaggedBehind, TagsUsed;
    var i := place[l.enq.ptr].at;
    assert i < |q.nodes| - 1 ==> NextIs(q.heap, q.nodes, i);
  }

  /** What holds when the link swap of thread `t` is about to succeed. */
  ghost predicate Linking(q: Queue, place: map<nat, Place>, l: Local, t: Tid) {
    && Valid(q, place) && LinkFires(q, l) && EnqKnows(q, l) && Owns(q, place, l, t)
  }

  /** What a link swap on the last node writes. */
  lemma LinkIs(q: Queue, place: map<nat, Place>, l: Local, t: Tid)
    requires Linking(q, place, l, t) && IsLive(place, l.enq.ptr)
    ensures var q', n, x := Link(q, l, true), |q.nodes|, l.enq.ptr;
      && n > 0 && x == q.nodes[n - 1] && x in q.heap && x in place && place[x] == Live(n - 1) && x != l.elem
      && q' == q.(heap := q.heap[x := q.heap[x].(next := Pair(l.elem, Bump(l.next.ctr)))],
                  nodes := q.nodes + [l.elem], values := q'.values, draws := q'.draws, tags := q'.tags,
                  linked := q'.linked, commits := q'.commits, tag := q'.tag)
      && q'.values == q.values + [l.value] && |q'.draws| == |q.draws| + 1 && |q'.tags| == |q.tags| + 1
    ensures q.heap[l.enq.ptr].next.ptr == NULL && NULL !in q.heap
    ensures l.elem in q.heap && l.elem in place && place[l.elem].Held? && Bears(q.heap, place, l.elem)
    ensures q.heap[l.elem].fe == l.elem && q.heap[l.elem].data == l.value
    ensures q.first < |q.nodes| && forall i | q.first <= i < |q.nodes| - 1 :: q.nodes[i] != l.enq.ptr
    ensures forall y | y in place && place[y] == Live(|q.nodes| - 1) :: y == l.enq.ptr
  {
    LiveIsLast(q, place, l);
    LiveNodes(q, place);
    hide Chained, Loaded, Retired, Aged, Hung, Ended, Tagged, TaggedBehind, TagsUsed, EnqKnows, Bears;
  }

  /** The node `e` now follows the last node, `x`. */
  lemma JoinKeepsChained(heap: map<nat, Node>, nodes: seq<nat>, first: nat, x: nat, e: nat, c: nat)
    requires Chained(heap, nodes, first) && x in heap && first < |nodes| && nodes[|nodes| - 1] == x
    requires forall i | first <= i < |nodes| - 1 :: nodes[i] != x
    ensures Chained(heap[x := heap[x].(next := Pair(e, c))], nodes + [e], first)
  {
    var heap', nodes' := heap[x := heap[x].(next := Pair(e, c))], nodes + [e];
    forall i | first <= i < |nodes| ensures NextIs(heap', nodes', i) {
      if i < |nodes| - 1 {
        assert NextIs(heap, nodes, i);
      }
    }
  }

  lemma JoinKeepsLoaded(heap: map<nat, Node>, nodes: seq<nat>, values: seq<Value>, first: nat, x: nat, e: nat, p: Pair)
    requires Loaded(heap, nodes, values, first) && x in heap && e in heap && heap[e].fe == e && x != e
    ensures Loaded(heap[x := heap[x].(next := p)], nodes + [e], values + [heap[e].data], first)
  {
  }

  lemma JoinKeepsHung(heap: map<nat, Node>, place: map<nat, Place>, n: nat, x: nat, e: nat, p: Pair)
    requires Hung(heap, place, n) && n > 0 && x in heap && x in place && place[x] == Live(n - 1)
    requires forall y | y in place && place[y] == Live(n - 1) :: y == x
    requires heap[x].next.ptr == NULL && NULL !in heap && e in heap && e in place && place[e].Held? && x != e
    ensures Hung(heap[x := heap[x].(next := p)], place[e := Live(n)], n + 1)
  {
  }

  lemma JoinKeepsEnded(heap: map<nat, Node>, place: map<nat, Place>, nodes: seq<nat>, x: nat, e: nat, p: Pair)
    requires Ended(heap, place, nodes) && x in heap && x in place && place[x].Live?
    requires e in place && place[e].Held? && x != e && Bears(heap, place, e)
    ensures Ended(heap[x := heap[x].(next := p)], place[e := Live(|nodes|)], nodes + [e])
  {
  }

  lemma JoinKeepsPlaced(place: map<nat, Place>, nodes: seq<nat>, first: nat, e: nat)
    requires Placed(place, nodes, first) && first < |nodes| && e in place && place[e].Held?
    ensures Placed(place[e := Live(|nodes|)], nodes + [e], first)
  {
    var nodes' := nodes + [e];
    assert nodes'[|nodes|] == e && forall i | 0 <= i < |nodes| :: nodes'[i] == nodes[i];
  }

  lemma JoinKeepsRetired(heap: map<nat, Node>, nodes: seq<nat>, place: map<nat, Place>, x: nat, e: nat, p: Pair)
    requires Retired(heap, nodes, place) && x in heap && x in place && place[x].Live? && x != e && e in place
    ensures Retired(heap[x := heap[x].(next := p)], nodes + [e], place[e := Live(|nodes|)])
  {
  }

  lemma JoinKeepsAged(place: map<nat, Place>, nodes: seq<nat>, first: nat, left: map<nat, nat>, e: nat)
    requires Aged(place, nodes, first, left) && first < |nodes| && e in place && place[e].Held?
    ensures Aged(place[e := Live(|nodes|)], nodes + [e], first, left)
  {
  }

  lemma LinkKeepsChain(q: Queue, place: map<nat, Place>, l: Local, t: Tid)
    requires Linking(q, place, l, t) && IsLive(place, l.enq.ptr)
    ensures var q' := Link(q, l, true);
      && Chained(q'.heap, q'.nodes, q'.first) && Loaded(q'.heap, q'.nodes, q'.values, q'.first) && Ends(q')
  {
    LinkIs(q, place, l, t);
    assert Chained(q.heap, q.nodes, q.first) && Loaded(q.heap, q.nodes, q.values, q.first) && Ends(q);
    hide Linking, Chained, Loaded, Bears, Link;
    JoinKeepsChained(q.heap, q.nodes, q.first, l.enq.ptr, l.elem, Bump(l.next.ctr));
    JoinKeepsLoaded(q.heap, q.nodes, q.values, q.first, l.enq.ptr, l.elem, Pair(l.elem, Bump(l.next.ctr)));
  }

  lemma LinkKeepsPlaces(q: Queue, place: map<nat, Place>, l: Local, t: Tid)
    requires Linking(q, place, l, t) && IsLive(place, l.enq.ptr)
    ensures var q', place' := Link(q, l, true), place[l.elem := Live(|q.nodes|)];
      && Placed(place', q'.nodes, q'.first) && Retired(q'.heap, q'.nodes, place') && Allocated(q'.heap, q'.nodes)
      && Aged(place', q'.nodes, q'.first, q'.left) && place'.Keys == q'.heap.Keys
  {
    LinkIs(q, place, l, t);
    assert Placed(place, q.nodes, q.first) && Retired(q.heap, q.nodes, place) && Allocated(q.heap, q.nodes);
    assert Aged(place, q.nodes, q.first, q.left) && place.Keys == q.heap.Keys;
    hide Linking, Placed, Retired, Aged, Bears, Link;
    JoinKeepsPlaced(place, q.nodes, q.first, l.elem);
    JoinKeepsRetired(q.heap, q.nodes, place, l.enq.ptr, l.elem, Pair(l.elem, Bump(l.next.ctr)));
    JoinKeepsAged(place, q.nodes, q.first, q.left, l.elem);
  }

  lemma LinkKeepsHung(q: Queue, place: map<nat, Place>, l: Local, t: Tid)
    requires Linking(q, place, l, t) && IsLive(place, l.enq.ptr)
    ensures var q', place' := Link(q, l, true), place[l.elem := Live(|q.nodes|)];
      Hung(q'.heap, place', |q'.nodes|) && Ended(q'.heap, place', q'.nodes)
  {
    LinkIs(q, place, l, t);
    assert Hung(q.heap, place, |q.nodes|) && Ended(q.heap, place, q.nodes);
    hide Linking, Hung, Ended, Bears, Link;
    JoinKeepsHung(q.heap, place, |q.nodes|, l.enq.ptr, l.elem, Pair(l.elem, Bump(l.next.ctr)));
    JoinKeepsEnded(q.heap, place, q.nodes, l.enq.ptr, l.elem, Pair(l.elem, Bump(l.next.ctr)));
  }

  lemma LinkKeepsTags(q: Queue, place: map<nat, Place>, l: Local, t: Tid)
    requires Linking(q, place, l, t) && IsLive(place, l.enq.ptr)
    ensures var q', place' := Link(q, l, true), place[l.elem := Live(|q.nodes|)];
      && Tagged(q'.values, q'.tags, q'.linked) && TaggedBehind(q'.heap, place', q'.tags, q'.tag, q'.linked)
      && TagsUsed(place', q'.tags, q'.tag, |q'.linked|) && q'.out == q'.values[1..q'.first + 1]
  {
    LiveIsLast(q, place, l);
    hide Chained, Loaded, Placed, Retired, Allocated, Aged, Hung, Ended, EnqKnows, Bears;
    hide Tagged, TaggedBehind, TagsUsed;
    UsedByLink(place, q.tags, q.tag, |q.linked|, l.elem, Live(|q.nodes|), q.tags + [|q.linked|]);
    TaggedLink(q.values, q.tags, q.linked, l.value);
    BehindLink(q, place, l.enq.ptr, Link(q, l, true).heap[l.enq.ptr], l.elem, l.value);
    assert q.values[1..q.first + 1] == (q.values + [l.value])[1..q.first + 1];
  }

  lemma TaggedLink(values: seq<Value>, tags: seq<nat>, linked: seq<Value>, v: Value)
    requires Tagged(values, tags, linked)
    ensures Tagged(values + [v], tags + [|linked|], linked + [v])
  {
  }

  lemma BehindLink(q: Queue, place: map<nat, Place>, x: nat, n: Node, e: nat, v: Value)
    requires TaggedBehind(q.heap, place, q.tags, q.tag, q.linked)
    requires x in place && !place[x].Behind? && e in place && place[e].Held?
    ensures TaggedBehind(q.heap[x := n], place[e := Live(|q.nodes|)], q.tags + [|q.linked|], q.tag[e := |q.linked|],
                         q.linked + [v])
  {
  }

  /** A new link is accounted for by its node, in the chain or hanging. */
  lemma UsedByLink(place: map<nat, Place>, tags: seq<nat>, tag: map<nat, nat>, n: nat, e: nat, p: Place,
                   tags': seq<nat>)
    requires TagsUsed(place, tags, tag, n) && e in place && !place[e].Behind? && 1 <= |tags|
    requires if p.Behind? then tags' == tags else tags' == tags + [n]
    ensures TagsUsed(place[e := p], tags', tag[e := n], n + 1)
  {
    var place', tag' := place[e := p], tag[e := n];
    forall k: nat | k < n + 1 ensures TagUsed(place', tags', tag', k) {
      if k == n && p.Behind? {
        assert place'[e].Behind? && tag'[e] == k;
      } else if k == n {
        assert tags'[|tags|] == n;
      } else {
        assert TagUsed(place, tags, tag, k);
        if i :| 1 <= i < |tags| && tags[i] == k {
          assert tags'[i] == k;
        } else {
          var c :| c in place && place[c].Behind? && c in tag && tag[c] == k;
          assert c != e && place'[c] == place[c] && tag'[c] == k;
        }
      }
    }
  }

  /** A link swap that hits a node outside the chain hits one that is re-initialised, or that
      hangs, and that left the chain after the linked element did. */
  lemma StrayTarget(q: Queue, place: map<nat, Place>, l: Local, t: Tid)
    requires Linking(q, place, l, t) && !IsLive(place, l.enq.ptr)
    ensures var x := l.enq.ptr; x in q.heap && x in q.nodes && x != l.elem && (place[x].Held? || place[x].Behind?)
    ensures Stamp(q.left, l.elem) < Stamp(q.left, l.enq.ptr)
  {
    hide Chained, Loaded, Hung, Ended, Tagged, TaggedBehind, TagsUsed;
    assert q.nodes[l.enqAt] == l.enq.ptr;
  }

  /** What a link swap outside the chain writes. */
  lemma StrayIs(q: Queue, place: map<nat, Place>, l: Local, t: Tid)
    requires Linking(q, place, l, t) && !IsLive(place, l.enq.ptr)
    ensures var q', x := Link(q, l, false), l.enq.ptr;
      && x in q.heap && x in place && (place[x].Held? || place[x].Behind?) && x != l.elem
      && q' == q.(heap := q.heap[x := q.heap[x].(next := Pair(l.elem, Bump(l.next.ctr)))],
                  linked := q.linked + [l.value], commits := q'.commits, tag := q.tag[l.elem := |q.linked|])
    ensures q.heap[l.enq.ptr].next.ptr == NULL && NULL !in q.heap && place.Keys == q.heap.Keys
    ensures l.elem in q.heap && l.elem in place && place[l.elem].Held? && Bears(q.heap, place, l.elem)
    ensures q.heap[l.elem].fe == l.elem && q.heap[l.elem].data == l.value
    ensures forall i | q.first <= i < |q.nodes| :: q.nodes[i] != l.enq.ptr
  {
    StrayTarget(q, place, l, t);
    LiveNodes(q, place);
    hide Chained, Loaded, Placed, Retired, Aged, Hung, Ended, Tagged, TaggedBehind, TagsUsed, EnqKnows, Bears;
  }

  lemma HangKeepsChained(heap: map<nat, Node>, nodes: seq<nat>, first: nat, x: nat, n: Node)
    requires Chained(heap, nodes, first) && x in heap && forall i | first <= i < |nodes| :: nodes[i] != x
    ensures Chained(heap[x := n], nodes, first)
  {
    var heap' := heap[x := n];
    forall i | first <= i < |nodes| - 1 ensures NextIs(heap', nodes, i) {
      assert NextIs(heap, nodes, i);
    }
  }

  lemma HangKeepsLoaded(heap: map<nat, Node>, nodes: seq<nat>, values: seq<Value>, first: nat, x: nat, n: Node)
    requires Loaded(heap, nodes, values, first) && forall i | first <= i < |nodes| :: nodes[i] != x
    ensures Loaded(heap[x := n], nodes, values, first)
  {
  }

  lemma HangKeepsRetired(heap: map<nat, Node>, nodes: seq<nat>, place: map<nat, Place>, x: nat, n: Node, e: nat)
    requires Retired(heap, nodes, place) && e in place && n.next.ptr != NULL
    ensures Retired(heap[x := n], nodes, place[e := Behind(x)])
  {
  }

  lemma StrayKeepsChain(q: Queue, place: map<nat, Place>, l: Local, t: Tid)
    requires Linking(q, place, l, t) && !IsLive(place, l.enq.ptr)
    ensures var q', place' := Link(q, l, false), place[l.elem := Behind(l.enq.ptr)];
      && Chained(q'.heap, q'.nodes, q'.first) && Loaded(q'.heap, q'.nodes, q'.values, q'.first)
      && Retired(q'.heap, q'.nodes, place')
  {
    StrayIs(q, place, l, t);
    assert Chained(q.heap, q.nodes, q.first) && Loaded(q.heap, q.nodes, q.values, q.first);
    assert Retired(q.heap, q.nodes, place);
    hide Linking, Chained, Loaded, Retired, Bears, Link;
    var x, n := l.enq.ptr, q.heap[l.enq.ptr].(next := Pair(l.elem, Bump(l.next.ctr)));
    HangKeepsChained(q.heap, q.nodes, q.first, x, n);
    HangKeepsLoaded(q.heap, q.nodes, q.values, q.first, x, n);
    HangKeepsRetired(q.heap, q.nodes, place, x, n, l.elem);
  }

  /** The element `e` now hangs behind `x`. */
  lemma HangKeepsHung(heap: map<nat, Node>, place: map<nat, Place>, n: nat, x: nat, e: nat, c: nat)
    requires Hung(heap, place, n) && x in heap && x in place && (place[x].Held? || place[x].Behind?) && x != e
    requires heap[x].next.ptr == NULL && NULL !in heap && e in heap && e in place && place[e].Held? && heap[e].fe == e
    ensures Hung(heap[x := heap[x].(next := Pair(e, c))], place[e := Behind(x)], n)
  {
  }

  lemma HangKeepsPlaced(place: map<nat, Place>, nodes: seq<nat>, first: nat, x: nat, e: nat)
    requires Placed(place, nodes, first) && e in place && place[e].Held?
    ensures Placed(place[e := Behind(x)], nodes, first)
  {
  }

  lemma HangKeepsEnded(heap: map<nat, Node>, place: map<nat, Place>, nodes: seq<nat>, x: nat, e: nat, c: nat)
    requires Ended(heap, place, nodes) && x in heap && place.Keys == heap.Keys && x in place && x != e
    requires heap[x].next.ptr == NULL && e in place && place[e].Held? && Bears(heap, place, e)
    requires nodes[|nodes| - 1] in place && place[nodes[|nodes| - 1]].Live?
    ensures Ended(heap[x := heap[x].(next := Pair(e, c))], place[e := Behind(x)], nodes)
  {
  }

  lemma HangKeepsAged(place: map<nat, Place>, nodes: seq<nat>, first: nat, left: map<nat, nat>, x: nat, e: nat)
    requires Aged(place, nodes, first, left) && x in place && e in place && place[e].Held? && x != e
    requires Stamp(left, e) < Stamp(left, x)
    ensures Aged(place[e := Behind(x)], nodes, first, left)
  {
  }

  lemma StrayKeepsPlaces(q: Queue, place: map<nat, Place>, l: Local, t: Tid)
    requires Linking(q, place, l, t) && !IsLive(place, l.enq.ptr)
    ensures var q', place' := Link(q, l, false), place[l.elem := Behind(l.enq.ptr)];
      && Placed(place', q'.nodes, q'.first) && Aged(place', q'.nodes, q'.first, q'.left)
      && Hung(q'.heap, place', |q'.nodes|) && Ended(q'.heap, place', q'.nodes)
  {
    hide Chained, Loaded, Retired, Tagged, TaggedBehind, TagsUsed, EnqKnows, Hung, Ended, Aged, Bears, Placed;
    StrayTarget(q, place, l, t);
    LiveNodes(q, place);
    HangKeepsPlaced(place, q.nodes, q.first, l.enq.ptr, l.elem);
    HangKeepsAged(place, q.nodes, q.first, q.left, l.enq.ptr, l.elem);
    HangKeepsHung(q.heap, place, |q.nodes|, l.enq.ptr, l.elem, Bump(l.next.ctr));
    HangKeepsEnded(q.heap, place, q.nodes, l.enq.ptr, l.elem, Bump(l.next.ctr));
  }

  lemma StrayKeepsTags(q: Queue, place: map<nat, Place>, l: Local, t: Tid)
    requires Linking(q, place, l, t) && !IsLive(place, l.enq.ptr)
    ensures var q', place' := Link(q, l, false), place[l.elem := Behind(l.enq.ptr)];
      && Tagged(q'.values, q'.tags, q'.linked) && TaggedBehind(q'.heap, place', q'.tags, q'.tag, q'.linked)
      && TagsUsed(place', q'.tags, q'.tag, |q'.linked|)
  {
    StrayIs(q, place, l, t);
    assert Tagged(q.values, q.tags, q.linked) && TaggedBehind(q.heap, place, q.tags, q.tag, q.linked);
    assert TagsUsed(place, q.tags, q.tag, |q.linked|) && 1 <= |q.tags|;
    hide Linking, Tagged, TaggedBehind, TagsUsed, Bears, Link;
    UsedByLink(place, q.tags, q.tag, |q.linked|, l.elem, Behind(l.enq.ptr), q.tags);
    TaggedHang(q.values, q.tags, q.linked, l.value);
    BehindHang(q, place, l.enq.ptr, Pair(l.elem, Bump(l.next.ctr)), l.elem);
  }

  lemma TaggedHang(values: seq<Value>, tags: seq<nat>, linked: seq<Value>, v: Value)
    requires Tagged(values, tags, linked)
    ensures Tagged(values, tags, linked + [v])
  {
  }

  lemma BehindHang(q: Queue, place: map<nat, Place>, x: nat, p: Pair, e: nat)
    requires TaggedBehind(q.heap, place, q.tags, q.tag, q.linked) && Tagged(q.values, q.tags, q.linked)
    requires x in q.heap && e in q.heap && e in place && place[e].Held? && x != e
    ensures TaggedBehind(q.heap[x := q.heap[x].(next := p)], place[e := Behind(x)], q.tags, q.tag[e := |q.linked|],
                         q.linked + [q.heap[e].data])
  {
  }

  lemma LiveLinkKeepsValid(q: Queue, place: map<nat, Place>, l: Local, t: Tid)
    requires Linking(q, place, l, t) && IsLive(place, l.enq.ptr)
    ensures Valid(Link(q, l, true), place[l.elem := Live(|q.nodes|)])
  {
    LinkKeepsChain(q, place, l, t);
    LinkKeepsPlaces(q, place, l, t);
    LinkKeepsHung(q, place, l, t);
    LinkKeepsTags(q, place, l, t);
    hide *;
  }

  lemma StrayLinkKeepsValid(q: Queue, place: map<nat, Place>, l: Local, t: Tid)
    requires Linking(q, place, l, t) && !IsLive(place, l.enq.ptr)
    ensures Valid(Link(q, l, false), place[l.elem := Behind(l.enq.ptr)])
  {
    hide Chained, Loaded, Retired, Placed, Aged, Hung, Ended, Tagged, TaggedBehind, TagsUsed, EnqKnows, Owns, Bears;
    StrayIs(q, place, l, t);
    StrayKeepsChain(q, place, l, t);
    StrayKeepsPlaces(q, place, l, t);
    StrayKeepsTags(q, place, l, t);
    hide Link;
  }

  lemma LinkKeepsValid(q: Queue, place: map<nat, Place>, l: Local, t: Tid)
    requires Linking(q, place, l, t)
    ensures Valid(Step(q, l, place), StepPlace(q, l, place, t))
  {
    hide Valid, EnqKnows, Owns, Link;
    if IsLive(place, l.enq.ptr) {
      LiveLinkKeepsValid(q, place, l, t);
    } else {
      StrayLinkKeepsValid(q, place, l, t);
    }
  }

  // ------------------------------------------------------------------- tail and head

  /** A successful swing installs the node after the one `enq` points at. */
  lemma SwingFollows(q: Queue, l: Local)
    requires Ends(q) && Knows(q, l) && q.enq == l.enq && Swings(l.pc)
    ensures Follows(q, q.last, Target(l))
  {
    assert l.enqAt == q.last;
  }

  lemma ShortSwingKeepsValid(q: Queue, place: map<nat, Place>, l: Local, p: nat)
    requires Valid(q, place) && q.enq == l.enq && q.last + 1 < |q.nodes| && p == q.nodes[q.last + 1]
    ensures Valid(SwingEnq(q, l, p), place)
  {
    hide Chained, Loaded, Retired, Placed, Aged, Hung, Ended, Tagged, TaggedBehind, TagsUsed;
  }

  /** What holds when a swing is about to reach a node that hangs behind the last one. */
  ghost predicate Extending(q: Queue, place: map<nat, Place>, p: nat) {
    Valid(q, place) && q.last + 1 == |q.nodes| && Follows(q, q.last, p)
  }

  lemma TailHangs(q: Queue, place: map<nat, Place>, p: nat)
    requires Extending(q, place, p)
    ensures p in q.heap && p in place && place[p] == Behind(q.nodes[q.last])
    ensures place[q.nodes[q.last]] == Live(q.last) && At(q.heap, q.nodes[q.last]).next.ptr == p
    ensures q.heap[p].fe == p && Bears(q.heap, place, p)
  {
    hide Chained, Loaded, Retired, Aged, Tagged, TaggedBehind, TagsUsed;
  }

  lemma ExtendKeepsChain(q: Queue, place: map<nat, Place>, p: nat)
    requires Extending(q, place, p)
    ensures var q' := Extend(q, p);
      && Chained(q'.heap, q'.nodes, q'.first) && Loaded(q'.heap, q'.nodes, q'.values, q'.first)
      && Allocated(q'.heap, q'.nodes)
  {
    TailHangs(q, place, p);
    hide Placed, Retired, Aged, Hung, Ended, Tagged, TaggedBehind, TagsUsed;
    var q', n := Extend(q, p), |q.nodes|;
    forall i | q.first <= i < n ensures NextIs(q'.heap, q'.nodes, i) {
      if i < n - 1 {
        assert NextIs(q.heap, q.nodes, i);
      }
    }
  }

  lemma ExtendKeepsPlaces(q: Queue, place: map<nat, Place>, p: nat)
    requires Extending(q, place, p)
    ensures var q', place' := Extend(q, p), place[p := Live(|q.nodes|)];
      && Placed(place', q'.nodes, q'.first) && Retired(q'.heap, q'.nodes, place')
      && Aged(place', q'.nodes, q'.first, q'.left)
  {
    TailHangs(q, place, p);
    hide Chained, Loaded, Allocated, Hung, Ended, Tagged, TaggedBehind, TagsUsed;
    var q', n := Extend(q, p), |q.nodes|;
    assert q'.nodes[n] == p && forall i | 0 <= i < n :: q'.nodes[i] == q.nodes[i];
  }

  lemma ExtendKeepsHung(q: Queue, place: map<nat, Place>, p: nat)
    requires Extending(q, place, p)
    ensures var q', place' := Extend(q, p), place[p := Live(|q.nodes|)];
      Hung(q'.heap, place', |q'.nodes|) && Ended(q'.heap, place', q'.nodes)
  {
    TailHangs(q, place, p);
    assert forall c | c in place && place[c].Live? && c != q.nodes[q.last] :: place[c].at < q.last by {
      hide Chained, Loaded, Allocated, Hung, Ended, Tagged, TaggedBehind, TagsUsed, Retired, Aged;
    }
    hide Chained, Loaded, Allocated, Placed, Retired, Aged, Tagged, TaggedBehind, TagsUsed;
  }

  lemma ExtendKeepsTags(q: Queue, place: map<nat, Place>, p: nat)
    requires Extending(q, place, p)
    ensures var q', place' := Extend(q, p), place[p := Live(|q.nodes|)];
      && Tagged(q'.values, q'.tags, q'.linked) && TaggedBehind(q'.heap, place', q'.tags, q'.tag, q'.linked)
      && TagsUsed(place', q'.tags, q'.tag, |q'.linked|) && q'.out == q'.values[1..q'.first + 1]
  {
    TailHangs(q, place, p);
    hide Chained, Loaded, Allocated, Placed, Retired, Aged, Hung, Ended;
    UsedByJoin(place, q.tags, q.tag, |q.linked|, p, |q.nodes|);
    hide TagsUsed, TaggedBehind;
    var q' := Extend(q, p);
    BehindJoin(q, place, p);
    assert q'.values[1..q'.first + 1] == q.values[1..q.first + 1];
  }

  lemma BehindJoin(q: Queue, place: map<nat, Place>, p: nat)
    requires TaggedBehind(q.heap, place, q.tags, q.tag, q.linked) && p in place && place[p].Behind?
    ensures TaggedBehind(q.heap, place[p := Live(|q.nodes|)], q.tags + [Stamp(q.tag, p)], q.tag, q.linked)
  {
  }

  lemma UsedByJoin(place: map<nat, Place>, tags: seq<nat>, tag: map<nat, nat>, n: nat, p: nat, i: nat)
    requires TagsUsed(place, tags, tag, n) && 1 <= |tags|
    ensures TagsUsed(place[p := Live(i)], tags + [Stamp(tag, p)], tag, n)
  {
    var place', tags' := place[p := Live(i)], tags + [Stamp(tag, p)];
    forall k: nat | k < n ensures TagUsed(place', tags', tag, k) {
      assert TagUsed(place, tags, tag, k);
      if j :| 1 <= j < |tags| && tags[j] == k {
        assert tags'[j] == k;
      } else {
        var c :| c in place && place[c].Behind? && c in tag && tag[c] == k;
        if c == p {
          assert tags'[|tags|] == k;
        } else {
          assert place'[c] == place[c];
        }
      }
    }
  }

  lemma ExtendKeepsValid(q: Queue, place: map<nat, Place>, p: nat)
    requires Extending(q, place, p)
    ensures Valid(Extend(q, p), place[p := Live(|q.nodes|)])
  {
    TailHangs(q, place, p);
    ExtendKeepsChain(q, place, p);
    ExtendKeepsPlaces(q, place, p);
    ExtendKeepsHung(q, place, p);
    ExtendKeepsTags(q, place, p);
    hide Chained, Loaded, Allocated, Placed, Retired, Aged, Hung, Ended, Tagged, TaggedBehind, TagsUsed;
  }

  lemma SwingInTwo(q: Queue, l: Local, p: nat)
    requires q.enq == l.enq && q.last + 1 == |q.nodes|
    ensures var q1 := Extend(q, p);
      && q1.enq == l.enq && q1.last + 1 < |q1.nodes| && p == q1.nodes[q1.last + 1]
      && SwingEnq(q, l, p) == SwingEnq(q1, l, p)
  {
  }

  lemma LongSwingKeepsValid(q: Queue, place: map<nat, Place>, l: Local, p: nat)
    requires Extending(q, place, p) && q.enq == l.enq
    ensures Valid(SwingEnq(q, l, p), place[p := Live(|q.nodes|)])
  {
    ExtendKeepsValid(q, place, p);
    SwingInTwo(q, l, p) by {
      assert q.last + 1 == |q.nodes|;
    }
    hide Extending, Valid, Extend, SwingEnq;
    ShortSwingKeepsValid(Extend(q, p), place[p := Live(|q.nodes|)], l, p);
  }

  /** What a swing does. */
  lemma SwingStep(q: Queue, place: map<nat, Place>, l: Local, t: Tid)
    requires Swings(l.pc) && q.enq == l.enq
    ensures Step(q, l, place) == SwingEnq(q, l, Target(l))
    ensures StepPlace(q, l, place, t) == if q.last + 1 < |q.nodes| then place else place[Target(l) := Live(|q.nodes|)]
  {
  }

  lemma SwingKeepsValid(q: Queue, place: map<nat, Place>, l: Local, t: Tid)
    requires Valid(q, place) && Knows(q, l) && q.enq == l.enq && Swings(l.pc)
    ensures Valid(Step(q, l, place), StepPlace(q, l, place, t))
  {
    SwingFollows(q, l);
    SwingStep(q, place, l, t);
    assert q.last < |q.nodes|;
    hide Valid, EnqKnows, DeqKnows, SwingEnq, Step, StepPlace;
    if q.last + 1 < |q.nodes| {
      ShortSwingKeepsValid(q, place, l, Target(l));
    } else {
      LongSwingKeepsValid(q, place, l, Target(l));
    }
  }

  /** A successful head swap installs the node after the dummy, with the value it carries,
      and `deq` does not pass `enq`. */
  lemma HeadGoes(q: Queue, l: Local)
    requires Ends(q) && DeqKnows(q, l) && l.pc == DeqSwap && q.deq == l.deq
    ensures q.first < q.last && l.deq.ptr == q.nodes[q.first]
    ensures l.next.ptr == q.nodes[q.first + 1] && l.value == q.values[q.first + 1]
  {
    assert l.deqAt == q.first;
  }

  lemma HeadKeepsPlaces(q: Queue, place: map<nat, Place>, t: Tid)
    requires Valid(q, place) && q.first < q.last
    ensures var e := q.nodes[q.first]; var place' := place[e := Held(t)];
      && Placed(place', q.nodes, q.first + 1) && Retired(q.heap, q.nodes, place')
      && Aged(place', q.nodes, q.first + 1, q.left[e := q.first + 1])
  {
    assert forall c | c in place && place[c].Behind? :: place[c].parent != q.nodes[q.first] by {
      hide Chained, Loaded, Tagged, TaggedBehind, TagsUsed, Retired, Aged, Ended;
    }
    hide Chained, Loaded, Hung, Ended, Tagged, TaggedBehind, TagsUsed;
  }

  lemma HeadKeepsHung(q: Queue, place: map<nat, Place>, t: Tid)
    requires Valid(q, place) && q.first < q.last
    ensures var e := q.nodes[q.first]; var place' := place[e := Held(t)];
      Hung(q.heap, place', |q.nodes|) && Ended(q.heap, place', q.nodes) && Clear(q, place', e)
  {
    assert place[q.nodes[q.first]] == Live(q.first);
    assert NextIs(q.heap, q.nodes, q.first);
    hide Chained, Loaded, Placed, Retired, Aged, Tagged, TaggedBehind, TagsUsed;
  }

  lemma HeadKeepsTags(q: Queue, place: map<nat, Place>, t: Tid)
    requires Valid(q, place) && q.first < q.last
    ensures var place' := place[q.nodes[q.first] := Held(t)];
      TaggedBehind(q.heap, place', q.tags, q.tag, q.linked) && TagsUsed(place', q.tags, q.tag, |q.linked|)
  {
    LiveNodes(q, place);
    UsedFrame(place, place[q.nodes[q.first] := Held(t)], q.tags, q.tag, |q.linked|);
    hide Chained, Loaded, Placed, Retired, Aged, Hung, Ended, Tagged, TagsUsed;
  }

  lemma HeadKeepsValid(q: Queue, place: map<nat, Place>, l: Local, t: Tid)
    requires Valid(q, place) && DeqKnows(q, l) && l.pc == DeqSwap && q.deq == l.deq
    ensures Valid(TakeHead(q, l), place[l.deq.ptr := Held(t)])
  {
    hide Chained, Loaded, Placed, Retired, Aged, Hung, Ended, Tagged, TaggedBehind, TagsUsed, DeqKnows, Clear;
    LiveNodes(q, place);
    hide Allocated;
    HeadGoes(q, l);
    HeadKeepsPlaces(q, place, t);
    HeadKeepsHung(q, place, t);
    HeadKeepsTags(q, place, t);
    ChainedTail(q.heap, q.nodes, q.values, q.first);
    assert q.values[1..q.first + 2] == q.values[1..q.first + 1] + [q.values[q.first + 1]];
  }

  // ----------------------------------------------------------------------- all steps

  ghost predicate Ready(q: Queue, place: map<nat, Place>, l: Local, t: Tid) {
    Valid(q, place) && Knows(q, l) && Owns(q, place, l, t)
  }

  lemma InitKeepsValid(q: Queue, place: map<nat, Place>, l: Local, t: Tid)
    requires Valid(q, place) && Owns(q, place, l, t) && Writes(l.pc)
    ensures Valid(Step(q, l, place), StepPlace(q, l, place, t))
  {
    WriteKeepsValid(q, place, l.elem, Step(q, l, place).heap[l.elem]) by {
      hide Valid, Bears, Clear;
    }
    hide Valid, Bears, Clear;
  }

  lemma QuietKeepsValid(q: Queue, q': Queue, place: map<nat, Place>)
    requires Valid(q, place) && q' == q.(aba := q'.aba)
    ensures Valid(q', place)
  {
    hide Chained, Loaded, Placed, Retired, Aged, Hung, Ended, Tagged, TaggedBehind, TagsUsed;
  }

  /** Every step of a queue call keeps the invariant. */
  lemma StepKeepsValid(q: Queue, place: map<nat, Place>, l: Local, t: Tid)
    requires Ready(q, place, l, t)
    ensures Valid(Step(q, l, place), StepPlace(q, l, place, t))
  {
    hide Valid, EnqKnows, DeqKnows, Owns, Step, StepPlace;
    if Writes(l.pc) {
      InitKeepsValid(q, place, l, t);
    } else if LinkFires(q, l) {
      LinkKeepsValid(q, place, l, t);
    } else if Swings(l.pc) && q.enq == l.enq {
      SwingKeepsValid(q, place, l, t);
    } else if l.pc == DeqSwap && q.deq == l.deq {
      HeadStep(q, place, l, t);
      HeadKeepsValid(q, place, l, t);
    } else {
      QuietStep(q, place, l, t);
      QuietKeepsValid(q, Step(q, l, place), place);
    }
  }

  // ------------------------------------------------------------- what each step changes

  predicate Writes(pc: Pc) {
    pc in {InitNextPtr, InitNextCtr, InitFe, InitData}
  }

  predicate Swings(pc: Pc) {
    pc in {EnqHelp, EnqSwing, DeqHelp}
  }

  /** A step that changes no memory except a counter. */
  ghost predicate IsQuiet(q: Queue, l: Local) {
    && !Writes(l.pc) && !LinkFires(q, l)
    && (Swings(l.pc) ==> q.enq != l.enq)
    && (l.pc == DeqSwap ==> q.deq != l.deq)
  }

  lemma QuietStep(q: Queue, place: map<nat, Place>, l: Local, t: Tid)
    requires IsQuiet(q, l)
    ensures var q' := Step(q, l, place); q' == q.(aba := q'.aba) && q'.aba >= q.aba
    ensures StepPlace(q, l, place, t) == place
  {
  }

  lemma WriteStep(q: Queue, place: map<nat, Place>, l: Local, t: Tid)
    requires Writes(l.pc) && l.elem in q.heap
    ensures l.elem in Step(q, l, place).heap && StepPlace(q, l, place, t) == place
    ensures var n, n' := q.heap[l.elem], Step(q, l, place).heap[l.elem];
      && Step(q, l, place) == SetNode(q, l.elem, n')
      && n'.next.ptr == (if l.pc == InitNextPtr then NULL else n.next.ptr)
      && n'.next.ctr == (if l.pc == InitNextCtr then l.draw else n.next.ctr)
      && n'.fe == (if l.pc == InitFe then l.elem else n.fe)
      && n'.data == (if l.pc == InitData then l.value else n.data)
  {
  }

  lemma LinkStep(q: Queue, place: map<nat, Place>, l: Local, t: Tid)
    requires LinkFires(q, l)
    ensures var live := IsLive(place, l.enq.ptr);
      && Step(q, l, place) == Link(q, l, live)
      && StepPlace(q, l, place, t) == place[l.elem := if live then Live(|q.nodes|) else Behind(l.enq.ptr)]
  {
  }

  lemma HeadStep(q: Queue, place: map<nat, Place>, l: Local, t: Tid)
    requires l.pc == DeqSwap && q.deq == l.deq
    ensures Step(q, l, place) == TakeHead(q, l)
    ensures StepPlace(q, l, place, t) == place[l.deq.ptr := Held(t)]
  {
  }

  lemma WriteEvolves(q: Queue, e: nat, n: Node)
    requires e in q.heap
    ensures Evolves(q, SetNode(q, e, n))
  {
  }

  lemma LinkEvolves(q: Queue, l: Local, live: bool)
    requires l.enq.ptr in q.heap
    ensures Evolves(q, Link(q, l, live))
  {
    hide Bump;
  }

  lemma SwingEvolves(q: Queue, l: Local, p: nat)
    ensures Evolves(q, SwingEnq(q, l, p))
  {
  }

  lemma HeadEvolves(q: Queue, l: Local)
    ensures Evolves(q, TakeHead(q, l))
  {
  }

  /** What follows each node stays as it is if the live nodes' next pointers do. */
  lemma ChainGrows(q: Queue, q': Queue)
    requires Ends(q) && Evolves(q, q') && q'.nodes == q.nodes
    requires forall i | q'.first <= i < |q.nodes| :: At(q'.heap, q.nodes[i]).next.ptr == At(q.heap, q.nodes[i]).next.ptr
    ensures Grows(q, q')
  {
  }

  /** The facts about places that most of the following needs. */
  lemma LiveNodes(q: Queue, place: map<nat, Place>)
    requires Valid(q, place)
    ensures q.first <= q.last < |q.nodes| && Evolves(q, q)
    ensures forall i | q.first <= i < |q.nodes| ::
      q.nodes[i] in place && place[q.nodes[i]] == Live(i) && q.nodes[i] in q.heap
  {
    hide Chained, Loaded, Retired, Aged, Hung, Ended, Tagged, TaggedBehind, TagsUsed;
  }

  lemma WriteGrows(q: Queue, place: map<nat, Place>, e: nat, n: Node)
    requires Valid(q, place) && e in q.heap && e in place && place[e].Held?
    ensures Grows(q, SetNode(q, e, n))
  {
    LiveNodes(q, place);
    WriteEvolves(q, e, n);
    hide Evolves;
    assert Ends(q);
    hide Valid;
    ChainGrows(q, SetNode(q, e, n));
  }

  lemma LiveLinkGrows(q: Queue, l: Local)
    requires Ends(q) && Evolves(q, Link(q, l, true)) && LinkFires(q, l) && l.enq.ptr == q.nodes[|q.nodes| - 1]
    requires forall i | q.first <= i < |q.nodes| - 1 :: q.nodes[i] != l.enq.ptr
    ensures Grows(q, Link(q, l, true))
  {
    hide Evolves;
  }

  lemma LinkGrows(q: Queue, place: map<nat, Place>, l: Local, t: Tid)
    requires Linking(q, place, l, t)
    ensures Grows(q, Link(q, l, IsLive(place, l.enq.ptr)))
  {
    LiveNodes(q, place);
    EndsOfValid(q, place);
    hide Valid, EnqKnows, Owns, Evolves, Grows;
    if IsLive(place, l.enq.ptr) {
      LiveIsLast(q, place, l);
      LinkEvolves(q, l, true);
      LiveLinkGrows(q, l);
    } else {
      StrayTarget(q, place, l, t);
      LinkEvolves(q, l, false);
      ChainGrows(q, Link(q, l, false));
    }
  }

  lemma ExtendGrows(q: Queue, place: map<nat, Place>, p: nat)
    requires Extending(q, place, p)
    ensures Grows(q, Extend(q, p))
  {
    TailHangs(q, place, p);
    EndsOfValid(q, place);
    hide Valid;
  }

  lemma SwingGrows(q: Queue, place: map<nat, Place>, l: Local)
    requires Valid(q, place) && Knows(q, l) && q.enq == l.enq && Swings(l.pc)
    ensures Grows(q, SwingEnq(q, l, Target(l)))
  {
    EndsOfValid(q, place);
    SwingFollows(q, l);
    SwingEvolves(q, l, Target(l));
    hide Valid, Knows, Evolves;
    if q.last + 1 >= |q.nodes| {
      ExtendGrows(q, place, Target(l));
      SwingInTwo(q, l, Target(l));
    }
  }

  lemma HeadGrows(q: Queue, l: Local)
    requires Ends(q)
    ensures Grows(q, TakeHead(q, l))
  {
    HeadEvolves(q, l);
    hide Evolves;
  }

  lemma QuietGrows(q: Queue, q': Queue)
    requires q' == q.(aba := q'.aba) && q'.aba >= q.aba
    ensures Grows(q, q')
  {
  }

  /** Every step of a queue call only adds to history. */
  lemma StepGrows(q: Queue, place: map<nat, Place>, l: Local, t: Tid)
    requires Ready(q, place, l, t)
    ensures Grows(q, Step(q, l, place))
  {
    hide Valid, EnqKnows, DeqKnows, Step, StepPlace, Grows;
    if Writes(l.pc) {
      WriteStep(q, place, l, t);
      WriteGrows(q, place, l.elem, Step(q, l, place).heap[l.elem]);
    } else if LinkFires(q, l) {
      LinkStep(q, place, l, t);
      LinkGrows(q, place, l, t);
    } else if Swings(l.pc) && q.enq == l.enq {
      SwingStep(q, place, l, t);
      SwingGrows(q, place, l);
    } else if l.pc == DeqSwap && q.deq == l.deq {
      HeadStep(q, place, l, t);
      LiveNodes(q, place);
      HeadGrows(q, l) by { assert Ends(q) by { EndsOfValid(q, place); } }
    } else {
      QuietStep(q, place, l, t);
      QuietGrows(q, Step(q, l, place));
    }
  }

  lemma EndsOfValid(q: Queue, place: map<nat, Place>)
    requires Valid(q, place)
    ensures Ends(q) && q.first <= q.last < |q.nodes| == |q.values| == |q.tags|
    ensures q.enq.ptr == q.nodes[q.last] && q.deq.ptr == q.nodes[q.first]
  {
  }

  // ---------------------------------------------------------- the elements of others

  lemma WriteSpares(q: Queue, place: map<nat, Place>, e: nat, n: Node, f: nat)
    requires Valid(q, place) && e in q.heap && f in place && place[f].Held? && f != e
    ensures Untouched(q, SetNode(q, e, n), place, place, f)
  {
    hide Chained, Loaded, Placed, Retired, Aged, Hung, Ended, Tagged, TaggedBehind, TagsUsed;
  }

  lemma LiveLinkSpares(q: Queue, place: map<nat, Place>, l: Local, f: nat)
    requires LinkFires(q, l) && IsLive(place, l.enq.ptr) && l.enq.ptr in q.heap && place.Keys == q.heap.Keys
    requires f in place && place[f].Held? && f != l.elem && l.elem in place && !place[l.elem].Behind?
    ensures Untouched(q, Link(q, l, true), place, place[l.elem := Live(|q.nodes|)], f)
  {
  }

  lemma StrayLinkSpares(q: Queue, place: map<nat, Place>, l: Local, f: nat)
    requires LinkFires(q, l) && l.enq.ptr in q.heap && l.enq.ptr in q.nodes && place.Keys == q.heap.Keys
    requires f in place && place[f].Held? && f != l.elem && l.elem in place && !place[l.elem].Behind?
    ensures Untouched(q, Link(q, l, false), place, place[l.elem := Behind(l.enq.ptr)], f)
  {
  }

  lemma LinkSpares(q: Queue, place: map<nat, Place>, l: Local, t: Tid, f: nat)
    requires Linking(q, place, l, t) && f in place && place[f].Held? && f != l.elem
    ensures var live := IsLive(place, l.enq.ptr);
      Untouched(q, Link(q, l, live), place, place[l.elem := if live then Live(|q.nodes|) else Behind(l.enq.ptr)], f)
  {
    assert place.Keys == q.heap.Keys;
    hide Valid, EnqKnows, Untouched, Bears, Clear, LinkFires;
    if IsLive(place, l.enq.ptr) {
      LiveIsLast(q, place, l);
      LiveLinkSpares(q, place, l, f);
    } else {
      StrayTarget(q, place, l, t);
      StrayLinkSpares(q, place, l, f);
    }
  }

  lemma SwingSpares(q: Queue, place: map<nat, Place>, l: Local, p: nat, f: nat)
    requires Valid(q, place) && q.enq == l.enq && Follows(q, q.last, p) && f in place && place[f].Held?
    ensures Untouched(q, SwingEnq(q, l, p), place,
                      if q.last + 1 < |q.nodes| then place else place[p := Live(|q.nodes|)], f)
  {
    if q.last + 1 >= |q.nodes| {
      TailHangs(q, place, p);
    }
    hide Chained, Loaded, Placed, Retired, Aged, Hung, Ended, Tagged, TaggedBehind, TagsUsed;
  }

  lemma HeadSpares(q: Queue, place: map<nat, Place>, l: Local, t: Tid, f: nat)
    requires Valid(q, place) && q.deq == l.deq && f in place && place[f].Held?
    ensures Untouched(q, TakeHead(q, l), place, place[l.deq.ptr := Held(t)], f)
  {
    LiveNodes(q, place);
    hide Chained, Loaded, Placed, Retired, Aged, Hung, Ended, Tagged, TaggedBehind, TagsUsed;
  }

  lemma QuietSpares(q: Queue, q': Queue, place: map<nat, Place>, f: nat)
    requires q' == q.(aba := q'.aba) && f in place && f in q.heap
    ensures Untouched(q, q', place, place, f)
  {
  }

  /** A queue step leaves the elements that other threads hold alone, except that a node may
      be hung behind one. */
  lemma StepRespects(q: Queue, place: map<nat, Place>, l: Local, t: Tid)
    requires Ready(q, place, l, t)
    ensures Respects(q, Step(q, l, place), place, StepPlace(q, l, place, t), t)
  {
    hide Valid, EnqKnows, DeqKnows, Step, StepPlace, Untouched;
    var q', place' := Step(q, l, place), StepPlace(q, l, place, t);
    forall f | f in place && place[f].Held? && place[f].owner != t ensures Untouched(q, q', place, place', f) {
      StepSpares(q, place, l, t, f);
    }
  }

  lemma StepSpares(q: Queue, place: map<nat, Place>, l: Local, t: Tid, f: nat)
    requires Ready(q, place, l, t) && f in place && place[f].Held?
    requires Writes(l.pc) || LinkFires(q, l) ==> f != l.elem
    ensures Untouched(q, Step(q, l, place), place, StepPlace(q, l, place, t), f)
  {
    hide Valid, EnqKnows, DeqKnows, Step, StepPlace, Untouched;
    if Writes(l.pc) {
      WriteStep(q, place, l, t);
      WriteSpares(q, place, l.elem, Step(q, l, place).heap[l.elem], f);
    } else if LinkFires(q, l) {
      LinkStep(q, place, l, t);
      LinkSpares(q, place, l, t, f);
    } else if Swings(l.pc) && q.enq == l.enq {
      EndsOfValid(q, place);
      SwingFollows(q, l);
      SwingStep(q, place, l, t);
      SwingSpares(q, place, l, Target(l), f);
    } else if l.pc == DeqSwap && q.deq == l.deq {
      HeadStep(q, place, l, t);
      HeadSpares(q, place, l, t, f);
    } else {
      QuietStep(q, place, l, t);
      HeldInHeap(q, place, f);
      QuietSpares(q, Step(q, l, place), place, f);
    }
  }

  lemma HeldInHeap(q: Queue, place: map<nat, Place>, f: nat)
    requires Valid(q, place) && f in place
    ensures f in q.heap
  {
  }

  // ------------------------------------------------------------------- own knowledge

  /** Reading `enq`, then the next of the node it points at, then `enq` again. */
  lemma EnqReads(q: Queue, l: Local)
    requires Ends(q) && Allocated(q.heap, q.nodes) && Chained(q.heap, q.nodes, q.first)
    requires l.pc in {EnqPtr, EnqCtr, EnqNextPtr, EnqNextCtr, EnqCheckPtr, EnqCheckCtr} && EnqKnows(q, l)
    ensures EnqKnows(q, StepLocal(q, l))
  {
    assert q.last < |q.nodes| - 1 ==> NextIs(q.heap, q.nodes, q.last);
  }

  lemma EnqLinks(q: Queue, place: map<nat, Place>, l: Local, t: Tid)
    requires Linking(q, place, l, t)
    ensures EnqKnows(Step(q, l, place), StepLocal(q, l))
  {
    LiveNodes(q, place);
    LinkStep(q, place, l, t);
    hide Valid, Step, StepPlace, Owns;
    if IsLive(place, l.enq.ptr) {
      LiveIsLast(q, place, l);
      LiveEnqLinks(q, place, l);
    } else {
      StrayTarget(q, place, l, t);
    }
  }

  lemma LiveEnqLinks(q: Queue, place: map<nat, Place>, l: Local)
    requires LinkFires(q, l) && EnqKnows(q, l) && q.first <= q.last < |q.nodes| && l.enq.ptr == q.nodes[|q.nodes| - 1]
    requires forall i | q.first <= i < |q.nodes| :: q.nodes[i] in place && place[q.nodes[i]] == Live(i)
    ensures EnqKnows(Link(q, l, true), StepLocal(q, l))
  {
    var q' := Link(q, l, true);
    assert q'.nodes[|q.nodes|] == l.elem;
    assert l.enqAt < |q.nodes| && q'.nodes[l.enqAt] == l.enq.ptr;
  }

  /** These steps only read shared memory. */
  lemma ReadsOnly(q: Queue, place: map<nat, Place>, l: Local)
    requires l.pc !in {InitDraw, InitNextPtr, InitNextDraw, InitNextCtr, InitFe, InitData}
    requires l.pc !in {EnqLink, EnqHelp, EnqSwing, DeqHelp, DeqSwap}
    ensures Step(q, l, place) == q
    ensures forall t :: StepPlace(q, l, place, t) == place
  {
  }

  lemma EnqIgnorant(q: Queue, q': Queue, l: Local)
    requires l.pc !in {EnqPtr, EnqCtr, EnqNextPtr, EnqNextCtr, EnqCheckPtr, EnqCheckCtr} && !LinkFires(q, l)
    requires EnqKnows(q', l)
    ensures EnqKnows(q', StepLocal(q, l))
  {
  }

  lemma StepKeepsEnqKnowledge(q: Queue, place: map<nat, Place>, l: Local, t: Tid)
    requires Ready(q, place, l, t)
    ensures EnqKnows(Step(q, l, place), StepLocal(q, l))
  {
    hide EnqKnows, DeqKnows, Step, StepPlace, StepLocal, Grows;
    if l.pc in {EnqPtr, EnqCtr, EnqNextPtr, EnqNextCtr, EnqCheckPtr, EnqCheckCtr} {
      EnqReads(q, l);
      ReadsOnly(q, place, l);
    } else if LinkFires(q, l) {
      hide Valid;
      EnqLinks(q, place, l, t);
    } else {
      hide LinkFires;
      StepGrows(q, place, l, t);
      StepKeepsValid(q, place, l, t);
      EnqKnowledgeSurvives(q, Step(q, l, place), l);
      EnqIgnorant(q, Step(q, l, place), l);
    }
  }

  lemma DeqReads(q: Queue, l: Local)
    requires Ends(q) && Allocated(q.heap, q.nodes) && Chained(q.heap, q.nodes, q.first)
    requires l.pc in {DeqPtr, DeqCtr, DeqEnqPtr, DeqEnqCtr, DeqNextPtr, DeqNextCtr, DeqCheckPtr} && DeqKnows(q, l)
    ensures DeqKnows(q, StepLocal(q, l))
  {
    assert q.first < |q.nodes| - 1 ==> NextIs(q.heap, q.nodes, q.first);
  }

  lemma DeqDecides(q: Queue, place: map<nat, Place>, l: Local)
    requires Ends(q) && Placed(place, q.nodes, q.first)
    requires l.pc == DeqCheckCtr && DeqKnows(q, l)
    ensures DeqKnows(q, StepLocal(q, l))
  {
    if q.deq.ctr == l.deq.ctr {
      assert l.deqAt == q.first;
      assert place[q.nodes[l.deqAt]] == Live(l.deqAt) && place[q.nodes[l.enqAt]] == Live(l.enqAt);
    }
  }

  lemma DeqLoads(q: Queue, l: Local)
    requires Ends(q) && Allocated(q.heap, q.nodes) && Loaded(q.heap, q.nodes, q.values, q.first)
    requires l.pc == DeqData && DeqKnows(q, l)
    ensures DeqKnows(q, StepLocal(q, l))
  {
  }

  lemma DeqIgnorant(q: Queue, q': Queue, l: Local)
    requires l.pc !in {DeqPtr, DeqCtr, DeqEnqPtr, DeqEnqCtr, DeqNextPtr, DeqNextCtr, DeqCheckPtr, DeqCheckCtr, DeqData}
    requires DeqKnows(q', l)
    ensures DeqKnows(q', StepLocal(q, l))
  {
  }

  lemma StepKeepsDeqKnowledge(q: Queue, place: map<nat, Place>, l: Local, t: Tid)
    requires Ready(q, place, l, t)
    ensures DeqKnows(Step(q, l, place), StepLocal(q, l))
  {
    hide DeqKnows, EnqKnows, Step, StepPlace, StepLocal, Grows;
    if l.pc in {DeqPtr, DeqCtr, DeqEnqPtr, DeqEnqCtr, DeqNextPtr, DeqNextCtr, DeqCheckPtr} {
      DeqReads(q, l);
      ReadsOnly(q, place, l);
    } else if l.pc == DeqCheckCtr {
      DeqDecides(q, place, l);
      ReadsOnly(q, place, l);
    } else if l.pc == DeqData {
      DeqLoads(q, l);
      ReadsOnly(q, place, l);
    } else {
      StepGrows(q, place, l, t);
      StepKeepsValid(q, place, l, t);
      DeqKnowledgeSurvives(q, Step(q, l, place), l);
      DeqIgnorant(q, Step(q, l, place), l);
    }
  }

  // ------------------------------------------------------------------- own elements

  lemma InitOwns(q: Queue, place: map<nat, Place>, l: Local, t: Tid)
    requires Valid(q, place) && Owns(q, place, l, t) && Writes(l.pc)
    ensures Owns(Step(q, l, place), place, StepLocal(q, l), t)
  {
    hide Valid, Step, StepLocal, Bears, Clear;
    WriteStep(q, place, l, t);
    InitLocal(q, l);
    hide Writes;
    WriteBears(q, place, l.elem, Step(q, l, place).heap[l.elem]);
  }

  lemma InitLocal(q: Queue, l: Local)
    requires Writes(l.pc)
    ensures var l' := StepLocal(q, l);
      && l'.elem == l.elem && l'.value == l.value && Owning(l'.pc) && l'.pc != DeqFe
      && l'.pc == (if l.pc == InitNextPtr then InitNextDraw else if l.pc == InitNextCtr then InitFe
                   else if l.pc == InitFe then InitData else EnqPtr)
  {
  }

  lemma WriteBears(q: Queue, place: map<nat, Place>, e: nat, n: Node)
    requires e in q.heap
    ensures n.next.ptr == NULL || (Bears(q.heap, place, e) && n.next.ptr == q.heap[e].next.ptr) ==>
      Bears(q.heap[e := n], place, e)
  {
  }

  /** A held element looks the same after the step. */
  lemma SameOwns(q: Queue, q': Queue, place: map<nat, Place>, place': map<nat, Place>, l: Local, t: Tid)
    requires Owns(q, place, l, t) && Owning(l.pc) && !Writes(l.pc) && !LinkFires(q, l) && l.pc != DeqFe
    requires Untouched(q, q', place, place', l.elem)
    requires l.pc == EnqCtr ==> Older(q', l.elem, q.last)
    ensures Owns(q', place', StepLocal(q, l), t)
  {
    hide Clear, Bears;
  }

  lemma HeadOwns(q: Queue, place: map<nat, Place>, l: Local, t: Tid)
    requires Valid(q, place) && DeqKnows(q, l) && l.pc == DeqSwap && q.deq == l.deq
    ensures Owns(Step(q, l, place), StepPlace(q, l, place, t), StepLocal(q, l), t)
  {
    HeadStep(q, place, l, t);
    HeadGoes(q, l);
    HeadKeepsHung(q, place, t);
    HeadKeepsTags(q, place, t);
    LiveNodes(q, place);
    hide DeqKnows, Chained, Placed, Retired, Aged, Hung, Ended, Tagged, TaggedBehind, TagsUsed, Step, StepPlace, Clear;
    ClearIgnoresHead(q, TakeHead(q, l), place[l.deq.ptr := Held(t)], l.deq.ptr);
  }

  lemma ClearIgnoresHead(q: Queue, q': Queue, place: map<nat, Place>, e: nat)
    requires Clear(q, place, e) && q'.nodes == q.nodes && q'.heap == q.heap
    ensures Clear(q', place, e)
  {
  }

  lemma NotOwning(q: Queue, l: Local)
    requires (!Owning(l.pc) && (l.pc == DeqSwap ==> q.deq != l.deq)) || l.pc == DeqFe || LinkFires(q, l)
    ensures !Owning(StepLocal(q, l).pc)
  {
  }

  lemma NoOwns(q: Queue, q': Queue, place: map<nat, Place>, l: Local, t: Tid)
    requires (!Owning(l.pc) && (l.pc == DeqSwap ==> q.deq != l.deq)) || l.pc == DeqFe || LinkFires(q, l)
    ensures Owns(q', place, StepLocal(q, l), t)
  {
    hide StepLocal, Owning, LinkFires;
    NotOwning(q, l);
  }

  lemma StepKeepsOwnership(q: Queue, place: map<nat, Place>, l: Local, t: Tid)
    requires Ready(q, place, l, t)
    ensures Owns(Step(q, l, place), StepPlace(q, l, place, t), StepLocal(q, l), t)
  {
    hide Valid, EnqKnows, DeqKnows, Step, StepPlace, StepLocal, Untouched;
    if Writes(l.pc) {
      WriteStep(q, place, l, t);
      InitOwns(q, place, l, t);
    } else if l.pc == DeqSwap && q.deq == l.deq {
      HeadOwns(q, place, l, t);
    } else if Owning(l.pc) && !LinkFires(q, l) && l.pc != DeqFe {
      StepSpares(q, place, l, t, l.elem);
      if l.pc == EnqCtr {
        OlderThanTail(q, place, l.elem);
        ReadsOnly(q, place, l);
      }
      SameOwns(q, Step(q, l, place), place, StepPlace(q, l, place, t), l, t);
    } else {
      NoOwns(q, Step(q, l, place), StepPlace(q, l, place, t), l, t);
    }
  }

  lemma OlderThanTail(q: Queue, place: map<nat, Place>, e: nat)
    requires Valid(q, place)
    ensures Older(q, e, q.last)
  {
    hide Chained, Loaded, Placed, Retired, Hung, Ended, Tagged, TaggedBehind, TagsUsed;
  }

  // ------------------------------------------------- what happens outside the queue

  /** An element moves between the freelist and a holder. */
  ghost predicate MovesOutside(q: Queue, place: map<nat, Place>, e: nat, p: Place) {
    && e in place && (place[e].Held? || place[e].Free?)
    && (p.Held? || (p.Free? && Clear(q, place, e)))
  }

  lemma MoveKeepsHung(q: Queue, place: map<nat, Place>, e: nat, p: Place)
    requires Valid(q, place) && MovesOutside(q, place, e, p)
    ensures Hung(q.heap, place[e := p], |q.nodes|) && Ended(q.heap, place[e := p], q.nodes)
    ensures TaggedBehind(q.heap, place[e := p], q.tags, q.tag, q.linked)
  {
    hide Chained, Loaded, Retired, Placed, Aged, Tagged, TagsUsed;
  }

  lemma MoveKeepsPlaces(q: Queue, place: map<nat, Place>, e: nat, p: Place)
    requires Valid(q, place) && MovesOutside(q, place, e, p)
    ensures Placed(place[e := p], q.nodes, q.first) && Retired(q.heap, q.nodes, place[e := p])
    ensures Aged(place[e := p], q.nodes, q.first, q.left)
  {
    hide Chained, Loaded, Hung, Ended, Tagged, TaggedBehind, TagsUsed;
  }

  lemma MoveKeepsValid(q: Queue, place: map<nat, Place>, e: nat, p: Place)
    requires Valid(q, place) && MovesOutside(q, place, e, p)
    ensures Valid(q, place[e := p])
  {
    MoveKeepsHung(q, place, e, p);
    MoveKeepsPlaces(q, place, e, p);
    hide Chained, Loaded, Retired, Placed, Aged, Hung, Ended, Tagged, TaggedBehind;
    UsedFrame(place, place[e := p], q.tags, q.tag, |q.linked|);
    hide TagsUsed;
  }

  /** Only hanging elements count. */
  lemma UsedFrame(place: map<nat, Place>, place': map<nat, Place>, tags: seq<nat>, tag: map<nat, nat>, n: nat)
    requires TagsUsed(place, tags, tag, n)
    requires forall c | c in place && place[c].Behind? :: c in place' && place'[c].Behind?
    ensures TagsUsed(place', tags, tag, n)
  {
    forall k: nat | k < n ensures TagUsed(place', tags, tag, k) {
      assert TagUsed(place, tags, tag, k);
      if c :| c in place && place[c].Behind? && c in tag && tag[c] == k {
        assert place'[c].Behind?;
      }
    }
  }

  lemma MoveSpares(q: Queue, place: map<nat, Place>, e: nat, p: Place, f: nat)
    requires Valid(q, place) && MovesOutside(q, place, e, p) && f in place && f != e
    ensures Untouched(q, q, place, place[e := p], f)
  {
    hide Hung, Ended, Chained, Loaded, Retired, Placed, Aged, Tagged, TaggedBehind, TagsUsed;
  }

  lemma CreateKeepsHung(q: Queue, place: map<nat, Place>, e: nat, n: Node, t: Tid)
    requires Valid(q, place) && e != NULL && e !in q.heap
    ensures var heap', place' := q.heap[e := n], place[e := Held(t)];
      && Hung(heap', place', |q.nodes|) && Ended(heap', place', q.nodes)
      && TaggedBehind(heap', place', q.tags, q.tag, q.linked) && Clear(SetNode(q, e, n), place', e)
  {
    hide Chained, Loaded, Retired, Placed, Aged, Tagged, TagsUsed;
  }

  lemma CreateKeepsChain(q: Queue, place: map<nat, Place>, e: nat, n: Node, t: Tid)
    requires Valid(q, place) && e != NULL && e !in q.heap
    ensures var heap', place' := q.heap[e := n], place[e := Held(t)];
      && Chained(heap', q.nodes, q.first) && Loaded(heap', q.nodes, q.values, q.first)
      && Retired(heap', q.nodes, place') && Placed(place', q.nodes, q.first)
  {
    hide Hung, Ended, Aged, Tagged, TaggedBehind, TagsUsed;
    var heap' := q.heap[e := n];
    forall i | q.first <= i < |q.nodes| - 1 ensures NextIs(heap', q.nodes, i) {
      assert NextIs(q.heap, q.nodes, i);
    }
  }

  lemma CreateKeepsAged(q: Queue, place: map<nat, Place>, e: nat, t: Tid)
    requires Valid(q, place) && e !in q.heap
    ensures Aged(place[e := Held(t)], q.nodes, q.first, q.left)
  {
    assert forall c | c in place && place[c].Behind? :: place[c].parent in place && place[c].parent != e by {
      hide Chained, Loaded, Retired, Placed, Aged, Ended, Tagged, TaggedBehind, TagsUsed;
    }
    hide Chained, Loaded, Retired, Placed, Hung, Ended, Tagged, TaggedBehind, TagsUsed;
  }

  /** A new element. */
  lemma CreateKeepsValid(q: Queue, place: map<nat, Place>, e: nat, n: Node, t: Tid)
    requires Valid(q, place) && e != NULL && e !in q.heap
    ensures Valid(SetNode(q, e, n), place[e := Held(t)]) && Clear(SetNode(q, e, n), place[e := Held(t)], e)
  {
    CreateKeepsHung(q, place, e, n, t);
    CreateKeepsChain(q, place, e, n, t);
    CreateKeepsAged(q, place, e, t);
    hide Chained, Loaded, Retired, Placed, Aged, Hung, Ended, Tagged, TaggedBehind, Clear;
    UsedFrame(place, place[e := Held(t)], q.tags, q.tag, |q.linked|);
    hide TagsUsed;
  }

  lemma CreateSpares(q: Queue, place: map<nat, Place>, e: nat, n: Node, t: Tid, f: nat)
    requires Valid(q, place) && e !in q.heap && f in place
    ensures Untouched(q, SetNode(q, e, n), place, place[e := Held(t)], f) && f in q.heap && f != e
  {
    hide Hung, Ended, Chained, Loaded, Retired, Placed, Aged, Tagged, TaggedBehind, TagsUsed;
  }

  lemma CreateGrows(q: Queue, place: map<nat, Place>, e: nat, n: Node)
    requires Valid(q, place) && e !in q.heap
    ensures Grows(q, SetNode(q, e, n))
  {
    LiveNodes(q, place);
    EndsOfValid(q, place);
    hide Valid;
  }
}
