/** The freelist: a stack of elements changed by double-word compare-and-swap on
    `top`, with a counter drawn from `aba_counter` by every push.

    Each step of a call is one access to shared memory; purely local tests are
    part of the access that precedes them. */
module Freelist {
  import opened Words

  /** The first four fields are the program's memory.  The rest is history, which no
      step reads to decide what to do:
        stack    the pairs on the freelist, top first
        used     the counters that some push has put on the freelist
        issued   the counters drawn so far, with the thread that drew them
        commits  the number of successful swaps of `top`
        place    where every created element is */
  datatype Freelist = Freelist(
    top: Pair,
    aba: nat,
    count: nat,
    next: map<nat, Pair>,
    stack: seq<Pair>,
    used: set<nat>,
    issued: map<nat, Tid>,
    commits: nat,
    place: map<nat, Place>)

  datatype Pc =
    | PopCtr | PopPtr | PopNextPtr | PopNextCtr | PopSwap
    | PushDraw | PushTopPtr | PushTopCtr | PushNextPtr | PushNextCtr | PushSwap
    | Done

  /** The locals of one call.  `top` is the double word last read from the freelist's
      top, `below` the double word read from the element to pop, `mark` the number of
      commits when the current pass began. */
  datatype Frame = Frame(pc: Pc, elem: nat, top: Pair, below: Pair, ticket: nat, mark: nat)

  function PopCall(): Frame {
    Frame(PopCtr, NULL, NONE, NONE, 0, 0)
  }

  function PushCall(elem: nat): Frame {
    Frame(PushDraw, elem, NONE, NONE, 0, 0)
  }

  function Load(next: map<nat, Pair>, p: nat): Pair {
    if p in next then next[p] else NONE
  }

  function First(stack: seq<Pair>): Pair {
    if stack == [] then NONE else stack[0]
  }

  function Rest(stack: seq<Pair>): seq<Pair> {
    if stack == [] then [] else stack[1..]
  }

  /** What one call of thread `t` does to shared memory in its next step. */
  function StepShared(fl: Freelist, fr: Frame, t: Tid): Freelist {
    match fr.pc
    case PushDraw =>
      fl.(aba := fl.aba + 1, issued := fl.issued[fl.aba + 1 := t])
    case PushNextPtr =>
      fl.(next := fl.next[fr.elem := Load(fl.next, fr.elem).(ptr := fr.top.ptr)])
    case PushNextCtr =>
      fl.(next := fl.next[fr.elem := Load(fl.next, fr.elem).(ctr := fr.top.ctr)])
    case PopSwap =>
      if fl.top != fr.top then fl else
      fl.(top := fr.below, stack := Rest(fl.stack), commits := fl.commits + 1,
          place := fl.place[fr.top.ptr := Held(t)])
    case PushSwap =>
      if fl.top != fr.top then fl else
      fl.(top := Pair(fr.elem, fr.ticket), stack := [Pair(fr.elem, fr.ticket)] + fl.stack,
          used := fl.used + {fr.ticket}, commits := fl.commits + 1,
          place := fl.place[fr.elem := Free(fr.ticket)])
    case _ => fl
  }

  /** What the same step does to the locals of the call. */
  function StepFrame(fl: Freelist, fr: Frame): Frame {
    match fr.pc
    case PopCtr => fr.(pc := PopPtr, top := fr.top.(ctr := fl.top.ctr), mark := fl.commits)
    case PopPtr => TestTop(fr.(top := fr.top.(ptr := fl.top.ptr)))
    case PopNextPtr => fr.(pc := PopNextCtr, below := fr.below.(ptr := Load(fl.next, fr.top.ptr).ptr))
    case PopNextCtr => fr.(pc := PopSwap, below := fr.below.(ctr := Load(fl.next, fr.top.ptr).ctr))
    case PopSwap =>
      if fl.top == fr.top then fr.(pc := Done, elem := fr.top.ptr)
      else TestTop(fr.(top := fl.top, mark := fl.commits))
    case PushDraw => fr.(pc := PushTopPtr, ticket := fl.aba + 1)
    case PushTopPtr => fr.(pc := PushTopCtr, top := fr.top.(ptr := fl.top.ptr), mark := fl.commits)
    case PushTopCtr => fr.(pc := PushNextPtr, top := fr.top.(ctr := fl.top.ctr))
    case PushNextPtr => fr.(pc := PushNextCtr)
    case PushNextCtr => fr.(pc := PushSwap)
    case PushSwap =>
      if fl.top == fr.top then fr.(pc := Done)
      else fr.(pc := PushNextPtr, top := fl.top, mark := fl.commits)
    case Done => fr
  }

  /** The test at the head of the pop loop. */
  function TestTop(fr: Frame): Frame {
    if fr.top.ptr == NULL then fr.(pc := Done, elem := NULL) else fr.(pc := PopNextPtr)
  }

  // ---------------------------------------------------------------- invariant

  /** Every element of the stack points at the pair directly below it. */
  ghost predicate Linked(next: map<nat, Pair>, s: seq<Pair>) {
    && (forall i | 0 <= i < |s| :: s[i].ptr in next)
    && (forall i, j | 0 <= i && j == i + 1 && j < |s| :: next[s[i].ptr] == s[j])
    && (s != [] ==> next[s[|s| - 1].ptr] == NONE)
  }

  /** The stack holds exactly the free elements, each once, with the counter it was pushed with. */
  ghost predicate Placed(place: map<nat, Place>, s: seq<Pair>) {
    && (forall i | 0 <= i < |s| :: OnStack(place, s[i]))
    && (forall i, j | 0 <= i < j < |s| :: s[i].ptr != s[j].ptr)
    && (forall e | e in place && place[e].Free? :: Pair(e, place[e].ctr) in s)
  }

  ghost predicate OnStack(place: map<nat, Place>, p: Pair) {
    p.ptr in place && place[p.ptr] == Free(p.ctr)
  }

  /** Counters on the freelist were drawn, and drawn counters are never reused. */
  ghost predicate Counted(fl: Freelist) {
    && fl.used <= fl.issued.Keys
    && (forall c | c in fl.issued :: 0 < c <= fl.aba)
    && (forall e | e in fl.place && fl.place[e].Free? :: fl.place[e].ctr in fl.used)
  }

  ghost predicate Valid(fl: Freelist) {
    && fl.top == First(fl.stack)
    && Linked(fl.next, fl.stack)
    && Placed(fl.place, fl.stack)
    && Counted(fl)
    && NULL !in fl.next
    && fl.place.Keys == fl.next.Keys
  }

  ghost predicate Read(fl: Freelist, c: nat) {
    c == 0 || c in fl.used
  }

  /** What the locals of a call of thread `t` tell about shared memory.  A pair that a
      pop has read is only known to be current while it is on the stack. */
  ghost predicate Knows(fl: Freelist, fr: Frame, t: Tid) {
    && fr.mark <= fl.commits
    && match fr.pc
       case PopCtr => true
       case PopPtr =>
         && Read(fl, fr.top.ctr)
         && (fr.mark == fl.commits ==> fr.top.ctr == fl.top.ctr)
       case PopNextPtr => Popping(fl, fr)
       case PopNextCtr =>
         && Popping(fl, fr)
         && (OnStack(fl.place, fr.top) ==> fr.below.ptr == Load(fl.next, fr.top.ptr).ptr)
       case PopSwap =>
         && Popping(fl, fr)
         && (OnStack(fl.place, fr.top) ==> fr.below == Load(fl.next, fr.top.ptr))
       case PushDraw => Holding(fl, fr, t)
       case PushTopPtr => Holding(fl, fr, t) && Ticketed(fl, fr, t)
       case PushTopCtr =>
         && Holding(fl, fr, t) && Ticketed(fl, fr, t)
         && (fr.mark == fl.commits ==> fr.top.ptr == fl.top.ptr)
       case PushNextPtr => Pushing(fl, fr, t)
       case PushNextCtr => Pushing(fl, fr, t) && fl.next[fr.elem].ptr == fr.top.ptr
       case PushSwap => Pushing(fl, fr, t) && fl.next[fr.elem] == fr.top
       case Done => true
  }

  ghost predicate Popping(fl: Freelist, fr: Frame) {
    && Read(fl, fr.top.ctr)
    && fr.top.ptr in fl.next
    && (fr.mark == fl.commits ==> fr.top == fl.top)
  }

  ghost predicate Holding(fl: Freelist, fr: Frame, t: Tid) {
    fr.elem in fl.next && fr.elem in fl.place && fl.place[fr.elem] == Held(t)
  }

  ghost predicate Ticketed(fl: Freelist, fr: Frame, t: Tid) {
    fr.ticket in fl.issued && fl.issued[fr.ticket] == t && fr.ticket !in fl.used
  }

  ghost predicate Pushing(fl: Freelist, fr: Frame, t: Tid) {
    && Holding(fl, fr, t)
    && Ticketed(fl, fr, t)
    && (fr.mark == fl.commits ==> fr.top == fl.top)
  }

  /** A change made by thread `u` that every other thread's knowledge survives: history
      only grows, no pair comes back, and elements on the stack or held by others keep
      their links. */
  ghost predicate Evolves(fl: Freelist, fl': Freelist, u: Tid) {
    && fl.commits <= fl'.commits
    && (fl.commits == fl'.commits ==> fl.top == fl'.top)
    && fl.used <= fl'.used
    && fl.next.Keys <= fl'.next.Keys
    && fl.issued.Keys <= fl'.issued.Keys
    && (forall c | c in fl.issued :: fl'.issued[c] == fl.issued[c])
    && (forall c | c in fl'.used && c !in fl.used :: c in fl.issued && fl.issued[c] == u)
    && fl.place.Keys <= fl'.place.Keys
    && (forall e | e in fl'.place && fl'.place[e].Free? && Read(fl, fl'.place[e].ctr) ::
          && e in fl.place && fl.place[e] == fl'.place[e]
          && Load(fl'.next, e) == Load(fl.next, e))
    && (forall e | e in fl.place && fl.place[e].Held? && fl.place[e].owner != u ::
          && fl'.place[e] == fl.place[e]
          && Load(fl'.next, e) == Load(fl.next, e))
  }

  /** Writing an element that is not on the stack keeps the links of the stack. */
  lemma LinkedFrame(next: map<nat, Pair>, next': map<nat, Pair>, s: seq<Pair>)
    requires Linked(next, s)
    requires forall i | 0 <= i < |s| :: s[i].ptr in next' && next'[s[i].ptr] == next[s[i].ptr]
    ensures Linked(next', s)
  {
  }

  /** Another thread's knowledge survives. */
  lemma KnowledgeSurvives(fl: Freelist, fl': Freelist, u: Tid, fr: Frame, t: Tid)
    requires t != u && Evolves(fl, fl', u) && Knows(fl, fr, t)
    ensures Knows(fl', fr, t)
  {
  }

  lemma PlacedPop(place: map<nat, Place>, s: seq<Pair>, t: Tid)
    requires Placed(place, s) && s != []
    ensures Placed(place[s[0].ptr := Held(t)], s[1..])
  {
    var place' := place[s[0].ptr := Held(t)];
    forall e | e in place' && place'[e].Free? ensures Pair(e, place'[e].ctr) in s[1..] {
      var i :| 0 <= i < |s| && s[i] == Pair(e, place[e].ctr);
      assert s[1..][i - 1] == s[i];
    }
  }

  lemma PlacedPush(place: map<nat, Place>, s: seq<Pair>, p: Pair)
    requires Placed(place, s) && p.ptr in place && !place[p.ptr].Free?
    ensures Placed(place[p.ptr := Free(p.ctr)], [p] + s)
  {
    var place', s' := place[p.ptr := Free(p.ctr)], [p] + s;
    forall i | 0 <= i < |s'| ensures OnStack(place', s'[i]) {
      assert i > 0 ==> OnStack(place, s[i - 1]);
    }
    forall e | e in place' && place'[e].Free? && e != p.ptr ensures Pair(e, place'[e].ctr) in s' {
      assert Pair(e, place[e].ctr) in s;
    }
  }

  lemma LinkedPush(next: map<nat, Pair>, s: seq<Pair>, p: Pair)
    requires Linked(next, s) && p.ptr in next && next[p.ptr] == First(s)
    ensures Linked(next, [p] + s)
  {
    var s' := [p] + s;
    forall i, j | 0 <= i && j == i + 1 && j < |s'| ensures next[s'[i].ptr] == s'[j] {
      assert s'[j] == s[j - 1] && (i > 0 ==> s'[i] == s[i - 1]);
    }
  }

  /** A successful pop replaces `top` by exactly the pair directly below it. */
  lemma SwapPop(fl: Freelist, fr: Frame, t: Tid)
    requires Valid(fl) && Knows(fl, fr, t) && fr.pc == PopSwap && fl.top == fr.top
    ensures |fl.stack| > 0 && fl.stack[0] == fr.top && First(fl.stack[1..]) == fr.below
    ensures Valid(StepShared(fl, fr, t))
  {
    assert OnStack(fl.place, fl.stack[0]);
    PlacedPop(fl.place, fl.stack, t);
  }

  lemma SwapPush(fl: Freelist, fr: Frame, t: Tid)
    requires Valid(fl) && Knows(fl, fr, t) && fr.pc == PushSwap && fl.top == fr.top
    ensures Valid(StepShared(fl, fr, t))
  {
    PlacedPush(fl.place, fl.stack, Pair(fr.elem, fr.ticket));
    LinkedPush(fl.next, fl.stack, Pair(fr.elem, fr.ticket));
  }

  lemma WriteLink(fl: Freelist, fr: Frame, t: Tid)
    requires Valid(fl) && Knows(fl, fr, t) && (fr.pc == PushNextPtr || fr.pc == PushNextCtr)
    ensures Valid(StepShared(fl, fr, t))
  {
    LinkedFrame(fl.next, StepShared(fl, fr, t).next, fl.stack);
  }

  /** Every step keeps the invariant, whatever the other threads know. */
  lemma StepKeepsValid(fl: Freelist, fr: Frame, t: Tid)
    requires Valid(fl) && Knows(fl, fr, t)
    ensures Valid(StepShared(fl, fr, t))
  {
    match fr.pc
    case PushNextPtr => WriteLink(fl, fr, t);
    case PushNextCtr => WriteLink(fl, fr, t);
    case PopSwap => if fl.top == fr.top { SwapPop(fl, fr, t); }
    case PushSwap => if fl.top == fr.top { SwapPush(fl, fr, t); }
    case _ =>
  }

  lemma StepEvolves(fl: Freelist, fr: Frame, t: Tid)
    requires Valid(fl) && Knows(fl, fr, t)
    ensures Evolves(fl, StepShared(fl, fr, t), t)
  {
  }

  predicate IsPop(pc: Pc) {
    pc in {PopCtr, PopPtr, PopNextPtr, PopNextCtr, PopSwap}
  }

  lemma PopKnows(fl: Freelist, fr: Frame, t: Tid)
    requires Valid(fl) && Knows(fl, fr, t) && IsPop(fr.pc)
    ensures Knows(StepShared(fl, fr, t), StepFrame(fl, fr), t)
  {
    if fl.stack != [] {
      assert OnStack(fl.place, fl.stack[0]);
    }
  }

  lemma PushKnows(fl: Freelist, fr: Frame, t: Tid)
    requires Valid(fl) && Knows(fl, fr, t) && !IsPop(fr.pc)
    ensures Knows(StepShared(fl, fr, t), StepFrame(fl, fr), t)
  {
    hide Linked, Placed;
  }

  /** The stepping thread's new locals are right about the new memory. */
  lemma StepKeepsKnowledge(fl: Freelist, fr: Frame, t: Tid)
    requires Valid(fl) && Knows(fl, fr, t)
    ensures Knows(StepShared(fl, fr, t), StepFrame(fl, fr), t)
  {
    hide Valid, Knows, StepShared, StepFrame;
    if IsPop(fr.pc) {
      PopKnows(fl, fr, t);
    } else {
      PushKnows(fl, fr, t);
    }
  }

  /** Moving an element between the queue and its holder does not concern the freelist. */
  lemma MoveKeepsValid(fl: Freelist, e: nat, p: Place, t: Tid)
    requires Valid(fl) && e in fl.place && !fl.place[e].Free? && !p.Free?
    requires fl.place[e].Held? ==> fl.place[e].owner == t
    ensures var fl' := fl.(place := fl.place[e := p]); Valid(fl') && Evolves(fl, fl', t)
  {
    hide Linked;
  }

  lemma Stays(fl: Freelist, t: Tid)
    requires Valid(fl)
    ensures Evolves(fl, fl, t)
  {
  }
}
