/** From any state of any schedule, a thread that runs alone finishes the call it is in. */
module Solo {
  import opened Words
  import opened Machine
  import opened MachineInvariant
  import opened MachineOrder
  import opened Fifo
  import opened Calls
  import opened Progress
  import F = Freelist
  import Q = Queue
  import I = QueueInvariant
  import O = QueueOrder
  import G = Guarantees
  import A = Answers

  // -------------------------------------------------------------------------- ranks

  ghost function Hanging(place: map<nat, Place>): set<nat> {
    set e | e in place && place[e].Behind?
  }

  /** How often `enq` can be swung before it is at the end: the nodes after it in the chain,
      and those that hang behind something. */
  ghost function Lag(q: Q.Queue, place: map<nat, Place>): nat {
    (if q.last < |q.nodes| then |q.nodes| - 1 - q.last else 0) + |Hanging(place)|
  }

  /** How many more steps a pass through a loop has, at most. */
  function Left(pc: Q.Pc): nat {
    match pc
    case EnqCtr => 7 case EnqNextPtr => 6 case EnqNextCtr => 5 case EnqCheckPtr => 4 case EnqCheckCtr => 3
    case EnqLink | EnqHelp => 2
    case DeqCtr => 11 case DeqEnqPtr => 10 case DeqEnqCtr => 9 case DeqNextPtr => 8 case DeqNextCtr => 7
    case DeqCheckPtr => 6 case DeqCheckCtr => 5 case DeqHelp | DeqData => 4 case DeqSwap => 3
    case InitDraw => 6 case InitNextPtr => 5 case InitNextDraw => 4 case InitNextCtr => 3 case InitFe => 2
    case InitData => 1
    case _ => 0
  }

  /** A helping pass is needed before a value can be taken. */
  function Behindhand(q: Q.Queue): nat {
    if q.first == q.last then 1 else 0
  }

  predicate InEnqPass(pc: Q.Pc) {
    pc in {Q.EnqCtr, Q.EnqNextPtr, Q.EnqNextCtr, Q.EnqCheckPtr, Q.EnqCheckCtr, Q.EnqLink, Q.EnqHelp}
  }

  predicate InDeqPass(pc: Q.Pc) {
    || pc in {Q.DeqCtr, Q.DeqEnqPtr, Q.DeqEnqCtr, Q.DeqNextPtr, Q.DeqNextCtr, Q.DeqCheckPtr, Q.DeqCheckCtr}
    || pc in {Q.DeqHelp, Q.DeqData, Q.DeqSwap}
  }

  predicate InInit(pc: Q.Pc) {
    pc in {Q.InitDraw, Q.InitNextPtr, Q.InitNextDraw, Q.InitNextCtr, Q.InitFe, Q.InitData}
  }

  /** A pass that began before the last successful swap is not `current`: it may fail and start
      again. */
  function PassRank(pc: Q.Pc, lag: nat, behind: nat, current: bool): nat {
    if pc == Q.EnqPtr then 8 * lag + 8
    else if InInit(pc) then 8 * lag + 8 + Left(pc)
    else if InEnqPass(pc) then 8 * lag + (if current then 0 else 8) + Left(pc)
    else if pc == Q.EnqSwing then 1
    else if pc == Q.DeqPtr then 12 * behind + 12 + 8
    else if InDeqPass(pc) then 12 * behind + (if current then 0 else 12) + Left(pc) + 8
    else if pc == Q.DeqFe then 8
    else 0
  }

  ghost function LoopRank(q: Q.Queue, place: map<nat, Place>, l: Q.Local): nat {
    PassRank(l.pc, Lag(q, place), Behindhand(q), l.mark == q.commits)
  }

  function FrameRank(fl: F.Freelist, f: F.Frame): nat {
    var stale := if f.mark == fl.commits then 0 else 4;
    match f.pc
    case PopCtr => 5
    case PopPtr => 4 + stale
    case PopNextPtr => 3 + stale
    case PopNextCtr => 2 + stale
    case PopSwap => 1 + stale
    case PushDraw => 6
    case PushTopPtr => 5
    case PushTopCtr => 4 + stale
    case PushNextPtr => 3 + stale
    case PushNextCtr => 2 + stale
    case PushSwap => 1 + stale
    case Done => 0
  }

  /** No more steps than this until the call returns, if no other thread moves. */
  ghost function Rank(fl: F.Freelist, q: Q.Queue, th: Thread): nat {
    match th.q.pc
    case Idle | Return => 0
    case Create => 8 * Lag(q, fl.place) + 15
    case Acquire => 8 * Lag(q, fl.place) + 15 + FrameRank(fl, th.f)
    case Release => 1 + FrameRank(fl, th.f)
    case _ => LoopRank(q, fl.place, th.q)
  }

  // ------------------------------------------------------------------ frames get done

  lemma FrameStep(fl: F.Freelist, f: F.Frame, t: Tid)
    requires F.Valid(fl) && F.Knows(fl, f, t) && f.pc != F.Done
    ensures FrameRank(F.StepShared(fl, f, t), F.StepFrame(fl, f)) < FrameRank(fl, f)
  {
    hide F.Linked, F.Placed, F.Counted;
  }

  // ------------------------------------------------------------------- steps and lag

  lemma SameHanging(place: map<nat, Place>, place': map<nat, Place>)
    requires forall e | e in place && place[e].Behind? :: e in place' && place'[e].Behind?
    requires forall e | e in place' && place'[e].Behind? :: e in place && place[e].Behind?
    ensures |Hanging(place')| == |Hanging(place)|
  {
    assert Hanging(place') == Hanging(place);
  }

  /** A successful swing brings `enq` one node closer to the end. */
  lemma SwingLag(q: Q.Queue, place: map<nat, Place>, l: Q.Local, t: Tid)
    requires Q.Valid(q, place) && Q.Knows(q, l) && I.Swings(l.pc) && q.enq == l.enq
    ensures Lag(Q.Step(q, l, place), Q.StepPlace(q, l, place, t)) == Lag(q, place) - 1
    ensures var q' := Q.Step(q, l, place); q'.first == q.first && q'.last == q.last + 1 && q'.commits == q.commits + 1
  {
    I.EndsOfValid(q, place);
    I.SwingFollows(q, l);
    I.SwingStep(q, place, l, t);
    hide Q.Step, Q.StepPlace, Q.EnqKnows, Q.DeqKnows;
    var p := Q.Target(l);
    if q.last + 1 >= |q.nodes| {
      I.TailHangs(q, place, p);
      assert Hanging(place[p := Live(|q.nodes|)]) == Hanging(place) - {p};
    }
    hide Q.Valid;
  }

  /** Steps other than links and swings leave the chain's end, `enq` and what hangs alone. */
  lemma SameEnd(q: Q.Queue, place: map<nat, Place>, l: Q.Local, t: Tid)
    requires I.Ready(q, place, l, t) && !Q.LinkFires(q, l) && (I.Swings(l.pc) ==> q.enq != l.enq)
    ensures var q', place' := Q.Step(q, l, place), Q.StepPlace(q, l, place, t);
      && q'.last == q.last && |q'.nodes| == |q.nodes|
      && (l.pc != Q.DeqSwap || q.deq != l.deq ==> q'.first == q.first && q'.commits == q.commits)
      && (place' == place || (l.deq.ptr in place && place[l.deq.ptr].Live? && place' == place[l.deq.ptr := Held(t)]))
  {
    I.LiveNodes(q, place);
    I.EndsOfValid(q, place);
    hide Q.Valid, Q.Ends, Q.EnqKnows, Q.DeqKnows, Q.Step, Q.StepPlace, Q.Bears, Q.Clear, Q.LinkFires;
    if I.Writes(l.pc) {
      I.WriteStep(q, place, l, t);
    } else if l.pc == Q.DeqSwap && q.deq == l.deq {
      I.HeadStep(q, place, l, t);
    } else {
      I.QuietStep(q, place, l, t);
    }
  }

  lemma SameLag(q: Q.Queue, place: map<nat, Place>, l: Q.Local, t: Tid)
    requires I.Ready(q, place, l, t) && !Q.LinkFires(q, l) && (I.Swings(l.pc) ==> q.enq != l.enq)
    ensures Lag(Q.Step(q, l, place), Q.StepPlace(q, l, place, t)) == Lag(q, place)
    ensures var q' := Q.Step(q, l, place);
      && q'.last == q.last
      && (l.pc != Q.DeqSwap || q.deq != l.deq ==> q'.first == q.first && q'.commits == q.commits)
  {
    SameEnd(q, place, l, t);
    I.EndsOfValid(q, place);
    hide I.Ready, I.Swings, Q.Ends, Q.LinkFires, Q.Step, Q.StepPlace, Lag, Hanging;
    LagIs(q, place);
    LagIs(Q.Step(q, l, place), Q.StepPlace(q, l, place, t));
    SameHanging(place, Q.StepPlace(q, l, place, t));
  }

  lemma LagIs(q: Q.Queue, place: map<nat, Place>)
    requires q.last < |q.nodes|
    ensures Lag(q, place) == |q.nodes| - 1 - q.last + |Hanging(place)|
  {
  }

  // ---------------------------------------------------------------- queue steps rank

  /** What the locals look like after a step of an enqueue. */
  lemma EnqStep(q: Q.Queue, l: Q.Local)
    requires Watched(q, l) && Q.EnqKnows(q, l)
    requires InEnqPass(l.pc) || l.pc == Q.EnqPtr
    ensures var l' := Q.StepLocal(q, l);
      && (l.pc == Q.EnqPtr ==> l'.pc == Q.EnqCtr && l'.mark == q.commits)
      && (l.pc != Q.EnqPtr ==> l'.mark == l.mark)
      && (l'.pc == Q.EnqPtr || l'.pc == Q.EnqSwing || Further(l.pc, l'.pc))
      && (l'.pc == Q.EnqSwing <==> Q.LinkFires(q, l))
      && (l.pc == Q.EnqHelp ==> l'.pc == Q.EnqPtr)
    ensures var l' := Q.StepLocal(q, l);
      l'.pc == Q.EnqPtr && l.mark == q.commits ==> l.pc == Q.EnqHelp && l.enq == q.enq
  {
  }

  /** From the head of a loop into a pass, or one step on in it. */
  predicate Further(pc: Q.Pc, pc': Q.Pc) {
    || (pc == Q.EnqPtr && pc' == Q.EnqCtr)
    || (pc == Q.DeqPtr && pc' == Q.DeqCtr)
    || (InEnqPass(pc) && InEnqPass(pc') && Left(pc') < Left(pc))
    || (InDeqPass(pc) && InDeqPass(pc') && Left(pc') < Left(pc))
  }

  /** Going on in a pass, with the same lag. */
  lemma FurtherRanks(pc: Q.Pc, pc': Q.Pc, lag: nat, behind: nat, current: bool, current': bool)
    requires Further(pc, pc') && (if pc in {Q.EnqPtr, Q.DeqPtr} then current' else current' == current)
    ensures PassRank(pc', lag, behind, current') < PassRank(pc, lag, behind, current)
  {
    if pc == Q.EnqPtr || pc == Q.DeqPtr {
    } else {
      PassIs(pc, lag, behind, current);
      PassIs(pc', lag, behind, current');
      hide PassRank, Left, InEnqPass, InDeqPass;
    }
  }

  lemma PassIs(pc: Q.Pc, lag: nat, behind: nat, current: bool)
    ensures InEnqPass(pc) ==>
      PassRank(pc, lag, behind, current) == 8 * lag + (if current then 0 else 8) + Left(pc) && !InDeqPass(pc)
    ensures InDeqPass(pc) ==>
      PassRank(pc, lag, behind, current) == 12 * behind + (if current then 0 else 12) + Left(pc) + 8
  {
    hide Left;
  }

  lemma EnqEndRanks(pc: Q.Pc, pc': Q.Pc, lag: nat, behind: nat, current: bool, lag': nat, behind': nat, current': bool)
    requires InEnqPass(pc)
    requires pc' == Q.EnqSwing || (pc' == Q.EnqPtr && (lag' < lag || (lag' == lag && !current)))
    ensures PassRank(pc', lag', behind', current') < PassRank(pc, lag, behind, current)
  {
  }

  lemma DeqEndRanks(pc: Q.Pc, pc': Q.Pc, lag: nat, behind: nat, current: bool, lag': nat, behind': nat, current': bool)
    requires InDeqPass(pc)
    requires pc' in {Q.Return, Q.DeqFe} || (pc' == Q.DeqPtr && (behind' < behind || (behind' <= behind && !current)))
    ensures PassRank(pc', lag', behind', current') < PassRank(pc, lag, behind, current)
  {
  }

  lemma EnqRanks(q: Q.Queue, place: map<nat, Place>, l: Q.Local, t: Tid)
    requires I.Ready(q, place, l, t) && Watched(q, l) && (InEnqPass(l.pc) || l.pc == Q.EnqPtr)
    ensures LoopRank(Q.Step(q, l, place), Q.StepPlace(q, l, place, t), Q.StepLocal(q, l)) < LoopRank(q, place, l)
  {
    hide Q.Valid, Q.EnqKnows, Q.DeqKnows, Q.Owns, Q.Step, Q.StepPlace, Q.StepLocal, Lag, Watched, Q.LinkFires;
    hide PassRank, Left, InDeqPass, Behindhand;
    EnqStep(q, l);
    var l', q', place' := Q.StepLocal(q, l), Q.Step(q, l, place), Q.StepPlace(q, l, place, t);
    if !Q.LinkFires(q, l) && I.Swings(l.pc) && q.enq == l.enq {
      SwingLag(q, place, l, t);
    } else if !Q.LinkFires(q, l) {
      SameLag(q, place, l, t);
    }
    if l'.pc == Q.EnqSwing || l'.pc == Q.EnqPtr {
      EnqEndRanks(l.pc, l'.pc, Lag(q, place), Behindhand(q), l.mark == q.commits,
                  Lag(q', place'), Behindhand(q'), l'.mark == q'.commits);
    } else {
      SameBehindhand(q, q');
      FurtherRanks(l.pc, l'.pc, Lag(q, place), Behindhand(q), l.mark == q.commits, l'.mark == q'.commits);
    }
  }

  lemma BehindhandIs(q: Q.Queue)
    ensures Behindhand(q) == if q.first == q.last then 1 else 0
  {
  }

  lemma SameBehindhand(q: Q.Queue, q': Q.Queue)
    requires q'.first == q.first && q'.last == q.last
    ensures Behindhand(q') == Behindhand(q)
  {
  }

  lemma DeqStep(q: Q.Queue, l: Q.Local)
    requires Watched(q, l) && Q.DeqKnows(q, l) && (InDeqPass(l.pc) || l.pc == Q.DeqPtr)
    ensures var l' := Q.StepLocal(q, l);
      && (l.pc == Q.DeqPtr ==> l'.pc == Q.DeqCtr && l'.mark == q.commits)
      && (l.pc != Q.DeqPtr ==> l'.mark == l.mark)
      && (l'.pc in {Q.DeqPtr, Q.Return, Q.DeqFe} || Further(l.pc, l'.pc))
      && (l.pc == Q.DeqSwap && q.deq == l.deq ==> l'.pc == Q.DeqFe)
      && (l.pc == Q.DeqHelp ==> l'.pc == Q.DeqPtr)
      && (l'.pc == Q.DeqPtr && l.mark == q.commits ==> l.pc == Q.DeqHelp)
  {
  }

  /** A helping step of a pass that is current finds `enq` at the head, and moves it. */
  lemma HelpAtHead(q: Q.Queue, place: map<nat, Place>, l: Q.Local)
    requires Q.Valid(q, place) && Q.DeqKnows(q, l) && Watched(q, l) && l.pc == Q.DeqHelp && l.mark == q.commits
    ensures l.enq == q.enq && q.first == q.last
  {
    I.LiveNodes(q, place);
    I.EndsOfValid(q, place);
    HelpIs(q, l);
    hide Q.Valid, Q.DeqKnows, Watched;
  }

  lemma HelpIs(q: Q.Queue, l: Q.Local)
    requires Q.DeqKnows(q, l) && Watched(q, l) && l.pc == Q.DeqHelp && l.mark == q.commits
    ensures l.enq == q.enq && l.deq == q.deq && l.enq.ptr == l.deq.ptr
  {
  }

  lemma DeqRanks(q: Q.Queue, place: map<nat, Place>, l: Q.Local, t: Tid)
    requires I.Ready(q, place, l, t) && Watched(q, l) && (InDeqPass(l.pc) || l.pc == Q.DeqPtr)
    ensures LoopRank(Q.Step(q, l, place), Q.StepPlace(q, l, place, t), Q.StepLocal(q, l)) < LoopRank(q, place, l)
  {
    hide Q.Valid, Q.EnqKnows, Q.DeqKnows, Q.Owns, Q.Step, Q.StepPlace, Q.StepLocal, Lag, Watched, Q.LinkFires;
    hide PassRank, Left, InEnqPass, Behindhand, Q.Ends;
    I.EndsOfValid(q, place);
    DeqStep(q, l);
    NoLink(q, l);
    var l', q', place' := Q.StepLocal(q, l), Q.Step(q, l, place), Q.StepPlace(q, l, place, t);
    if l'.pc == Q.DeqPtr && l.mark == q.commits {
      HelpAtHead(q, place, l);
    }
    if I.Swings(l.pc) && q.enq == l.enq {
      SwingLag(q, place, l, t);
    } else {
      SameLag(q, place, l, t);
    }
    BehindhandIs(q);
    BehindhandIs(q');
    hide Further;
    if l'.pc in {Q.Return, Q.DeqFe, Q.DeqPtr} {
      DeqEndRanks(l.pc, l'.pc, Lag(q, place), Behindhand(q), l.mark == q.commits,
                  Lag(q', place'), Behindhand(q'), l'.mark == q'.commits);
    } else {
      SameBehindhand(q, q');
      FurtherRanks(l.pc, l'.pc, Lag(q, place), Behindhand(q), l.mark == q.commits, l'.mark == q'.commits);
    }
  }

  lemma NoLink(q: Q.Queue, l: Q.Local)
    requires l.pc != Q.EnqLink
    ensures !Q.LinkFires(q, l)
  {
  }

  lemma InitRanks(pc: Q.Pc, pc': Q.Pc, lag: nat, behind: nat, current: bool, behind': nat, current': bool)
    requires InInit(pc) && (pc' == Q.EnqPtr || (InInit(pc') && Left(pc') < Left(pc)))
    ensures PassRank(pc', lag, behind', current') < PassRank(pc, lag, behind, current)
  {
    hide InEnqPass, InDeqPass;
  }

  /** Initialisation, and the last steps of a call in the queue. */
  lemma OtherRanks(q: Q.Queue, place: map<nat, Place>, l: Q.Local, t: Tid)
    requires I.Ready(q, place, l, t) && (InInit(l.pc) || l.pc == Q.EnqSwing || l.pc == Q.DeqFe)
    ensures var l' := Q.StepLocal(q, l);
      if InInit(l.pc) then LoopRank(Q.Step(q, l, place), Q.StepPlace(q, l, place, t), l') < LoopRank(q, place, l)
      else l'.pc == if l.pc == Q.DeqFe then Q.Release else Q.Return
  {
    hide Q.Valid, Q.Knows, Q.Owns, Q.Step, Q.StepPlace, Lag, Q.LinkFires, Behindhand, PassRank, Left;
    if InInit(l.pc) {
      hide Q.StepLocal;
      InitNext(q, l);
      NoLink(q, l);
      SameLag(q, place, l, t);
      var q', l' := Q.Step(q, l, place), Q.StepLocal(q, l);
      InitRanks(l.pc, l'.pc, Lag(q, place), Behindhand(q), l.mark == q.commits, Behindhand(q'), l'.mark == q'.commits);
    }
  }

  lemma InitNext(q: Q.Queue, l: Q.Local)
    requires InInit(l.pc)
    ensures var pc := Q.StepLocal(q, l).pc; pc == Q.EnqPtr || (InInit(pc) && Left(pc) < Left(l.pc))
  {
  }

  // ------------------------------------------------------------------ all steps rank

  /** Where the elements are after a step outside the queue. */
  lemma OutsidePlace(fl: F.Freelist, q: Q.Queue, th: Thread, lab: Label)
    requires !InQueue(th.q.pc)
    ensures var e := Act(fl, q, th, lab);
      && e.q == q.(heap := e.q.heap)
      && (e.fl.place == fl.place || e.fl.place == F.StepShared(fl, th.f, lab.t).place
          || (lab.addr !in q.heap && e.fl.place == fl.place[lab.addr := Held(lab.t)]))
  {
    hide F.StepShared, F.StepFrame;
  }

  lemma MovedHanging(place: map<nat, Place>, x: nat, p: Place)
    requires (x in place ==> !place[x].Behind?) && !p.Behind?
    ensures Hanging(place[x := p]) == Hanging(place)
  {
  }

  lemma OutsideHanging(fl: F.Freelist, q: Q.Queue, th: Thread, lab: Label)
    requires F.Valid(fl) && F.Knows(fl, th.f, lab.t) && fl.place.Keys == q.heap.Keys && !InQueue(th.q.pc)
    ensures Hanging(Act(fl, q, th, lab).fl.place) == Hanging(fl.place)
  {
    FreelistMoves(fl, th.f, lab.t);
    PusherHolds(fl, th.f, lab.t);
    OutsidePlace(fl, q, th, lab);
    hide *;
    if th.f.pc == F.PopSwap && fl.top == th.f.top {
      MovedHanging(fl.place, th.f.top.ptr, Held(lab.t));
    } else if th.f.pc == F.PushSwap && fl.top == th.f.top {
      MovedHanging(fl.place, th.f.elem, Free(th.f.ticket));
    }
    if lab.addr !in q.heap {
      MovedHanging(fl.place, lab.addr, Held(lab.t));
    }
  }

  lemma PusherHolds(fl: F.Freelist, f: F.Frame, t: Tid)
    requires F.Knows(fl, f, t)
    ensures f.pc == F.PushSwap ==> f.elem in fl.place && fl.place[f.elem] == Held(t)
  {
  }

  lemma OutsideLag(fl: F.Freelist, q: Q.Queue, th: Thread, lab: Label)
    requires F.Valid(fl) && F.Knows(fl, th.f, lab.t) && Q.Valid(q, fl.place) && !InQueue(th.q.pc)
    ensures var e := Act(fl, q, th, lab); Lag(e.q, e.fl.place) == Lag(q, fl.place)
  {
    assert fl.place.Keys == q.heap.Keys;
    OutsideHanging(fl, q, th, lab);
    OutsidePlace(fl, q, th, lab);
    hide F.Valid, Q.Valid, F.Knows, Act, Hanging;
  }

  lemma OutsideRanks(fl: F.Freelist, q: Q.Queue, th: Thread, lab: Label)
    requires Sound(fl, q, th, lab.t) && th.q.pc in {Q.Create, Q.Acquire, Q.Release}
    ensures var e := Act(fl, q, th, lab); Rank(e.fl, e.q, e.th) < Rank(fl, q, th)
  {
    OutsideLag(fl, q, th, lab);
    if th.f.pc != F.Done {
      FrameStep(fl, th.f, lab.t);
    }
    assert Nested(th);
    hide F.Valid, Q.Valid, F.Knows, Q.Knows, Q.Owns, F.StepShared, F.StepFrame, FrameRank, Lag;
    OutsideRankStep(fl, q, th, lab);
  }

  lemma OutsideRankStep(fl: F.Freelist, q: Q.Queue, th: Thread, lab: Label)
    requires th.q.pc in {Q.Create, Q.Acquire, Q.Release} && Nested(th)
    requires var e := Act(fl, q, th, lab); Lag(e.q, e.fl.place) == Lag(q, fl.place)
    requires th.f.pc != F.Done ==> FrameRank(F.StepShared(fl, th.f, lab.t), F.StepFrame(fl, th.f)) < FrameRank(fl, th.f)
    ensures var e := Act(fl, q, th, lab); Rank(e.fl, e.q, e.th) < Rank(fl, q, th)
  {
    hide Lag, F.StepShared, F.StepFrame;
    DoneRank(fl, th.f);
    hide FrameRank;
  }

  lemma DoneRank(fl: F.Freelist, f: F.Frame)
    ensures f.pc == F.Done ==> FrameRank(fl, f) == 0
  {
  }

  /** A step of a thread inside a call brings it nearer to the end of the call. */
  lemma ActRanks(fl: F.Freelist, q: Q.Queue, th: Thread, lab: Label)
    requires Sound(fl, q, th, lab.t) && Watched(q, th.q) && th.q.pc !in {Q.Idle, Q.Return}
    ensures var e := Act(fl, q, th, lab); Rank(e.fl, e.q, e.th) < Rank(fl, q, th)
  {
    if th.q.pc in {Q.Create, Q.Acquire, Q.Release} {
      OutsideRanks(fl, q, th, lab);
    } else {
      QueueRanks(fl, q, th, lab);
    }
  }

  lemma QueueRanks(fl: F.Freelist, q: Q.Queue, th: Thread, lab: Label)
    requires Sound(fl, q, th, lab.t) && Watched(q, th.q) && InQueue(th.q.pc)
    ensures var e := Act(fl, q, th, lab); Rank(e.fl, e.q, e.th) < Rank(fl, q, th)
  {
    hide F.Valid, F.Knows, Q.Valid, Q.EnqKnows, Q.DeqKnows, Q.Owns, Q.Step, Q.StepPlace, Q.StepLocal, Watched, Nested;
    if th.q.pc == Q.DeqFe {
      OtherRanks(q, fl.place, th.q, lab.t);
    } else {
      LoopStays(q, th.q);
      LoopRanks(q, fl.place, th.q, lab.t);
      hide LoopRank;
    }
  }

  lemma LoopRanks(q: Q.Queue, place: map<nat, Place>, l: Q.Local, t: Tid)
    requires I.Ready(q, place, l, t) && Watched(q, l) && InQueue(l.pc) && l.pc != Q.DeqFe
    ensures var l' := Q.StepLocal(q, l);
      var rank := if l'.pc == Q.Return then 0 else LoopRank(Q.Step(q, l, place), Q.StepPlace(q, l, place, t), l');
      rank < LoopRank(q, place, l)
  {
    hide Q.Valid, Q.EnqKnows, Q.DeqKnows, Q.Owns, Q.Step, Q.StepPlace, Q.StepLocal, Watched, Lag;
    if InEnqPass(l.pc) || l.pc == Q.EnqPtr {
      EnqRanks(q, place, l, t);
    } else if InDeqPass(l.pc) || l.pc == Q.DeqPtr {
      DeqRanks(q, place, l, t);
    } else {
      OtherRanks(q, place, l, t);
    }
  }

  lemma LoopStays(q: Q.Queue, l: Q.Local)
    requires InQueue(l.pc) && l.pc != Q.DeqFe
    ensures Q.StepLocal(q, l).pc !in {Q.Create, Q.Acquire, Q.Release, Q.Idle}
  {
  }

  // ----------------------------------------------------------------- running alone

  ghost function RankAt(s: System, t: Tid): nat {
    if t in s.threads then Rank(s.fl, s.q, s.threads[t]) else 0
  }

  lemma NextRanks(s: System, lab: Label)
    requires Inv(s) && AllWatched(s) && lab.t in s.threads && s.threads[lab.t].q.pc !in {Q.Idle, Q.Return}
    ensures RankAt(Next(s, lab), lab.t) < RankAt(s, lab.t)
  {
    SoundThread(s, lab.t);
    hide Inv, Sound, Act, Rank;
    ActRanks(s.fl, s.q, s.threads[lab.t], lab);
  }

  /** From entry `i` of the schedule on, only thread `t` moves. */
  ghost predicate Alone(labels: seq<Label>, i: nat, t: Tid) {
    forall j | i <= j < |labels| :: labels[j].t == t
  }

  predicate Busy(s: System, t: Tid) {
    t in s.threads && s.threads[t].q.pc !in {Q.Idle, Q.Return}
  }

  /** Up to `k` the thread has been in the middle of its call. */
  ghost predicate SameCall(s: System, labels: seq<Label>, i: nat, k: nat, t: Tid)
    requires k <= |labels|
  {
    forall j | i <= j < k :: Busy(Before(s, labels, j), t)
  }

  lemma {:induction false} AloneReturns(s: System, labels: seq<Label>, i: nat, t: Tid) returns (k: nat)
    requires Inv(s) && AllWatched(s) && i <= |labels| && Alone(labels, i, t)
    requires t in Before(s, labels, i).threads && Before(s, labels, i).threads[t].q.pc != Q.Idle
    requires |labels| - i >= RankAt(Before(s, labels, i), t)
    ensures i <= k <= i + RankAt(Before(s, labels, i), t) && k <= |labels|
    ensures HasThread(Before(s, labels, k), t, Q.Return) && SameCall(s, labels, i, k, t)
    decreases |labels| - i
  {
    hide Inv, AllWatched, Before, Next, Rank, RankAt;
    var s' := Before(s, labels, i);
    if s'.threads[t].q.pc == Q.Return {
      k := i;
    } else {
      RunKeepsInv(s, labels, i);
      RunKeepsWatched(s, labels, i);
      RankPositive(s', t);
      NextRanks(s', labels[i]);
      RunStep(s, labels, i);
      StaysInCall(s', labels[i]);
      k := AloneReturns(s, labels, i + 1, t);
    }
  }

  lemma RankPositive(s: System, t: Tid)
    requires t in s.threads && s.threads[t].q.pc !in {Q.Idle, Q.Return}
    ensures RankAt(s, t) > 0
  {
    hide Lag, FrameRank;
  }

  lemma LocalStays(q: Q.Queue, l: Q.Local)
    requires l.pc != Q.Idle && l.pc != Q.Return
    ensures Q.StepLocal(q, l).pc != Q.Idle
  {
  }

  lemma StaysInCall(s: System, lab: Label)
    requires lab.t in s.threads && s.threads[lab.t].q.pc !in {Q.Idle, Q.Return}
    ensures lab.t in Next(s, lab).threads && Next(s, lab).threads[lab.t].q.pc != Q.Idle
  {
    hide Q.Step, Q.StepPlace, Q.StepLocal, F.StepShared, F.StepFrame;
    LocalStays(s.q, s.threads[lab.t].q);
  }

  // -------------------------------------------------------------------- the outcome

  predicate Enqueuing(pc: Q.Pc) {
    pc == Q.Acquire || pc == Q.Create || InInit(pc) || pc == Q.EnqPtr || InEnqPass(pc)
  }

  /** The enqueue has its element. */
  predicate Obtained(pc: Q.Pc) {
    InInit(pc) || pc == Q.EnqPtr || InEnqPass(pc)
  }

  predicate Dequeuing(pc: Q.Pc) {
    pc == Q.DeqPtr || InDeqPass(pc)
  }

  /** What an enqueue that was left alone has done so far. */
  ghost predicate EnqOutcome(q0: Q.Queue, l0: Q.Local, q: Q.Queue, l: Q.Local) {
    && q.out == q0.out && l.value == l0.value
    && (Obtained(l0.pc) ==> Enqueuing(l.pc) || l.pc == Q.EnqSwing || (l.pc == Q.Return && l.rv == 1))
    && (Obtained(l0.pc) && Enqueuing(l.pc) ==> Obtained(l.pc))
    && (if Enqueuing(l.pc) || (l.pc == Q.Return && l.rv == 0) then q.linked == q0.linked
        else (l.pc == Q.EnqSwing || (l.pc == Q.Return && l.rv == 1)) && q.linked == q0.linked + [l0.value])
  }

  /** What a dequeue that was left alone at the head of its loop has done so far. */
  ghost predicate DeqOutcome(q0: Q.Queue, q: Q.Queue, l: Q.Local) {
    && q.linked == q0.linked && q.heap == q0.heap
    && (InDeqPass(l.pc) ==> l.mark == q.commits)
    && (if Dequeuing(l.pc) then q.out == q0.out && q.deq == q0.deq
        else if l.pc == Q.Return && l.rv == 0 then q.out == q0.out && IsEmpty(q0)
        else (l.pc == Q.DeqFe || l.pc == Q.Release || (l.pc == Q.Return && l.rv == 1))
             && q.out == q0.out + [l.value] && !IsEmpty(q0)
             && l.value == Q.At(q0.heap, Q.At(q0.heap, q0.deq.ptr).next.ptr).data)
  }

  lemma EnqLocalOutcome(q0: Q.Queue, l0: Q.Local, q: Q.Queue, l: Q.Local)
    requires EnqOutcome(q0, l0, q, l) && InQueue(l.pc)
    ensures var l' := Q.StepLocal(q, l);
      && l'.value == l.value
      && (if Q.LinkFires(q, l) then l'.pc == Q.EnqSwing
          else if l.pc == Q.EnqSwing then l'.pc == Q.Return && l'.rv == 1
          else Obtained(l'.pc))
  {
  }

  /** What an enqueue's step does to the queue's record of values. */
  lemma EnqShared(q: Q.Queue, place: map<nat, Place>, l: Q.Local, t: Tid)
    requires Enqueuing(l.pc) || l.pc == Q.EnqSwing
    ensures var q' := Q.Step(q, l, place);
      && q'.out == q.out && q'.linked == if Q.LinkFires(q, l) then q.linked + [l.value] else q.linked
  {
    hide Q.Step, Q.StepPlace;
    if I.Writes(l.pc) {
      hide Q.Step;
      WriteRecords(q, place, l);
    } else if Q.LinkFires(q, l) {
      I.LinkStep(q, place, l, t);
    } else if I.Swings(l.pc) && q.enq == l.enq {
      I.SwingStep(q, place, l, t);
    } else {
      I.QuietStep(q, place, l, t);
    }
  }

  lemma WriteRecords(q: Q.Queue, place: map<nat, Place>, l: Q.Local)
    requires I.Writes(l.pc)
    ensures Q.Step(q, l, place).out == q.out && Q.Step(q, l, place).linked == q.linked
  {
  }

  lemma EnqQueueOutcome(q0: Q.Queue, l0: Q.Local, q: Q.Queue, place: map<nat, Place>, l: Q.Local, t: Tid)
    requires EnqOutcome(q0, l0, q, l) && InQueue(l.pc)
    ensures EnqOutcome(q0, l0, Q.Step(q, l, place), Q.StepLocal(q, l))
  {
    EnqLocalOutcome(q0, l0, q, l);
    hide Q.StepLocal, Q.Step, Q.LinkFires;
    EnqShared(q, place, l, t);
  }

  lemma EnqActOutcome(q0: Q.Queue, l0: Q.Local, fl: F.Freelist, q: Q.Queue, th: Thread, lab: Label)
    requires EnqOutcome(q0, l0, q, th.q) && th.q.pc != Q.Return
    ensures var e := Act(fl, q, th, lab); EnqOutcome(q0, l0, e.q, e.th.q)
  {
    hide Q.Valid, Q.EnqKnows, Q.DeqKnows, Q.Owns, Q.StepLocal, Q.Step, Q.StepPlace, F.StepShared, F.StepFrame;
    if InQueue(th.q.pc) {
      EnqQueueOutcome(q0, l0, q, fl.place, th.q, lab.t);
    }
  }

  /** The last steps of a dequeue pass. */
  lemma DeqLocalOutcome(q0: Q.Queue, q: Q.Queue, place: map<nat, Place>, l: Q.Local)
    requires DeqOutcome(q0, q, l) && Q.Valid(q, place) && Q.DeqKnows(q, l) && Watched(q, l) && InQueue(l.pc)
    ensures var l' := Q.StepLocal(q, l);
      if l.pc == Q.DeqFe then l'.pc == Q.Release && l'.value == l.value
      else if l.pc == Q.DeqSwap then
        && q.deq == l.deq && l'.pc == Q.DeqFe && l'.value == l.value && !IsEmpty(q)
        && l.value == Q.At(q.heap, Q.At(q.heap, q.deq.ptr).next.ptr).data
      else
        && (Dequeuing(l'.pc) || (l'.pc == Q.Return && l'.rv == 0 && IsEmpty(q)))
        && (InDeqPass(l'.pc) ==> l'.mark == q.commits)
  {
    hide Q.Valid, Q.DeqKnows, Watched, DeqOutcome, Q.StepLocal, Left, InQueue;
    DeqIsIn(q0, q, l);
    LastLocals(q, l);
    if l.pc == Q.DeqSwap {
      SwapIsSafe(q, place, l);
      SwapIsCurrent(q0, q, l);
    } else if l.pc != Q.DeqFe {
      hide IsEmpty;
      DeqStep(q, l);
      PtrIsNoPass(Q.StepLocal(q, l));
      EmptyNow(q0, q, l);
      MarkIsNow(q0, q, l);
    }
  }

  lemma LastLocals(q: Q.Queue, l: Q.Local)
    ensures l.pc == Q.DeqFe ==> Q.StepLocal(q, l).pc == Q.Release && Q.StepLocal(q, l).value == l.value
    ensures l.pc == Q.DeqSwap && q.deq == l.deq ==>
      Q.StepLocal(q, l).pc == Q.DeqFe && Q.StepLocal(q, l).value == l.value
  {
  }

  lemma MarkIsNow(q0: Q.Queue, q: Q.Queue, l: Q.Local)
    requires DeqOutcome(q0, q, l)
    ensures InDeqPass(l.pc) ==> l.mark == q.commits
  {
  }

  lemma SwapIsCurrent(q0: Q.Queue, q: Q.Queue, l: Q.Local)
    requires DeqOutcome(q0, q, l) && Watched(q, l) && l.pc == Q.DeqSwap
    ensures q.deq == l.deq
  {
    hide IsEmpty;
  }

  /** A pass that is current and finds nothing is right. */
  lemma EmptyNow(q0: Q.Queue, q: Q.Queue, l: Q.Local)
    requires DeqOutcome(q0, q, l) && Watched(q, l) && Dequeuing(l.pc)
    ensures var l' := Q.StepLocal(q, l); l'.pc == Q.Return ==> l'.rv == 0 && IsEmpty(q)
    ensures Q.StepLocal(q, l).pc == Q.DeqFe ==> l.pc == Q.DeqSwap
  {
  }

  /** What a dequeue's step does to shared memory. */
  lemma DeqShared(q: Q.Queue, place: map<nat, Place>, l: Q.Local, t: Tid)
    requires Dequeuing(l.pc) || l.pc == Q.DeqFe
    ensures var q' := Q.Step(q, l, place);
      && q'.heap == q.heap && q'.linked == q.linked
      && (if l.pc == Q.DeqSwap && q.deq == l.deq then q'.out == q.out + [l.value]
          else q'.out == q.out && q'.deq == q.deq && (l.pc != Q.DeqHelp ==> q'.commits == q.commits))
  {
    hide Q.Step, Q.StepPlace;
    NoLink(q, l);
    if I.Swings(l.pc) && q.enq == l.enq {
      I.SwingStep(q, place, l, t);
    } else if l.pc == Q.DeqSwap && q.deq == l.deq {
      I.HeadStep(q, place, l, t);
    } else {
      hide Q.LinkFires;
      I.QuietStep(q, place, l, t);
    }
  }

  /** A step that does not take a value and does not end the call. */
  lemma DeqGoesOn(q0: Q.Queue, q: Q.Queue, l: Q.Local, q': Q.Queue, l': Q.Local)
    requires DeqOutcome(q0, q, l) && Dequeuing(l.pc) && l.pc != Q.DeqSwap
    requires q'.heap == q.heap && q'.linked == q.linked && q'.out == q.out && q'.deq == q.deq
    requires Dequeuing(l'.pc) || (l'.pc == Q.Return && l'.rv == 0 && IsEmpty(q))
    requires InDeqPass(l'.pc) ==> l'.mark == q'.commits
    ensures DeqOutcome(q0, q', l')
  {
    hide InDeqPass;
  }

  lemma DeqTakes(q0: Q.Queue, q: Q.Queue, l: Q.Local, q': Q.Queue, l': Q.Local)
    requires DeqOutcome(q0, q, l) && l.pc == Q.DeqSwap && !IsEmpty(q) && l'.pc == Q.DeqFe && l'.value == l.value
    requires l.value == Q.At(q.heap, Q.At(q.heap, q.deq.ptr).next.ptr).data
    requires q'.heap == q.heap && q'.linked == q.linked && q'.out == q.out + [l.value]
    ensures DeqOutcome(q0, q', l')
  {
  }

  lemma DeqReleases(q0: Q.Queue, q: Q.Queue, l: Q.Local, q': Q.Queue, l': Q.Local)
    requires DeqOutcome(q0, q, l) && l.pc == Q.DeqFe && l'.pc == Q.Release && l'.value == l.value
    requires q'.heap == q.heap && q'.linked == q.linked && q'.out == q.out
    ensures DeqOutcome(q0, q', l')
  {
    hide IsEmpty;
  }

  lemma DeqQueueOutcome(q0: Q.Queue, q: Q.Queue, place: map<nat, Place>, l: Q.Local, t: Tid)
    requires DeqOutcome(q0, q, l) && I.Ready(q, place, l, t) && Watched(q, l) && InQueue(l.pc)
    ensures DeqOutcome(q0, Q.Step(q, l, place), Q.StepLocal(q, l))
  {
    DeqIsIn(q0, q, l);
    DeqLocalOutcome(q0, q, place, l);
    DeqShared(q, place, l, t);
    hide *;
    var q', l' := Q.Step(q, l, place), Q.StepLocal(q, l);
    if l.pc == Q.DeqFe {
      DeqReleases(q0, q, l, q', l');
    } else if l.pc == Q.DeqSwap {
      DeqTakes(q0, q, l, q', l');
    } else {
      PtrIsNoPass(l');
      DeqGoesOn(q0, q, l, q', l');
    }
  }

  lemma PtrIsNoPass(l: Q.Local)
    ensures l.pc == Q.DeqPtr ==> !InDeqPass(l.pc)
  {
  }

  lemma DeqIsIn(q0: Q.Queue, q: Q.Queue, l: Q.Local)
    requires DeqOutcome(q0, q, l) && InQueue(l.pc)
    ensures Dequeuing(l.pc) || l.pc == Q.DeqFe
  {
  }

  lemma DeqActOutcome(q0: Q.Queue, fl: F.Freelist, q: Q.Queue, th: Thread, lab: Label)
    requires DeqOutcome(q0, q, th.q) && I.Ready(q, fl.place, th.q, lab.t) && Watched(q, th.q) && th.q.pc != Q.Return
    ensures var e := Act(fl, q, th, lab); DeqOutcome(q0, e.q, e.th.q)
  {
    hide Q.Valid, Q.EnqKnows, Q.DeqKnows, Q.Owns, Watched, Q.StepLocal, Q.Step, Q.StepPlace;
    hide F.StepShared, F.StepFrame, IsEmpty;
    if InQueue(th.q.pc) {
      DeqQueueOutcome(q0, q, fl.place, th.q, lab.t);
    }
  }

  // --------------------------------------------------------------------- main results

  lemma {:induction false} EnqueueRuns(s: System, labels: seq<Label>, i: nat, k: nat, t: Tid)
    requires Inv(s) && i <= k <= |labels| && Alone(labels, i, t) && SameCall(s, labels, i, k, t)
    requires t in Before(s, labels, i).threads && Enqueuing(Before(s, labels, i).threads[t].q.pc)
    ensures t in Before(s, labels, k).threads
    ensures var s0, s1 := Before(s, labels, i), Before(s, labels, k);
      EnqOutcome(s0.q, s0.threads[t].q, s1.q, s1.threads[t].q)
    decreases k
  {
    hide Inv, Before, Act, EnqOutcome;
    var s0 := Before(s, labels, i);
    if i < k {
      EnqueueRuns(s, labels, i, k - 1, t);
      var s' := Before(s, labels, k - 1);
      RunKeepsInv(s, labels, k - 1);
      KnowsOf(s', t);
      RunStep(s, labels, k - 1);
      hide Q.EnqKnows, Q.DeqKnows, Q.Owns;
      EnqActOutcome(s0.q, s0.threads[t].q, s'.fl, s'.q, s'.threads[t], labels[k - 1]);
    } else {
      EnqStarts(s0.q, s0.threads[t].q);
    }
  }

  lemma EnqStarts(q: Q.Queue, l: Q.Local)
    requires Enqueuing(l.pc)
    ensures EnqOutcome(q, l, q, l)
  {
  }

  lemma {:induction false} DequeueRuns(s: System, labels: seq<Label>, i: nat, k: nat, t: Tid)
    requires Inv(s) && AllWatched(s) && i <= k <= |labels| && Alone(labels, i, t) && SameCall(s, labels, i, k, t)
    requires HasThread(Before(s, labels, i), t, Q.DeqPtr)
    ensures t in Before(s, labels, k).threads
    ensures DeqOutcome(Before(s, labels, i).q, Before(s, labels, k).q, Before(s, labels, k).threads[t].q)
    decreases k
  {
    hide Inv, AllWatched, Before, Act, DeqOutcome;
    var s0 := Before(s, labels, i);
    if i < k {
      DequeueRuns(s, labels, i, k - 1, t);
      var s' := Before(s, labels, k - 1);
      RunKeepsInv(s, labels, k - 1);
      RunKeepsWatched(s, labels, k - 1);
      KnowsOf(s', t);
      WatchedOf(s', t);
      RunStep(s, labels, k - 1);
      hide Q.EnqKnows, Q.DeqKnows, Q.Owns, Watched, Q.Valid;
      DeqActOutcome(s0.q, s'.fl, s'.q, s'.threads[t], labels[k - 1]);
    } else {
      DeqStarts(s0.q, s0.threads[t].q);
    }
  }

  lemma WatchedOf(s: System, t: Tid)
    requires Inv(s) && AllWatched(s) && t in s.threads
    ensures Watched(s.q, s.threads[t].q) && Q.Valid(s.q, s.fl.place)
  {
    hide Watched, Q.Valid, F.Valid, ThreadInv, HeldInv;
  }

  lemma DeqStarts(q: Q.Queue, l: Q.Local)
    requires l.pc == Q.DeqPtr
    ensures DeqOutcome(q, q, l)
  {
  }

  /** In every schedule: a thread in the middle of any call that is left alone returns from the
      call within `RankAt` steps. */
  lemma CallAlone(s: System, n: nat, labels: seq<Label>, i: nat, t: Tid) returns (k: nat)
    requires Init(s, n) && i <= |labels| && Alone(labels, i, t) && Busy(Before(s, labels, i), t)
    requires |labels| - i >= RankAt(Before(s, labels, i), t)
    ensures i <= k <= i + RankAt(Before(s, labels, i), t) && k <= |labels|
    ensures HasThread(Before(s, labels, k), t, Q.Return) && SameCall(s, labels, i, k, t)
  {
    InitInv(s, n);
    assert AllWatched(s);
    hide Init, Inv, Before, RankAt, AllWatched;
    k := AloneReturns(s, labels, i, t);
  }

  /** If it was an enqueue that had not linked its element, it has now linked the value that it
      was given when it began, with step `j`, or it got no element for it. */
  lemma EnqueueAlone(s: System, n: nat, labels: seq<Label>, i: nat, t: Tid) returns (j: nat, k: nat)
    requires Init(s, n) && i <= |labels| && Alone(labels, i, t)
    requires t in Before(s, labels, i).threads && Enqueuing(Before(s, labels, i).threads[t].q.pc)
    requires |labels| - i >= RankAt(Before(s, labels, i), t)
    ensures i <= k <= i + RankAt(Before(s, labels, i), t) && k <= |labels|
    ensures HasThread(Before(s, labels, k), t, Q.Return) && A.CallSince(s, labels, i, t, j)
    ensures var s0, s1 := Before(s, labels, i), Before(s, labels, k);
      && s1.q.out == s0.q.out
      && s1.q.linked == (if s1.threads[t].q.rv == 0 then s0.q.linked else s0.q.linked + [labels[j].value])
      && (Obtained(s0.threads[t].q.pc) ==> s1.threads[t].q.rv == 1)
  {
    hide *;
    IdleAtFirst(s, n);
    EnqueuingIsBusy(Before(s, labels, i), t);
    k := CallAlone(s, n, labels, i, t);
    EnqueueRuns(s, labels, i, k, t);
    EnqReturned(Before(s, labels, i), Before(s, labels, k), t);
    j := A.CallBegan(s, labels, i, t);
    EnqueuingGiven(Before(s, labels, i).threads[t].q, labels[j]);
  }

  lemma IdleAtFirst(s: System, n: nat)
    requires Init(s, n)
    ensures Inv(s) && forall t | t in s.threads :: s.threads[t].q.pc == Q.Idle
  {
    InitInv(s, n);
    hide Inv;
  }

  lemma EnqueuingGiven(l: Q.Local, call: Label)
    requires Enqueuing(l.pc) && A.Serves(l, call)
    ensures l.value == call.value
  {
  }

  lemma EnqReturned(s0: System, s1: System, t: Tid)
    requires t in s0.threads && HasThread(s1, t, Q.Return)
    requires EnqOutcome(s0.q, s0.threads[t].q, s1.q, s1.threads[t].q)
    ensures s1.q.out == s0.q.out
    ensures s1.q.linked ==
      if s1.threads[t].q.rv == 0 then s0.q.linked else s0.q.linked + [s0.threads[t].q.value]
    ensures Obtained(s0.threads[t].q.pc) ==> s1.threads[t].q.rv == 1
  {
  }

  lemma EnqueuingIsBusy(s: System, t: Tid)
    requires t in s.threads && Enqueuing(s.threads[t].q.pc)
    ensures Busy(s, t) && A.InCall(s, t)
  {
  }

  /** If it was a dequeue at the head of its loop, it returns 0 exactly if no node came after
      the dummy, and otherwise the value of that node. */
  lemma DequeueAlone(s: System, n: nat, labels: seq<Label>, i: nat, t: Tid) returns (k: nat)
    requires Init(s, n) && i <= |labels| && Alone(labels, i, t) && HasThread(Before(s, labels, i), t, Q.DeqPtr)
    requires |labels| - i >= RankAt(Before(s, labels, i), t)
    ensures i <= k <= i + RankAt(Before(s, labels, i), t) && k <= |labels|
    ensures HasThread(Before(s, labels, k), t, Q.Return)
    ensures var q0, q1, l := Before(s, labels, i).q, Before(s, labels, k).q, Before(s, labels, k).threads[t].q;
      && q1.linked == q0.linked && (l.rv == 0 <==> IsEmpty(q0))
      && (if l.rv == 0 then q1.out == q0.out
          else q1.out == q0.out + [l.value] && l.value == Q.At(q0.heap, Q.At(q0.heap, q0.deq.ptr).next.ptr).data)
  {
    InitInv(s, n);
    assert AllWatched(s);
    assert Busy(Before(s, labels, i), t);
    DeqPtrIs(Before(s, labels, i), t);
    hide *;
    k := CallAlone(s, n, labels, i, t);
    DequeueRuns(s, labels, i, k, t);
    DeqReturned(Before(s, labels, i).q, Before(s, labels, k), t);
  }

  lemma DeqPtrIs(s: System, t: Tid)
    requires HasThread(s, t, Q.DeqPtr)
    ensures t in s.threads
  {
  }

  lemma DeqReturned(q0: Q.Queue, s1: System, t: Tid)
    requires HasThread(s1, t, Q.Return) && DeqOutcome(q0, s1.q, s1.threads[t].q)
    ensures var q1, l := s1.q, s1.threads[t].q;
      && q1.linked == q0.linked && (l.rv == 0 <==> IsEmpty(q0))
      && (if l.rv == 0 then q1.out == q0.out
          else q1.out == q0.out + [l.value] && l.value == Q.At(q0.heap, Q.At(q0.heap, q0.deq.ptr).next.ptr).data)
  {
    hide IsEmpty;
  }

  /** How many steps these are: eight for each node that `enq` lags behind, and two passes for
      a dequeue. */
  lemma RankBounds(s: System, t: Tid)
    requires t in s.threads
    ensures var l := s.threads[t].q;
      && RankAt(s, t) <= 8 * Lag(s.q, s.fl.place) + 43
      && (l.pc == Q.EnqPtr ==> RankAt(s, t) == 8 * Lag(s.q, s.fl.place) + 8)
      && (Dequeuing(l.pc) ==> RankAt(s, t) <= 43)
      && (l.pc == Q.DeqPtr ==> RankAt(s, t) <= 32)
  {
    hide Lag;
  }

  /** Where no torn pair was ever swapped, two passes are enough for an enqueue, too. */
  lemma TwoPasses(s: System, n: nat, labels: seq<Label>, i: nat, t: Tid)
    requires Init(s, n) && i <= |labels| && G.TearFree(s, labels, i)
    requires HasThread(Before(s, labels, i), t, Q.EnqPtr)
    ensures RankAt(Before(s, labels, i), t) <= 16
  {
    InitInv(s, n);
    InitOrder(s, n);
    assert G.Close(s.q);
    hide Init, Inv, Before, RankAt;
    G.TearFreeRun(s, labels, i);
    RankBounds(Before(s, labels, i), t);
    CloseLag(Before(s, labels, i));
  }

  lemma CloseLag(s: System)
    requires InOrder(s) && G.Close(s.q)
    ensures Lag(s.q, s.fl.place) <= 1
  {
    assert O.NoneBehind(s.fl.place);
    assert Hanging(s.fl.place) == {};
  }
}
