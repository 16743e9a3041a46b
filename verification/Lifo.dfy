/** The freelist behaves as an atomic last-in first-out stack under every interleaving,
    although its elements are reused and `top` and `next` are read word by word. */
module Lifo {
  import opened Words
  import opened F = Freelist
  import Machine
  import MachineInvariant
  import Fifo
  import Q = Queue

  // ------------------------------------------------ the stack, read from memory

  /** `s` is what one finds by following `next` from the pair `p`. */
  ghost predicate IsStack(next: map<nat, Pair>, p: Pair, s: seq<Pair>)
    decreases |s|
  {
    if s == [] then p == NONE
    else p == s[0] && p.ptr != NULL && p.ptr in next && IsStack(next, next[p.ptr], s[1..])
  }

  lemma {:induction false} LinkedIsStack(next: map<nat, Pair>, s: seq<Pair>, i: nat)
    requires Linked(next, s) && NULL !in next && i <= |s|
    ensures IsStack(next, if i < |s| then s[i] else NONE, s[i..])
    decreases |s| - i
  {
    if i < |s| {
      LinkedIsStack(next, s, i + 1);
      assert s[i..][1..] == s[i + 1..];
      if i + 1 < |s| {
        assert next[s[i].ptr] == s[i + 1];
      }
    }
  }

  lemma {:induction false} StackUnique(next: map<nat, Pair>, p: Pair, s: seq<Pair>, r: seq<Pair>)
    requires IsStack(next, p, s) && IsStack(next, p, r)
    ensures s == r
    decreases |s|
  {
    if s != [] && r != [] {
      StackUnique(next, next[p.ptr], s[1..], r[1..]);
    }
  }

  /** The history's stack is the one in memory. */
  lemma ValidIsStack(fl: Freelist)
    requires Valid(fl)
    ensures IsStack(fl.next, fl.top, fl.stack)
  {
    LinkedIsStack(fl.next, fl.stack, 0);
    assert fl.stack[0..] == fl.stack;
  }

  // ------------------------------------------------------------- the abstract stack

  datatype Action = Tau | PopEmpty | Pop(elem: nat) | Push(elem: nat)

  ghost predicate LifoStep(a: seq<nat>, act: Action, a': seq<nat>) {
    match act
    case Tau => a' == a
    case PopEmpty => a == [] && a' == a
    case Pop(e) => a == [e] + a'
    case Push(e) => a' == [e] + a
  }

  /** What the next step of a call does to the stack, judged from memory alone: a pop that
      finds a NULL top, a successful swap, or nothing. */
  function ActionOf(fl: Freelist, fr: Frame): Action {
    match fr.pc
    case PopPtr => if fl.top.ptr == NULL then PopEmpty else Tau
    case PopSwap => if fl.top == fr.top then Pop(fr.top.ptr) else if fl.top.ptr == NULL then PopEmpty else Tau
    case PushSwap => if fl.top == fr.top then Push(fr.elem) else Tau
    case _ => Tau
  }

  function Elements(s: seq<Pair>): (r: seq<nat>)
    ensures |r| == |s| && forall i | 0 <= i < |s| :: r[i] == s[i].ptr
  {
    if s == [] then [] else [s[0].ptr] + Elements(s[1..])
  }

  lemma EmptyTop(fl: Freelist)
    requires Valid(fl)
    ensures fl.top.ptr == NULL <==> fl.stack == []
  {
    if fl.stack != [] {
      assert OnStack(fl.place, fl.stack[0]);
    }
  }

  lemma PopRefines(fl: Freelist, fr: Frame, t: Tid)
    requires Valid(fl) && Knows(fl, fr, t) && fr.pc == PopSwap && fl.top == fr.top
    ensures Elements(fl.stack) == [fr.top.ptr] + Elements(StepShared(fl, fr, t).stack)
  {
    SwapPop(fl, fr, t);
    hide Valid, Knows;
  }

  lemma PushRefines(fl: Freelist, fr: Frame, t: Tid)
    requires fr.pc == PushSwap && fl.top == fr.top
    ensures Elements(StepShared(fl, fr, t).stack) == [fr.elem] + Elements(fl.stack)
  {
  }

  /** Each step is a step of the abstract stack. */
  lemma StepRefinesLifo(fl: Freelist, fr: Frame, t: Tid)
    requires Valid(fl) && Knows(fl, fr, t)
    ensures LifoStep(Elements(fl.stack), ActionOf(fl, fr), Elements(StepShared(fl, fr, t).stack))
  {
    hide Valid, Knows;
    EmptyTop(fl);
    if fr.pc == PopSwap && fl.top == fr.top {
      PopRefines(fl, fr, t);
    } else if fr.pc == PushSwap && fl.top == fr.top {
      PushRefines(fl, fr, t);
    } else {
      assert StepShared(fl, fr, t).stack == fl.stack;
    }
  }

  /** How a step that is action `a` changes the frame of its call: a pop is done exactly with the
      element it took, or with NULL if it found the stack empty; a push is done exactly when its
      element is on the stack. */
  ghost predicate Answers(a: Action, fr: Frame, fr': Frame) {
    if IsPop(fr.pc) then
      && (fr'.pc == Done ==> if fr'.elem == NULL then a == PopEmpty else a == Pop(fr'.elem))
      && (a.Pop? || a == PopEmpty ==> fr'.pc == Done)
    else if fr.pc != Done then
      (fr'.pc == Done <==> a == Push(fr.elem)) && fr'.elem == fr.elem
    else fr' == fr
  }

  lemma StepAnswers(fl: Freelist, fr: Frame, t: Tid)
    requires Valid(fl) && Knows(fl, fr, t)
    ensures Answers(ActionOf(fl, fr), fr, StepFrame(fl, fr))
  {
    hide Linked, Placed, Counted;
  }

  /** A successful push leaves its element pointing at the top of that instant. */
  lemma PushCoversTop(fl: Freelist, fr: Frame, t: Tid)
    requires Valid(fl) && Knows(fl, fr, t) && ActionOf(fl, fr).Push?
    ensures var fl' := StepShared(fl, fr, t); fl'.top.ptr == fr.elem && fl'.next[fr.elem] == fl.top
  {
  }

  // ----------------------------------------------------------- in every schedule

  /** What the machine's next step does to the freelist. */
  function ActionAt(s: Machine.System, lab: Machine.Label): Action {
    if lab.t in s.threads && s.threads[lab.t].q.pc in {Q.Acquire, Q.Release}
    then ActionOf(s.fl, s.threads[lab.t].f) else Tau
  }

  lemma ActRefinesLifo(fl: Freelist, q: Q.Queue, th: Machine.Thread, lab: Machine.Label)
    requires Valid(fl) && Knows(fl, th.f, lab.t)
    ensures var a := if th.q.pc in {Q.Acquire, Q.Release} then ActionOf(fl, th.f) else Tau;
      LifoStep(Elements(fl.stack), a, Elements(Machine.Act(fl, q, th, lab).fl.stack))
  {
    hide Valid, Knows, LifoStep, Elements, StepShared, StepFrame;
    if th.q.pc in {Q.Acquire, Q.Release} && th.f.pc != Done {
      StepRefinesLifo(fl, th.f, lab.t);
    } else {
      Elsewhere(fl, q, th, lab);
      hide Machine.Act;
      TauStays(Elements(fl.stack));
    }
  }

  lemma NextRefinesLifo(s: Machine.System, lab: Machine.Label)
    requires Machine.Inv(s)
    ensures LifoStep(Elements(s.fl.stack), ActionAt(s, lab), Elements(Machine.Next(s, lab).fl.stack))
  {
    TauStays(Elements(s.fl.stack));
    if lab.t in s.threads {
      FrameKnows(s, lab.t);
      hide Machine.Inv, Machine.Act, Valid, Knows, LifoStep, Elements, ActionOf;
      ActRefinesLifo(s.fl, s.q, s.threads[lab.t], lab);
    }
  }

  lemma FrameKnows(s: Machine.System, t: Tid)
    requires Machine.Inv(s) && t in s.threads
    ensures Valid(s.fl) && Knows(s.fl, s.threads[t].f, t)
  {
    assert Machine.ThreadInv(s.fl, s.q, s.threads[t], t);
    hide Valid, Q.Valid, Machine.HeldInv, Q.EnqKnows, Q.DeqKnows, Q.Owns, Knows, Machine.Nested, Machine.HeldOutside;
  }

  lemma Elsewhere(fl: Freelist, q: Q.Queue, th: Machine.Thread, lab: Machine.Label)
    requires th.q.pc !in {Q.Acquire, Q.Release} || th.f.pc == Done
    ensures Machine.Act(fl, q, th, lab).fl.stack == fl.stack
  {
  }

  lemma TauStays(a: seq<nat>)
    ensures LifoStep(a, Tau, a)
  {
  }

  /** The freelist call of the thread that steps goes on as the action says. */
  ghost predicate Answered(a: Action, s: Machine.System, s': Machine.System, t: Tid) {
    t in s.threads && t in s'.threads && s.threads[t].q.pc in {Q.Acquire, Q.Release} && s.threads[t].f.pc != Done ==>
      Answers(a, s.threads[t].f, s'.threads[t].f)
  }

  lemma NextAnswers(s: Machine.System, lab: Machine.Label)
    requires Machine.Inv(s)
    ensures Answered(ActionAt(s, lab), s, Machine.Next(s, lab), lab.t)
  {
    if lab.t in s.threads {
      FrameKnows(s, lab.t);
      hide Machine.Inv, Valid, Knows, Answers, ActionOf, StepFrame, StepShared;
      StepAnswers(s.fl, s.threads[lab.t].f, lab.t);
    }
  }

  /** In every schedule the freelist is an atomic stack: each step is a push, a pop, a pop of
      the empty stack, or none of these; a pop ends with the element it took, or with NULL, and
      then the stack is empty; and the stack is what memory holds. */
  lemma FreelistIsLifo(s: Machine.System, n: nat, labels: seq<Machine.Label>, i: nat)
    requires Fifo.Init(s, n) && i < |labels|
    ensures var s', a := Fifo.Before(s, labels, i), ActionAt(Fifo.Before(s, labels, i), labels[i]);
      && LifoStep(Elements(s'.fl.stack), a, Elements(Fifo.Before(s, labels, i + 1).fl.stack))
      && Answered(a, s', Fifo.Before(s, labels, i + 1), labels[i].t)
      && IsStack(s'.fl.next, s'.fl.top, s'.fl.stack)
  {
    Fifo.InitInv(s, n);
    Fifo.RunKeepsInv(s, labels, i);
    hide Fifo.Init, Fifo.Before, LifoStep, Answered, IsStack, Elements, ActionAt;
    Fifo.RunStep(s, labels, i);
    var s' := Fifo.Before(s, labels, i);
    NextAnswers(s', labels[i]);
    NextRefinesLifo(s', labels[i]);
    assert Valid(s'.fl);
    ValidIsStack(s'.fl);
    hide Machine.Next, Valid;
  }
}
