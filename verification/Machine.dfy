/** The queue and its freelist as one machine: any number of threads, each running queue
    calls one after another, interleaved step by step by an arbitrary schedule. */
module Machine {
  import opened Words
  import F = Freelist
  import Q = Queue

  /** A thread is a queue call with the freelist call it has made, if any. */
  datatype Thread = Thread(q: Q.Local, f: F.Frame)

  datatype System = System(fl: F.Freelist, q: Q.Queue, threads: map<Tid, Thread>)

  /** One entry of a schedule: thread `t` takes a step.  An idle thread starts the call
      `op(value)`.  `addr` is the address that the allocator returns, if it is asked, and
      `junk` what the fresh memory holds. */
  datatype Label = Label(t: Tid, op: Q.Op, value: Value, addr: nat, junk: Q.Node)

  /** What a step changes. */
  datatype Effect = Effect(fl: F.Freelist, q: Q.Queue, th: Thread)

  function Begin(th: Thread, lab: Label): Thread {
    match lab.op
    case Enqueue => Thread(th.q.(pc := Q.Acquire, op := lab.op, value := lab.value), F.PopCall())
    case GuaranteedEnqueue => th.(q := th.q.(pc := Q.Create, op := lab.op, value := lab.value))
    case Dequeue => th.(q := th.q.(pc := Q.DeqPtr, op := lab.op))
  }

  function Create(fl: F.Freelist, q: Q.Queue, th: Thread, lab: Label): Effect {
    if lab.addr == NULL || lab.addr in q.heap
    then Effect(fl, q, th.(q := th.q.(pc := Q.Return, rv := 0)))
    else Effect(
        fl.(count := fl.count + 1, next := fl.next[lab.addr := lab.junk.next],
            place := fl.place[lab.addr := Held(lab.t)]),
        Q.SetNode(q, lab.addr, lab.junk),
        th.(q := th.q.(pc := Q.InitDraw, elem := lab.addr)))
  }

  function FreelistStep(fl: F.Freelist, q: Q.Queue, th: Thread, t: Tid): Effect {
    Effect(F.StepShared(fl, th.f, t), q, th.(f := F.StepFrame(fl, th.f)))
  }

  function QueueStep(fl: F.Freelist, q: Q.Queue, th: Thread, t: Tid): Effect {
    Effect(fl.(place := Q.StepPlace(q, th.q, fl.place, t)),
           Q.Step(q, th.q, fl.place),
           Thread(Q.StepLocal(q, th.q),
                  if th.q.pc == Q.DeqFe then F.PushCall(Q.At(q.heap, th.q.deq.ptr).fe) else th.f))
  }

  function Act(fl: F.Freelist, q: Q.Queue, th: Thread, lab: Label): Effect {
    match th.q.pc
    case Idle => Effect(fl, q, Begin(th, lab))
    case Return => Effect(fl, q, th.(q := th.q.(pc := Q.Idle)))
    case Create => Create(fl, q, th, lab)
    case Acquire =>
      if th.f.pc != F.Done then FreelistStep(fl, q, th, lab.t)
      else if th.f.elem == NULL then Effect(fl, q, th.(q := th.q.(pc := Q.Return, rv := 0)))
      else Effect(fl, q, th.(q := th.q.(pc := Q.InitDraw, elem := th.f.elem)))
    case Release =>
      if th.f.pc != F.Done then FreelistStep(fl, q, th, lab.t)
      else Effect(fl, q, th.(q := th.q.(pc := Q.Return, rv := 1)))
    case _ => QueueStep(fl, q, th, lab.t)
  }

  /** One step of the machine; a label that names no thread changes nothing. */
  function Next(s: System, lab: Label): System {
    if lab.t !in s.threads then s else
    var e := Act(s.fl, s.q, s.threads[lab.t], lab);
    System(e.fl, e.q, s.threads[lab.t := e.th])
  }

  /** The state after a whole schedule. */
  function Run(s: System, labels: seq<Label>): System
    decreases |labels|
  {
    if labels == [] then s else Next(Run(s, labels[..|labels| - 1]), labels[|labels| - 1])
  }

  // ------------------------------------------------------------------ invariant

  predicate Holds(th: Thread) {
    || Q.Owning(th.q.pc)
    || (th.q.pc == Q.Acquire && th.f.pc == F.Done && th.f.elem != NULL)
    || (th.q.pc == Q.Release && th.f.pc != F.Done)
  }

  /** The element a thread holds, if it holds one. */
  function Element(th: Thread): nat {
    if Q.Owning(th.q.pc) then Q.Owned(th.q) else th.f.elem
  }

  ghost predicate Nested(th: Thread) {
    match th.q.pc
    case Acquire => F.IsPop(th.f.pc) || th.f.pc == F.Done
    case Release => !F.IsPop(th.f.pc)
    case _ => th.f.pc == F.Done
  }

  ghost predicate HeldOutside(q: Q.Queue, place: map<nat, Place>, e: nat, t: Tid) {
    e in q.heap && e in place && place[e] == Held(t) && Q.Clear(q, place, e)
  }

  ghost predicate ThreadInv(fl: F.Freelist, q: Q.Queue, th: Thread, t: Tid) {
    && Q.Knows(q, th.q)
    && Q.Owns(q, fl.place, th.q, t)
    && F.Knows(fl, th.f, t)
    && Nested(th)
    && (Holds(th) && !Q.Owning(th.q.pc) ==> HeldOutside(q, fl.place, Element(th), t))
  }

  /** Every held element is held by the thread that says so. */
  ghost predicate HeldInv(place: map<nat, Place>, threads: map<Tid, Thread>) {
    forall e | e in place && place[e].Held? ::
      var t := place[e].owner;
      t in threads && Holds(threads[t]) && Element(threads[t]) == e
  }

  ghost predicate Inv(s: System) {
    && F.Valid(s.fl)
    && Q.Valid(s.q, s.fl.place)
    && (forall t | t in s.threads :: ThreadInv(s.fl, s.q, s.threads[t], t))
    && HeldInv(s.fl.place, s.threads)
  }

  // --------------------------------------------------- what a step owes the others

  ghost predicate Fair(fl: F.Freelist, q: Q.Queue, fl': F.Freelist, q': Q.Queue, t: Tid) {
    && F.Evolves(fl, fl', t)
    && Q.Grows(q, q')
    && Q.Respects(q, q', fl.place, fl'.place, t)
    && q.first <= q.last < |q.nodes| && q'.first <= q'.last
  }

  lemma OtherThread(fl: F.Freelist, q: Q.Queue, fl': F.Freelist, q': Q.Queue, t: Tid, th: Thread, u: Tid)
    requires Fair(fl, q, fl', q', t) && u != t && ThreadInv(fl, q, th, u)
    ensures ThreadInv(fl', q', th, u)
  {
    F.KnowledgeSurvives(fl, fl', t, th.f, u);
    Q.EnqKnowledgeSurvives(q, q', th.q);
    Q.DeqKnowledgeSurvives(q, q', th.q);
    Q.OwnershipSurvives(q, q', fl.place, fl'.place, t, th.q, u);
    if Holds(th) && !Q.Owning(th.q.pc) {
      assert Q.Untouched(q, q', fl.place, fl'.place, Element(th));
    }
    hide Q.EnqKnows, Q.DeqKnows, Q.Owns, F.Knows, F.Evolves, Q.Grows, Q.Respects, Q.Clear, Q.Bears, Nested;
  }

  /** What the stepping thread holds afterwards is what it is recorded to hold. */
  ghost predicate Accounted(place: map<nat, Place>, place': map<nat, Place>, th': Thread, t: Tid) {
    forall e | e in place' && place'[e].Held? ::
      if place'[e].owner == t then Holds(th') && Element(th') == e
      else e in place && place[e] == place'[e]
  }

  lemma Assemble(s: System, s': System, t: Tid)
    requires Inv(s) && t in s.threads && t in s'.threads && s'.threads == s.threads[t := s'.threads[t]]
    requires F.Valid(s'.fl) && Q.Valid(s'.q, s'.fl.place)
    requires Fair(s.fl, s.q, s'.fl, s'.q, t)
    requires ThreadInv(s'.fl, s'.q, s'.threads[t], t)
    requires Accounted(s.fl.place, s'.fl.place, s'.threads[t], t)
    ensures Inv(s')
  {
    hide F.Valid, Q.Valid, ThreadInv, Fair, Holds, Element;
    forall u | u in s'.threads ensures ThreadInv(s'.fl, s'.q, s'.threads[u], u) {
      if u != t {
        OtherThread(s.fl, s.q, s'.fl, s'.q, t, s.threads[u], u);
      }
    }
  }
}
