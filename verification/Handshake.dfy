/** The session handshake.  A session event is, at every instant, in at most one place on its
    way from the callback through the queue, the application and the latch back to the same
    callback; so replies never overtake completions and the data is never another event's. */
module Handshake {
  import opened Words
  import opened Client
  import L = Latch

  /** Where the session event is. */
  datatype Token = Gone | Queued | With(t: Tid) | Posted

  /** Which thread runs a session callback. */
  datatype Who = NoOne | Running(t: Tid)

  datatype View = View(tok: Token, who: Who)

  predicate InGet(pc: L.Pc) {
    pc.GetLock? || pc.GetTest? || pc.Asleep? || pc.Woken? || pc.GetClear?
  }

  predicate InPost(pc: L.Pc) {
    pc.PostLock? || pc.PostSet?
  }

  predicate AfterGet(pc: L.Pc) {
    pc.GetSignal? || pc.GetUnlock? || pc.Out?
  }

  predicate AfterPost(pc: L.Pc) {
    pc.PostSignal? || pc.PostUnlock? || pc.Out?
  }

  /** A thread is inside the latch only where it calls it. */
  ghost predicate Tied(s: State) {
    && s.latch.pcs.Keys == s.pcs.Keys
    && forall t | t in s.pcs ::
      if s.pcs[t].Getting? then InGet(s.latch.pcs[t]) || AfterGet(s.latch.pcs[t])
      else if s.pcs[t].Completing? then InPost(s.latch.pcs[t]) || AfterPost(s.latch.pcs[t])
      else s.latch.pcs[t].Out?
  }

  /** The application has the event and has not yet posted the latch for it. */
  ghost predicate Bears(s: State, t: Tid) {
    && t in s.pcs && t in s.latch.pcs
    && (s.pcs[t] == Holding(Session) || (s.pcs[t].Completing? && InPost(s.latch.pcs[t])))
  }

  /** The callback has enqueued its event and has not yet been let through. */
  ghost predicate Open(s: State, t: Tid) {
    && t in s.pcs && t in s.latch.pcs
    && ((s.pcs[t].SessionPost? && s.pcs[t].queued) || (s.pcs[t].Getting? && InGet(s.latch.pcs[t])))
  }

  /** The callback has been let through. */
  ghost predicate Passed(s: State, t: Tid) {
    && t in s.pcs && t in s.latch.pcs
    && (s.pcs[t].ClearData? || s.pcs[t].Reply? || (s.pcs[t].Getting? && AfterGet(s.latch.pcs[t])))
  }

  ghost predicate Sole(s: State, v: View) {
    && (forall t | t in s.pcs :: InSession(s.pcs[t]) <==> v.who == Running(t))
    && (v.who.Running? ==> v.who.t in s.pcs)
  }

  ghost predicate InQueue(s: State, v: View) {
    && (forall i | 0 <= i < |s.queue| :: s.queue[i].Session? ==> v.tok == Queued)
    && (forall i, j | 0 <= i < j < |s.queue| :: !(s.queue[i].Session? && s.queue[j].Session?))
  }

  ghost predicate InHand(s: State, v: View) {
    && (forall t | t in s.pcs :: Bears(s, t) ==> v.tok == With(t))
    && (v.tok.With? ==> Bears(s, v.tok.t))
    && (s.latch.posted <==> v.tok == Posted)
    && (v.tok != Gone ==> v.who.Running? && Open(s, v.who.t))
  }

  function EventOf(pc: Pc): Ptr
    requires InSession(pc)
  {
    pc.ev
  }

  ghost predicate History(s: State, v: View) {
    var n := |s.started|;
    && s.completed <= |s.handed| <= n && s.handed == s.started[..|s.handed|]
    && |s.replied| <= n && s.replied == s.started[..|s.replied|]
    && (v.who == NoOne ==> |s.replied| == s.completed == n)
    && (v.tok == Queued ==> |s.handed| == n - 1)
    && (v.tok.With? ==> |s.handed| == n
                        && s.completed == if v.tok.t in s.pcs && s.pcs[v.tok.t].Completing? then n else n - 1)
    && (v.tok == Posted ==> s.completed == n)
  }

  /** What the running callback knows. */
  ghost predicate Callback(s: State, v: View) {
    var n := |s.started|;
    v.who.Running? && v.who.t in s.pcs && InSession(s.pcs[v.who.t]) ==>
      var t := v.who.t;
      && |s.replied| == n - 1 <= s.completed
      && EventOf(s.pcs[t]) == s.started[n - 1]
      && (s.data == s.started[n - 1] || s.pcs[t].SetData? || s.pcs[t].Reply?)
      && (s.pcs[t].SetData? || s.pcs[t].SessionEnqueue? ==> |s.handed| == n - 1)
      && (Passed(s, t) ==> s.completed == n)
  }

  ghost predicate Inv(s: State, v: View) {
    && L.Inv(s.latch) && Tied(s) && Sole(s, v) && InQueue(s, v) && InHand(s, v) && History(s, v) && Callback(s, v)
  }

  ghost function Follow(s: State, l: Label, v: View): View
    requires Enabled(s, l)
  {
    match l
    case CallSession(t, _) => v.(who := Running(t))
    case LatchStep(m) =>
      if m.Step? && s.latch.pcs[m.t].PostSet? then v.(tok := Posted)
      else if m.Step? && s.latch.pcs[m.t].GetClear? then v.(tok := Gone)
      else v
    case Forget(t) => if s.pcs[t].e.Session? then v.(tok := Gone) else v
    case Step(t, ok) =>
      if s.pcs[t].SessionEnqueue? && ok then v.(tok := Queued)
      else if s.pcs[t].Dequeue? && s.queue != [] && s.queue[0].Session? then v.(tok := With(t))
      else if s.pcs[t].Reply? then v.(who := NoOne)
      else v
    case _ => v
  }

  lemma LatchKeepsTied(s: State, m: L.Move)
    requires Tied(s) && Enabled(s, LatchStep(m))
    ensures Tied(s.(latch := L.Do(s.latch, m)))
  {
  }

  /** A step inside the latch moves the thread; threads that a signal wakes were asleep. */
  lemma LatchMoves(l: L.State, m: L.Move)
    requires L.Enabled(l, m)
    ensures var l' := L.Do(l, m);
      && (forall u | u in l.pcs && u != m.t :: l'.pcs[u] == l.pcs[u] || (l.pcs[u].Asleep? && l'.pcs[u].Woken?))
      && (l.posted != l'.posted ==> m.Step? && (l.pcs[m.t].PostSet? || l.pcs[m.t].GetClear?))
  {
  }

  /** Whether the thread is before or after its effect on the status. */
  lemma LatchChange(s: State, m: L.Move)
    requires L.Inv(s.latch) && Tied(s) && Enabled(s, LatchStep(m))
    ensures var l, l' := s.latch, L.Do(s.latch, m);
      && Tied(s.(latch := l'))
      && (forall u | u in l.pcs && u != m.t :: l'.pcs[u] == l.pcs[u] || (l.pcs[u].Asleep? && l'.pcs[u].Woken?))
      && (l.posted != l'.posted ==> m.Step? && (l.pcs[m.t].PostSet? || l.pcs[m.t].GetClear?))
      && (m.Step? && l.pcs[m.t].GetClear? ==> l.posted && !l'.posted && s.pcs[m.t].Getting? && l'.pcs[m.t].GetSignal?)
      && (m.Step? && l.pcs[m.t].PostSet? ==> l'.posted && s.pcs[m.t].Completing? && l'.pcs[m.t].PostSignal?)
      && (!(m.Step? && (l.pcs[m.t].PostSet? || l.pcs[m.t].GetClear?)) ==>
           && (InGet(l'.pcs[m.t]) <==> InGet(l.pcs[m.t])) && (InPost(l'.pcs[m.t]) <==> InPost(l.pcs[m.t])))
  {
    LatchKeepsTied(s, m);
    LatchMoves(s.latch, m);
    assert var pc := s.latch.pcs[m.t]; s.pcs[m.t].Getting? ==> InGet(pc) || AfterGet(pc);
    assert var pc := s.latch.pcs[m.t]; s.pcs[m.t].Completing? ==> InPost(pc) || AfterPost(pc);
    hide Tied, L.Wake, L.Signals, L.Remembered, L.Excludes;
  }

  // ----------------------------------------------- steps that are not about sessions

  ghost predicate Special(s: State, l: Label)
    requires Enabled(s, l)
  {
    match l
    case CallSession(_, _) => true
    case LatchStep(_) => true
    case Complete(t) => s.pcs[t].e.Session?
    case Forget(t) => s.pcs[t].e.Session?
    case Step(t, _) => InSession(s.pcs[t]) || (s.pcs[t].Dequeue? && s.queue != [] && s.queue[0].Session?)
    case _ => false
  }

  ghost predicate SameQueue(q: seq<Event>, q': seq<Event>) {
    || q' == q
    || (|q'| == |q| + 1 && q' == q + [q'[|q|]] && !q'[|q|].Session?)
    || (q != [] && !q[0].Session? && q' == q[1..])
  }

  /** Nothing about sessions changes. */
  ghost predicate Neutral(s: State, s': State, t: Tid, v: View, v': View) {
    && t in s.pcs && t in s'.pcs && s'.pcs == s.pcs[t := s'.pcs[t]] && v' == v
    && !InSession(s.pcs[t]) && !InSession(s'.pcs[t]) && !s'.pcs[t].Completing? && s'.pcs[t] != Holding(Session)
    && !Bears(s, t) && (t in s.latch.pcs ==> s.latch.pcs[t].Out?)
    && SameQueue(s.queue, s'.queue)
    && s' == s.(pcs := s'.pcs, queue := s'.queue, sem := s'.sem, enqueued := s'.enqueued, delivered := s'.delivered)
  }

  lemma OthersAreNeutral(s: State, l: Label, v: View)
    requires Tied(s) && Enabled(s, l) && !Special(s, l)
    ensures Neutral(s, Do(s, l), Actor(l), v, Follow(s, l, v))
  {
    hide L.Do, L.Enabled, L.Inv, Follow, PlainStep, SessionStep;
    NoFollow(s, l, v);
    if l.Step? {
      hide Enabled, Tied;
      StepIsNeutral(s, l.t, l.ok, v);
    }
  }

  lemma StepIsNeutral(s: State, t: Tid, ok: bool, v: View)
    requires Tied(s) && Enabled(s, Step(t, ok)) && !Special(s, Step(t, ok))
    ensures Neutral(s, PlainStep(s, t, ok), t, v, v)
  {
    hide L.Do, L.Enabled, L.Inv, SameQueue;
    QueuesAlike(s.queue, if s.pcs[t].PlainEnqueue? then s.pcs[t].plain else Process);
  }

  lemma QueuesAlike(q: seq<Event>, e: Event)
    ensures SameQueue(q, q) && (!e.Session? ==> SameQueue(q, q + [e]))
    ensures q != [] && !q[0].Session? ==> SameQueue(q, q[1..])
  {
  }

  lemma NoFollow(s: State, l: Label, v: View)
    requires Enabled(s, l) && !Special(s, l)
    ensures Follow(s, l, v) == v
  {
    hide L.Enabled;
  }

  lemma NeutralPlaces(s: State, s': State, t: Tid, v: View, v': View)
    requires Inv(s, v) && Neutral(s, s', t, v, v')
    ensures Tied(s') && Sole(s', v')
  {
    hide L.Inv, InQueue, InHand, History, Callback;
  }

  lemma NeutralInQueue(s: State, s': State, t: Tid, v: View, v': View)
    requires Inv(s, v) && Neutral(s, s', t, v, v')
    ensures InQueue(s', v')
  {
    hide L.Inv, Tied, Sole, History, Callback;
    if |s'.queue| < |s.queue| {
      assert forall i | 0 <= i < |s'.queue| :: s'.queue[i] == s.queue[i + 1];
    }
  }

  lemma NeutralInHand(s: State, s': State, t: Tid, v: View, v': View)
    requires Inv(s, v) && Neutral(s, s', t, v, v')
    ensures InHand(s', v')
  {
    hide L.Inv, Sole, Tied, InQueue, History, Callback, Bears, Open, SameQueue;
    forall u ensures (Bears(s', u) <==> Bears(s, u)) && (Open(s', u) <==> Open(s, u)) {
      NeutralSame(s, s', t, v, v', u);
    }
  }

  lemma NeutralSame(s: State, s': State, t: Tid, v: View, v': View, u: Tid)
    requires Neutral(s, s', t, v, v')
    ensures (Bears(s', u) <==> Bears(s, u)) && (Open(s', u) <==> Open(s, u))
  {
    hide SameQueue;
  }

  lemma NeutralHistory(s: State, s': State, t: Tid, v: View, v': View)
    requires Inv(s, v) && Neutral(s, s', t, v, v')
    ensures History(s', v') && Callback(s', v')
  {
    hide L.Inv, InQueue;
  }

  lemma NeutralKeeps(s: State, s': State, t: Tid, v: View, v': View)
    requires Inv(s, v) && Neutral(s, s', t, v, v') && L.Inv(s'.latch)
    ensures Inv(s', v')
  {
    hide L.Inv, Neutral;
    NeutralPlaces(s, s', t, v, v');
    NeutralInQueue(s, s', t, v, v');
    NeutralInHand(s, s', t, v, v');
    NeutralHistory(s, s', t, v, v');
    hide Tied, Sole, InQueue, InHand, History, Callback;
  }

  // ---------------------------------------------------------------- steps in the latch

  /** A step inside the latch: the thread moves, threads that a signal wakes were asleep, and
      the status changes in two places. */
  ghost predicate InLatch(s: State, s': State, t: Tid, v: View, v': View) {
    && s' == s.(latch := s'.latch) && Tied(s') && t in s.pcs && t in s.latch.pcs && t in s'.latch.pcs
    && (forall u | u in s.latch.pcs && u != t :: u in s'.latch.pcs
          && (s'.latch.pcs[u] == s.latch.pcs[u] || (s.latch.pcs[u].Asleep? && s'.latch.pcs[u].Woken?)))
    && (var pc, pc' := s.latch.pcs[t], s'.latch.pcs[t];
        if pc.GetClear? then
          s.latch.posted && !s'.latch.posted && s.pcs[t].Getting? && pc'.GetSignal? && v' == v.(tok := Gone)
        else if pc.PostSet? then
          s'.latch.posted && s.pcs[t].Completing? && pc'.PostSignal? && v' == v.(tok := Posted)
        else
          s'.latch.posted == s.latch.posted && InGet(pc') == InGet(pc) && InPost(pc') == InPost(pc) && v' == v)
  }

  lemma LatchStepIs(s: State, m: L.Move, v: View)
    requires L.Inv(s.latch) && Tied(s) && Enabled(s, LatchStep(m))
    ensures InLatch(s, Do(s, LatchStep(m)), m.t, v, Follow(s, LatchStep(m), v)) && L.Inv(Do(s, LatchStep(m)).latch)
  {
    LatchChange(s, m);
    L.DoKeepsInv(s.latch, m);
    SpuriousIs(s.latch, m);
    hide L.Do, L.Enabled, L.Inv, Tied;
  }

  lemma SpuriousIs(l: L.State, m: L.Move)
    requires L.Enabled(l, m)
    ensures m.t in l.pcs && (!m.Step? ==> !l.pcs[m.t].GetClear? && !l.pcs[m.t].PostSet?)
    ensures L.Do(l, m).pcs.Keys == l.pcs.Keys
  {
  }

  lemma LatchPlaces(s: State, s': State, t: Tid, v: View, v': View)
    requires Inv(s, v) && InLatch(s, s', t, v, v')
    ensures Tied(s') && Sole(s', v')
  {
    hide L.Inv, InQueue, InHand, History, Callback;
  }

  lemma LatchInQueue(s: State, s': State, t: Tid, v: View, v': View)
    requires Inv(s, v) && InLatch(s, s', t, v, v')
    ensures InQueue(s', v')
  {
    hide L.Inv, Sole, History, Callback;
  }

  lemma LatchInHand(s: State, s': State, t: Tid, v: View, v': View)
    requires Inv(s, v) && InLatch(s, s', t, v, v')
    ensures InHand(s', v')
  {
    hide L.Inv, InQueue, History, Callback;
  }

  lemma LatchHistory(s: State, s': State, t: Tid, v: View, v': View)
    requires Inv(s, v) && InLatch(s, s', t, v, v')
    ensures History(s', v') && Callback(s', v')
  {
    hide L.Inv, InQueue;
  }

  lemma LatchKeeps(s: State, s': State, t: Tid, v: View, v': View)
    requires Inv(s, v) && InLatch(s, s', t, v, v') && L.Inv(s'.latch)
    ensures Inv(s', v')
  {
    hide L.Inv, InLatch;
    LatchPlaces(s, s', t, v, v');
    LatchInQueue(s, s', t, v, v');
    LatchInHand(s, s', t, v, v');
    LatchHistory(s, s', t, v, v');
    hide Tied, Sole, InQueue, InHand, History, Callback;
  }

  // ------------------------------------------------------------- steps of the callback

  lemma CallsChange(l: L.State, t: Tid)
    requires L.Inv(l) && t in l.pcs && l.pcs[t].Out?
    ensures var get := L.Do(l, L.CallGet(t)); get == l.(pcs := l.pcs[t := L.GetLock]) && L.Inv(get)
    ensures var post := L.Do(l, L.CallPost(t)); post == l.(pcs := l.pcs[t := L.PostLock]) && L.Inv(post)
  {
    L.DoKeepsInv(l, L.CallGet(t));
    L.DoKeepsInv(l, L.CallPost(t));
  }

  /** The order of the steps of the callback. */
  predicate NextInSession(pc: Pc, pc': Pc, ok: bool)
    requires InSession(pc)
  {
    match pc
    case SetData(ev) => pc' == SessionEnqueue(ev)
    case SessionEnqueue(ev) => pc' == SessionPost(ev, ok)
    case SessionPost(ev, _) => pc' == Getting(ev)
    case Getting(ev) => pc' == ClearData(ev)
    case ClearData(ev) => pc' == Reply(ev)
    case Reply(_) => pc' == Idle
  }

  ghost predicate InCallback(s: State, s': State, t: Tid, ok: bool, v: View, v': View) {
    && t in s.pcs && InSession(s.pcs[t]) && t in s'.pcs && s'.pcs == s.pcs[t := s'.pcs[t]]
    && t in s.latch.pcs && NextInSession(s.pcs[t], s'.pcs[t], ok)
    && (var pc := s.pcs[t];
        && (pc.Getting? ==> s.latch.pcs[t].Out?)
        && s'.latch.posted == s.latch.posted
        && s'.latch.pcs == (if pc.SessionPost? then s.latch.pcs[t := L.GetLock] else s.latch.pcs)
        && s'.queue == (if pc.SessionEnqueue? && ok then s.queue + [Session] else s.queue)
        && s'.data == (if pc.SetData? then EventOf(pc) else if pc.ClearData? then NULL else s.data)
        && s'.replied == (if pc.Reply? then s.replied + [EventOf(pc)] else s.replied)
        && s'.started == s.started && s'.handed == s.handed && s'.completed == s.completed
        && v' == if pc.SessionEnqueue? && ok then v.(tok := Queued) else if pc.Reply? then v.(who := NoOne) else v)
  }

  lemma CallbackStepIs(s: State, l: Label, v: View)
    requires L.Inv(s.latch) && Tied(s) && Enabled(s, l) && l.Step? && InSession(s.pcs[l.t])
    ensures InCallback(s, Do(s, l), l.t, l.ok, v, Follow(s, l, v)) && L.Inv(Do(s, l).latch)
  {
    hide PlainStep, Follow, L.Do, L.Enabled, L.Inv;
    CallbackFollows(s, l, v);
    if s.pcs[l.t].SessionPost? {
      CallsChange(s.latch, l.t);
    }
  }

  lemma CallbackFollows(s: State, l: Label, v: View)
    requires Enabled(s, l) && l.Step? && InSession(s.pcs[l.t])
    ensures Follow(s, l, v) ==
      if s.pcs[l.t].SessionEnqueue? && l.ok then v.(tok := Queued)
      else if s.pcs[l.t].Reply? then v.(who := NoOne)
      else v
  {
    hide L.Enabled;
  }

  lemma CallbackPlaces(s: State, s': State, t: Tid, ok: bool, v: View, v': View)
    requires Inv(s, v) && InCallback(s, s', t, ok, v, v')
    ensures Tied(s') && Sole(s', v')
  {
    hide L.Inv, InQueue, InHand, History, Callback;
  }

  lemma CallbackInQueue(s: State, s': State, t: Tid, ok: bool, v: View, v': View)
    requires Inv(s, v) && InCallback(s, s', t, ok, v, v')
    ensures InQueue(s', v')
  {
    hide L.Inv, Tied, History, Callback;
  }

  lemma CallbackInHand(s: State, s': State, t: Tid, ok: bool, v: View, v': View)
    requires Inv(s, v) && InCallback(s, s', t, ok, v, v')
    ensures InHand(s', v')
  {
    hide L.Inv, InQueue, History, Callback;
  }

  lemma CallbackHistory(s: State, s': State, t: Tid, ok: bool, v: View, v': View)
    requires Inv(s, v) && InCallback(s, s', t, ok, v, v')
    ensures History(s', v') && Callback(s', v')
  {
    hide L.Inv, InQueue;
  }

  lemma CallbackKeeps(s: State, s': State, t: Tid, ok: bool, v: View, v': View)
    requires Inv(s, v) && InCallback(s, s', t, ok, v, v') && L.Inv(s'.latch)
    ensures Inv(s', v')
  {
    hide L.Inv, InCallback;
    CallbackPlaces(s, s', t, ok, v, v');
    CallbackInQueue(s, s', t, ok, v, v');
    CallbackInHand(s, s', t, ok, v, v');
    CallbackHistory(s, s', t, ok, v, v');
    hide Tied, Sole, InQueue, InHand, History, Callback;
  }

  /** A new callback. */
  lemma CallKeeps(s: State, l: Label, v: View)
    requires Inv(s, v) && Enabled(s, l) && l.CallSession?
    ensures Inv(Do(s, l), Follow(s, l, v))
  {
    hide L.Do, L.Enabled, L.Inv;
  }

  // --------------------------------------------------------- steps of the application

  /** A session event is delivered, completed or forgotten. */
  ghost predicate ByApplication(s: State, l: Label)
    requires Enabled(s, l)
  {
    Special(s, l) && !l.LatchStep? && !l.CallSession? && (l.Step? ==> !InSession(s.pcs[l.t]))
  }

  datatype Deed = Taken | Completed | Forgotten

  ghost predicate InApplication(s: State, s': State, t: Tid, deed: Deed, v: View, v': View) {
    && t in s.pcs && t in s.latch.pcs && s.latch.pcs[t].Out? && t in s'.pcs && s'.pcs == s.pcs[t := s'.pcs[t]]
    && s'.latch.posted == s.latch.posted
    && s'.latch.pcs == (if deed == Completed then s.latch.pcs[t := L.PostLock] else s.latch.pcs)
    && s'.data == s.data && s'.started == s.started && s'.replied == s.replied
    && (match deed
        case Taken =>
          && s.pcs[t].Dequeue? && s.queue != [] && s.queue[0].Session? && s'.pcs[t] == Holding(Session)
          && s'.queue == s.queue[1..] && s'.handed == s.handed + [s.data] && s'.completed == s.completed
          && v' == v.(tok := With(t))
        case Completed =>
          && s.pcs[t] == Holding(Session) && s'.pcs[t] == Pc.Completing && s'.queue == s.queue
          && s'.handed == s.handed && s'.completed == s.completed + 1 && v' == v
        case Forgotten =>
          && s.pcs[t] == Holding(Session) && s'.pcs[t] == Idle && s'.queue == s.queue
          && s'.handed == s.handed && s'.completed == s.completed && v' == v.(tok := Gone))
  }

  function DeedOf(l: Label): Deed {
    if l.Complete? then Completed else if l.Forget? then Forgotten else Taken
  }

  lemma ApplicationStepIs(s: State, l: Label, v: View)
    requires L.Inv(s.latch) && Tied(s) && Enabled(s, l) && ByApplication(s, l)
    ensures InApplication(s, Do(s, l), Actor(l), DeedOf(l), v, Follow(s, l, v)) && L.Inv(Do(s, l).latch)
  {
    hide SessionStep, PlainStep, Follow, L.Do, L.Enabled, L.Inv;
    assert s.latch.pcs[l.t].Out?;
    CallsChange(s.latch, l.t);
    ApplicationFollows(s, l, v);
    if l.Step? {
      TakingIs(s, l.t, l.ok);
    }
  }

  lemma ApplicationFollows(s: State, l: Label, v: View)
    requires Enabled(s, l) && ByApplication(s, l)
    ensures Follow(s, l, v) ==
      if l.Forget? then v.(tok := Gone) else if l.Step? then v.(tok := With(l.t)) else v
  {
    hide L.Enabled;
  }

  lemma TakingIs(s: State, t: Tid, ok: bool)
    requires Enabled(s, Step(t, ok)) && s.pcs[t].Dequeue? && s.queue != []
    ensures PlainStep(s, t, ok) == Take(s, t)
  {
    hide L.Enabled;
  }

  lemma ApplicationPlaces(s: State, s': State, t: Tid, deed: Deed, v: View, v': View)
    requires Inv(s, v) && InApplication(s, s', t, deed, v, v')
    ensures Tied(s') && Sole(s', v')
  {
    hide L.Inv, InQueue, InHand, History, Callback;
  }

  lemma ApplicationInQueue(s: State, s': State, t: Tid, deed: Deed, v: View, v': View)
    requires Inv(s, v) && InApplication(s, s', t, deed, v, v')
    ensures InQueue(s', v')
  {
    hide L.Inv, Tied, Sole, History, Callback;
    if |s'.queue| < |s.queue| {
      assert forall i | 0 <= i < |s'.queue| :: s'.queue[i] == s.queue[i + 1];
    }
  }

  lemma ApplicationInHand(s: State, s': State, t: Tid, deed: Deed, v: View, v': View)
    requires Inv(s, v) && InApplication(s, s', t, deed, v, v')
    ensures InHand(s', v')
  {
    hide L.Inv, History, Callback;
  }

  lemma ApplicationHistory(s: State, s': State, t: Tid, deed: Deed, v: View, v': View)
    requires Inv(s, v) && InApplication(s, s', t, deed, v, v')
    ensures History(s', v') && Callback(s', v')
  {
    hide L.Inv;
  }

  lemma ApplicationKeeps(s: State, s': State, t: Tid, deed: Deed, v: View, v': View)
    requires Inv(s, v) && InApplication(s, s', t, deed, v, v') && L.Inv(s'.latch)
    ensures Inv(s', v')
  {
    hide L.Inv, InApplication;
    ApplicationPlaces(s, s', t, deed, v, v');
    ApplicationInQueue(s, s', t, deed, v, v');
    ApplicationInHand(s, s', t, deed, v, v');
    ApplicationHistory(s, s', t, deed, v, v');
    hide Tied, Sole, InQueue, InHand, History, Callback;
  }

  lemma DoKeepsInv(s: State, l: Label, v: View)
    requires Inv(s, v) && Enabled(s, l)
    ensures Inv(Do(s, l), Follow(s, l, v))
  {
    var s', v' := Do(s, l), Follow(s, l, v);
    hide Sole, InQueue, InHand, History, Callback, Tied, L.Inv, Do, Enabled, Follow;
    if !Special(s, l) {
      OthersAreNeutral(s, l, v);
      SameLatch(s, s', Actor(l), v, v');
      NeutralKeeps(s, s', Actor(l), v, v');
    } else if l.LatchStep? {
      LatchStepIs(s, l.m, v);
      LatchKeeps(s, s', l.m.t, v, v');
    } else if l.CallSession? {
      CallKeeps(s, l, v);
    } else if l.Step? && InSession(s.pcs[l.t]) {
      CallbackStepIs(s, l, v);
      CallbackKeeps(s, s', l.t, l.ok, v, v');
    } else {
      ApplicationStepIs(s, l, v);
      ApplicationKeeps(s, s', Actor(l), DeedOf(l), v, v');
    }
  }

  lemma SameLatch(s: State, s': State, t: Tid, v: View, v': View)
    requires Neutral(s, s', t, v, v')
    ensures s'.latch == s.latch
  {
  }

  // ------------------------------------------------------------------ main results

  lemma InitInv(ts: set<Tid>, n: nat)
    ensures Inv(Init(ts, n), View(Gone, NoOne))
  {
  }

  lemma {:induction false} RunKeepsInv(ss: seq<State>, k: nat) returns (v: View)
    requires IsRun(ss) && k < |ss|
    ensures Inv(ss[k], v)
  {
    hide *;
    if k > 0 {
      var l := StepOf(ss, k);
      var u := RunKeepsInv(ss, k - 1);
      DoKeepsInv(ss[k - 1], l, u);
      v := Follow(ss[k - 1], l, u);
    } else {
      var ts, n := Begins(ss);
      InitInv(ts, n);
      v := View(Gone, NoOne);
    }
  }

  /** In every state of every run: session callbacks, deliveries, completions and replies
      happen in the same order, a reply never before its completion and a completion never
      before its delivery; and whoever has a delivered session event that is not yet
      completed reads the data of the latest callback, which is the one it belongs to. */
  lemma SessionHandshake(ss: seq<State>, k: nat)
    requires IsRun(ss) && k < |ss|
    ensures var s := ss[k];
      && |s.replied| <= s.completed <= |s.handed| <= |s.started|
      && s.replied == s.started[..|s.replied|] && s.handed == s.started[..|s.handed|]
    ensures forall t | t in ss[k].pcs && ss[k].pcs[t] == Holding(Session) ::
      var s := ss[k];
      && |s.replied| == s.completed == |s.handed| - 1 && |s.handed| == |s.started|
      && s.data == s.started[s.completed]
    ensures forall t, u | Bears(ss[k], t) && Bears(ss[k], u) :: t == u
  {
    var v := RunKeepsInv(ss, k);
    hide L.Inv, IsRun;
    var s := ss[k];
    forall t | t in s.pcs && s.pcs[t] == Holding(Session)
      ensures |s.replied| == s.completed == |s.handed| - 1 && |s.handed| == |s.started|
      ensures s.data == s.started[s.completed]
    {
      assert Bears(s, t);
      assert Open(s, v.who.t);
    }
  }

  /** The callback is between the first and the second setting of the event's data. */
  predicate DataSet(pc: Pc) {
    pc.SessionEnqueue? || pc.SessionPost? || pc.Getting? || pc.ClearData?
  }

  /** In every run, the session event carries data exactly while a session callback is between
      the two settings of it, and then the data of that callback. */
  lemma {:induction false} DataIsCleared(ss: seq<State>, k: nat)
    requires IsRun(ss) && k < |ss|
    ensures forall t | t in ss[k].pcs && DataSet(ss[k].pcs[t]) :: ss[k].data == ss[k].pcs[t].ev
    ensures (forall t | t in ss[k].pcs :: !DataSet(ss[k].pcs[t])) ==> ss[k].data == NULL
  {
    hide Enabled, Do, Inv;
    if k > 0 {
      DataIsCleared(ss, k - 1);
      var l := StepOf(ss, k);
      var v := RunKeepsInv(ss, k - 1);
      SoleOf(ss[k - 1], v);
      DoKeepsData(ss[k - 1], l);
    } else {
      var ts, n := Begins(ss);
    }
  }

  /** At most one session callback runs. */
  ghost predicate OneCallback(s: State) {
    forall t, u | t in s.pcs && u in s.pcs && InSession(s.pcs[t]) && InSession(s.pcs[u]) :: t == u
  }

  lemma SoleOf(s: State, v: View)
    requires Inv(s, v)
    ensures OneCallback(s)
  {
    hide L.Inv, Tied, InQueue, InHand, History, Callback;
  }

  ghost predicate DataRight(s: State) {
    && (forall t | t in s.pcs && DataSet(s.pcs[t]) :: s.data == s.pcs[t].ev)
    && ((forall t | t in s.pcs :: !DataSet(s.pcs[t])) ==> s.data == NULL)
  }

  lemma SessionKeepsData(s: State, t: Tid, ok: bool)
    requires Enabled(s, Step(t, ok)) && InSession(s.pcs[t]) && OneCallback(s) && DataRight(s)
    ensures DataRight(SessionStep(s, t, ok))
  {
    hide L.Do, L.Enabled;
    var s' := SessionStep(s, t, ok);
    assert forall u | u in s.pcs && u != t :: s'.pcs[u] == s.pcs[u] && !DataSet(s.pcs[u]);
    assert s.pcs[t].Reply? ==> forall u | u in s.pcs :: !DataSet(s.pcs[u]);
    assert t in s'.pcs && (DataSet(s'.pcs[t]) || s'.data == NULL);
  }

  lemma OthersKeepData(s: State, l: Label)
    requires Enabled(s, l) && !(l.Step? && InSession(s.pcs[l.t]))
    ensures var s', t := Do(s, l), Actor(l);
      && t in s.pcs && t in s'.pcs && s'.pcs == s.pcs[t := s'.pcs[t]] && s'.data == s.data
      && (s'.pcs[t] == s.pcs[t] || (!DataSet(s.pcs[t]) && !DataSet(s'.pcs[t])))
  {
    hide L.Do, L.Enabled, SessionStep;
  }

  lemma DoKeepsData(s: State, l: Label)
    requires Enabled(s, l) && OneCallback(s) && DataRight(s)
    ensures DataRight(Do(s, l))
  {
    if l.Step? && InSession(s.pcs[l.t]) {
      hide L.Do, L.Enabled, SessionStep, PlainStep, DataRight, OneCallback;
      SessionKeepsData(s, l.t, l.ok);
    } else {
      OthersKeepData(s, l);
      hide Do, Enabled, OneCallback, DataSet;
      var s' := Do(s, l);
      if forall u | u in s'.pcs :: !DataSet(s'.pcs[u]) {
        forall u | u in s.pcs ensures !DataSet(s.pcs[u]) {
          assert !DataSet(s'.pcs[u]);
        }
      }
    }
  }

  /** How many completions have not reached the latch yet. */
  function Unposted(s: State, v: View): nat {
    if v.tok.With? && v.tok.t in s.pcs && s.pcs[v.tok.t].Completing? then 1 else 0
  }

  /** What a step adds to the completions, and to the posts. */
  lemma PostsChange(s: State, l: Label)
    requires Enabled(s, l)
    ensures var t, s' := Actor(l), Do(s, l);
      && t in s.pcs && t in s'.pcs && s'.pcs == s.pcs[t := s'.pcs[t]]
      && s'.completed == s.completed + (if l.Complete? && s.pcs[t].e.Session? then 1 else 0)
      && s'.latch.posts ==
           s.latch.posts + (if l.LatchStep? && l.m.Step? && s.latch.pcs[l.m.t].PostSet? then 1 else 0)
  {
    hide L.Enabled, SessionStep, PlainStep;
    if l.Step? {
      StepPosts(s, l.t, l.ok);
    }
  }

  lemma StepPosts(s: State, t: Tid, ok: bool)
    requires Enabled(s, Step(t, ok))
    ensures var s' := if InSession(s.pcs[t]) then SessionStep(s, t, ok) else PlainStep(s, t, ok);
      && t in s.pcs && t in s'.pcs && s'.pcs == s.pcs[t := s'.pcs[t]]
      && s'.completed == s.completed && s'.latch.posts == s.latch.posts
  {
    hide L.Enabled;
  }

  /** How the token moves, as far as completions are concerned. */
  ghost predicate Balances(s: State, s': State, v: View, v': View, posts: bool, completes: bool) {
    Unposted(s', v') + (if posts then 1 else 0) == Unposted(s, v) + (if completes then 1 else 0)
  }

  lemma LatchBalances(s: State, m: L.Move, v: View)
    requires Inv(s, v) && Enabled(s, LatchStep(m))
    ensures var posts := m.Step? && s.latch.pcs[m.t].PostSet?;
      Balances(s, Do(s, LatchStep(m)), v, Follow(s, LatchStep(m), v), posts, false)
  {
    LatchChange(s, m);
    assert Bears(s, m.t) ==> v.tok == With(m.t);
    hide L.Inv, L.Do, L.Enabled, Sole, InQueue, History, Callback;
  }

  lemma StepBalances(s: State, t: Tid, ok: bool, v: View)
    requires Inv(s, v) && Enabled(s, Step(t, ok))
    ensures Balances(s, Do(s, Step(t, ok)), v, Follow(s, Step(t, ok), v), false, false)
  {
    assert v.tok == With(t) ==> Bears(s, t);
    hide L.Inv, L.Do, L.Enabled, Sole, Tied, History, Callback, Open;
  }

  lemma DeedBalances(s: State, l: Label, v: View)
    requires Inv(s, v) && Enabled(s, l) && !l.LatchStep? && !l.Step?
    ensures Balances(s, Do(s, l), v, Follow(s, l, v), false, l.Complete? && s.pcs[l.t].e.Session?)
  {
    assert s.pcs[l.t] == Holding(Session) ==> Bears(s, l.t);
    assert v.tok == With(l.t) ==> Bears(s, l.t);
    hide L.Inv, L.Do, L.Enabled, Sole, InQueue, History, Callback, Open;
  }

  lemma DoKeepsPosts(s: State, l: Label, v: View)
    requires Inv(s, v) && Enabled(s, l) && s.completed == s.latch.posts + Unposted(s, v)
    ensures Do(s, l).completed == Do(s, l).latch.posts + Unposted(Do(s, l), Follow(s, l, v))
  {
    PostsChange(s, l);
    hide Inv, Do, Enabled, Unposted, Follow;
    if l.LatchStep? {
      LatchBalances(s, l.m, v);
    } else if l.Step? {
      StepBalances(s, l.t, l.ok, v);
    } else {
      DeedBalances(s, l, v);
    }
  }

  lemma {:induction false} CountCompletions(ss: seq<State>, k: nat) returns (v: View)
    requires IsRun(ss) && k < |ss|
    ensures Inv(ss[k], v) && ss[k].completed == ss[k].latch.posts + Unposted(ss[k], v)
  {
    hide *;
    if k > 0 {
      var l := StepOf(ss, k);
      var u := CountCompletions(ss, k - 1);
      DoKeepsInv(ss[k - 1], l, u);
      DoKeepsPosts(ss[k - 1], l, u);
      v := Follow(ss[k - 1], l, u);
    } else {
      var ts, n := Begins(ss);
      InitInv(ts, n);
      InitCounts(ts, n);
      v := View(Gone, NoOne);
    }
  }

  lemma InitCounts(ts: set<Tid>, n: nat)
    ensures Init(ts, n).completed == Init(ts, n).latch.posts + Unposted(Init(ts, n), View(Gone, NoOne))
  {
  }

  /** In every run, completing a session event posts the latch, once: the posts are the
      completions, up to one whose thread is about to post. */
  lemma CompletionsPost(ss: seq<State>, k: nat)
    requires IsRun(ss) && k < |ss|
    ensures ss[k].latch.posts <= ss[k].completed <= ss[k].latch.posts + 1
    ensures ss[k].completed > ss[k].latch.posts ==> exists t :: Bears(ss[k], t) && ss[k].pcs[t].Completing?
  {
    var v := CountCompletions(ss, k);
    hide IsRun, L.Inv, Sole, InQueue, History, Callback, Tied;
    if ss[k].completed > ss[k].latch.posts {
      assert Bears(ss[k], v.tok.t);
    }
  }

  /** Outside the latch nobody is ever stuck: every thread that is in a callback, or in get_event
      and not waiting, or through with the latch, can take its next step; and what a thread holds
      it can complete, or drop, at once. */
  lemma CanStep(ss: seq<State>, k: nat, t: Tid)
    requires IsRun(ss) && k < |ss| && t in ss[k].pcs
    ensures var s, pc := ss[k], ss[k].pcs[t];
      && t in s.latch.pcs
      && (pc.Idle? ==>
            Enabled(s, CallProcess(t)) && Enabled(s, CallGetEvent(t)) && forall e :: Enabled(s, CallPlain(t, e)))
      && (pc.Holding? ==> Enabled(s, Complete(t)) && Enabled(s, Forget(t)))
      && (pc.Wait? ==> Enabled(s, Step(t, false)) && (s.sem > 0 ==> Enabled(s, Step(t, true))))
      && (pc.Getting? || pc.Completing? ==> s.latch.pcs[t].Out? ==> Enabled(s, Step(t, true)))
      && (!(pc.Idle? || pc.Holding? || pc.Wait? || pc.Getting? || pc.Completing?) ==>
            forall ok :: Enabled(s, Step(t, ok)))
  {
    var v := RunKeepsInv(ss, k);
    hide IsRun, L.Inv, Sole, InQueue, InHand, History, Callback;
  }

  /** `s'` can be reached from `s` in at most `n` steps. */
  ghost predicate Reaches(s: State, s': State, n: nat)
    decreases n
  {
    s == s' || (n > 0 && exists l :: Enabled(s, l) && Reaches(Do(s, l), s', n - 1))
  }

  /** The oldest event of `s` has been taken out of the queue, and some thread has it. */
  ghost predicate Delivered(s: State, s': State)
    requires s.queue != []
  {
    && s'.queue == s.queue[1..] && s'.delivered == s.delivered + [s.queue[0]]
    && exists t :: t in s'.pcs && s'.pcs[t] == Holding(s.queue[0])
  }

  lemma DequeueDelivers(s: State, t: Tid, n: nat)
    requires Tied(s) && t in s.pcs && s.pcs[t].Dequeue? && s.queue != [] && n >= 1
    ensures exists s' :: Reaches(s, s', n) && Delivered(s, s')
  {
    hide L.Do, L.Enabled, SessionStep;
    assert Enabled(s, Step(t, true));
    var s' := Do(s, Step(t, true));
    assert s'.pcs[t] == Holding(s.queue[0]);
    assert Reaches(s', s', n - 1);
    assert Reaches(s, s', n);
  }

  lemma WaitDelivers(s: State, t: Tid, n: nat)
    requires Tied(s) && t in s.pcs && s.pcs[t].Wait? && s.sem > 0 && s.queue != [] && n >= 2
    ensures exists s' :: Reaches(s, s', n) && Delivered(s, s')
  {
    hide L.Do, L.Enabled, SessionStep;
    assert Enabled(s, Step(t, true));
    var s1 := Do(s, Step(t, true));
    DequeueDelivers(s1, t, n - 1);
    var s' :| Reaches(s1, s', n - 1) && Delivered(s1, s');
    assert Reaches(s, s', n);
  }

  /** A post raises the semaphore and moves its own thread only. */
  ghost predicate Posts(s: State, u: Tid, s': State) {
    && s'.sem == s.sem + 1 && s'.queue == s.queue && s'.delivered == s.delivered
    && u in s'.pcs && s'.pcs == s.pcs[u := s'.pcs[u]]
  }

  lemma PlainPostChange(s: State, u: Tid)
    requires Tied(s) && u in s.pcs && Posting(s.pcs[u]) && !s.pcs[u].SessionPost?
    ensures Enabled(s, Step(u, true)) && Posts(s, u, Do(s, Step(u, true))) && Tied(Do(s, Step(u, true)))
  {
    hide L.Do, L.Enabled, SessionStep;
  }

  lemma SessionPostChange(s: State, u: Tid)
    requires L.Inv(s.latch) && Tied(s) && u in s.pcs && s.pcs[u].SessionPost?
    ensures Enabled(s, Step(u, true)) && Posts(s, u, Do(s, Step(u, true))) && Tied(Do(s, Step(u, true)))
  {
    assert L.Enabled(s.latch, L.CallGet(u));
    CallsChange(s.latch, u);
    hide L.Do, L.Enabled, L.Inv, PlainStep;
  }

  lemma PostDelivers(s: State, t: Tid, u: Tid)
    requires L.Inv(s.latch) && Tied(s) && t in s.pcs && s.pcs[t].Wait? && s.queue != []
    requires u in s.pcs && Posting(s.pcs[u])
    ensures exists s' :: Reaches(s, s', 3) && Delivered(s, s')
  {
    hide Tied, Do, Enabled, L.Inv;
    if s.pcs[u].SessionPost? {
      SessionPostChange(s, u);
    } else {
      PlainPostChange(s, u);
    }
    var s1 := Do(s, Step(u, true));
    WaitDelivers(s1, t, 2);
    var s' :| Reaches(s1, s', 2) && Delivered(s1, s');
    assert Reaches(s, s', 3);
  }

  /** In every state of every run with an event queued and a thread in get_event, three more
      steps can have get_event return the oldest event: the wake-up it needs has not been lost. */
  lemma DeliveryIsPossible(ss: seq<State>, k: nat, t: Tid)
    requires IsRun(ss) && k < |ss| && ss[k].queue != []
    requires t in ss[k].pcs && (ss[k].pcs[t].Dequeue? || ss[k].pcs[t].Wait?)
    ensures exists s' :: Reaches(ss[k], s', 3) && Delivered(ss[k], s')
  {
    var s := ss[k];
    var v := RunKeepsInv(ss, k);
    NoLostWakeup(ss, k);
    hide IsRun;
    if s.pcs[t].Dequeue? {
      DequeueDelivers(s, t, 3);
    } else if s.sem > 0 {
      WaitDelivers(s, t, 3);
    } else {
      var u :| u in s.pcs && (Posting(s.pcs[u]) || Awake(s.pcs[u]));
      if Posting(s.pcs[u]) {
        PostDelivers(s, t, u);
      } else {
        DequeueDelivers(s, u, 3);
      }
    }
  }
}
