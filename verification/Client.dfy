/** Event delivery: callbacks put events into the queue and post the semaphore, the
    application takes events out and waits on the semaphore, and a session callback waits on
    the latch until the application completes its event.  One step is one call on the queue,
    the semaphore or the event, or one step inside the latch. */
module Client {
  import opened Words
  import L = Latch

  /** A `jack_session_event_t *`. */
  type Ptr = nat

  datatype Event = Process | Session | SampleRate | Shutdown

  type Plain = e: Event | e.SampleRate? || e.Shutdown? witness Shutdown

  datatype Pc =
    | Idle
    // the process callback, at port `i`
    | Port(i: nat) | PortEnqueue(i: nat) | PortPost(i: nat)
    // the shutdown and sample rate callbacks; `queued` tells whether the enqueue succeeded
    | PlainEnqueue(plain: Plain) | PlainPost(queued: bool)
    // the session callback for the session event `ev`
    | SetData(ev: Ptr) | SessionEnqueue(ev: Ptr) | SessionPost(ev: Ptr, queued: bool)
    | Getting(ev: Ptr) | ClearData(ev: Ptr) | Reply(ev: Ptr)
    // the application: getting an event, `awake` after a completed wait
    | Dequeue(awake: bool) | Wait | Holding(e: Event) | Completing

  /** `delivered`, `enqueued`, `started`, `handed`, `completed` and `replied` record what has
      happened: events that left and entered the queue, session callbacks begun, the data a
      session event carried when it was delivered, completions, replies. */
  datatype State = State(
    nports: nat,
    queue: seq<Event>, sem: nat, data: Ptr, pcs: map<Tid, Pc>, latch: L.State,
    enqueued: seq<Event>, delivered: seq<Event>,
    started: seq<Ptr>, handed: seq<Ptr>, completed: nat, replied: seq<Ptr>)

  datatype Label =
    | CallProcess(t: Tid)
    | CallPlain(t: Tid, e: Plain)
    | CallSession(t: Tid, ev: Ptr)
    | CallGetEvent(t: Tid)
    /** The next step of `t`.  `ok` is the outcome of a call that may fail: writing to the
        ring buffer, enqueuing, or waiting, which a signal handler may interrupt. */
    | Step(t: Tid, ok: bool)
    | LatchStep(m: L.Move)
    | Complete(t: Tid)
    | Forget(t: Tid)

  predicate InSession(pc: Pc) {
    pc.SetData? || pc.SessionEnqueue? || pc.SessionPost? || pc.Getting? || pc.ClearData? || pc.Reply?
  }

  function Actor(l: Label): Tid {
    if l.LatchStep? then l.m.t else l.t
  }

  /** Session callbacks are serialised; a session event is completed at most once per
      delivery, because completing ends the holding of it. */
  ghost predicate Enabled(s: State, l: Label) {
    var t := Actor(l);
    t in s.pcs && s.latch.pcs.Keys == s.pcs.Keys &&
    match l
    case CallProcess(_) => s.pcs[t].Idle?
    case CallPlain(_, _) => s.pcs[t].Idle?
    case CallSession(_, _) => s.pcs[t].Idle? && forall u | u in s.pcs :: !InSession(s.pcs[u])
    case CallGetEvent(_) => s.pcs[t].Idle?
    case LatchStep(m) =>
      (m.Step? || m.Spurious?) && (s.pcs[t].Getting? || s.pcs[t].Completing?) && L.Enabled(s.latch, m)
    case Complete(_) => s.pcs[t].Holding? && (s.pcs[t].e.Session? ==> L.Enabled(s.latch, L.CallPost(t)))
    case Forget(_) => s.pcs[t].Holding?
    case Step(_, ok) =>
      match s.pcs[t]
      case Idle => false
      case Holding(_) => false
      case Wait => ok ==> s.sem > 0
      case SessionPost(_, _) => L.Enabled(s.latch, L.CallGet(t))
      case Getting(_) => s.latch.pcs[t].Out?
      case Completing => s.latch.pcs[t].Out?
      case _ => true
  }

  function At(s: State, t: Tid, pc: Pc): State {
    s.(pcs := s.pcs[t := pc])
  }

  /** An enqueue that succeeded. */
  function Put(s: State, e: Event): State {
    s.(queue := s.queue + [e], enqueued := s.enqueued + [e])
  }

  function Take(s: State, t: Tid): State
    requires s.queue != []
  {
    var e := s.queue[0];
    At(s.(queue := s.queue[1..], delivered := s.delivered + [e],
          handed := if e.Session? then s.handed + [s.data] else s.handed), t, Holding(e))
  }

  /** The session callback. */
  ghost function SessionStep(s: State, t: Tid, ok: bool): State
    requires Enabled(s, Step(t, ok)) && InSession(s.pcs[t])
  {
    match s.pcs[t]
    case SetData(ev) => At(s.(data := ev), t, SessionEnqueue(ev))
    case SessionEnqueue(ev) => At(if ok then Put(s, Session) else s, t, SessionPost(ev, ok))
    case SessionPost(ev, _) => At(s.(sem := s.sem + 1, latch := L.Do(s.latch, L.CallGet(t))), t, Getting(ev))
    case Getting(ev) => At(s, t, ClearData(ev))
    case ClearData(ev) => At(s.(data := NULL), t, Reply(ev))
    case Reply(ev) => At(s.(replied := s.replied + [ev]), t, Idle)
  }

  /** The other callbacks and the application. */
  ghost function PlainStep(s: State, t: Tid, ok: bool): State
    requires Enabled(s, Step(t, ok)) && !InSession(s.pcs[t])
  {
    match s.pcs[t]
    case Port(i) => At(s, t, if i < s.nports && ok then PortEnqueue(i) else Idle)
    case PortEnqueue(i) => if ok then At(Put(s, Process), t, PortPost(i)) else At(s, t, Idle)
    case PortPost(i) => At(s.(sem := s.sem + 1), t, Port(i + 1))
    case PlainEnqueue(e) => At(if ok then Put(s, e) else s, t, PlainPost(ok))
    case PlainPost(_) => At(s.(sem := s.sem + 1), t, Idle)
    case Dequeue(_) => if s.queue == [] then At(s, t, Wait) else Take(s, t)
    case Wait => if ok then At(s.(sem := s.sem - 1), t, Dequeue(true)) else At(s, t, Dequeue(false))
    case Completing => At(s, t, Idle)
  }

  ghost function Do(s: State, l: Label): (r: State)
    requires Enabled(s, l)
  {
    var t := Actor(l);
    match l
    case CallProcess(_) => At(s, t, Port(0))
    case CallPlain(_, e) => At(s, t, PlainEnqueue(e))
    case CallSession(_, ev) => At(s.(started := s.started + [ev]), t, SetData(ev))
    case CallGetEvent(_) => At(s, t, Dequeue(false))
    case LatchStep(m) => s.(latch := L.Do(s.latch, m))
    case Complete(_) =>
      if s.pcs[t].e.Session?
      then At(s.(latch := L.Do(s.latch, L.CallPost(t)), completed := s.completed + 1), t, Completing)
      else At(s, t, Idle)
    case Forget(_) => At(s, t, Idle)
    case Step(_, ok) => if InSession(s.pcs[t]) then SessionStep(s, t, ok) else PlainStep(s, t, ok)
  }

  /** JacksRbClient_new */
  function Init(ts: set<Tid>, nports: nat): State {
    State(nports, [], 1, NULL, map t | t in ts :: Idle, L.Init(ts), [], [], [], [], 0, [])
  }

  ghost predicate IsRun(ss: seq<State>) {
    && 0 < |ss| && (exists ts, n :: ss[0] == Init(ts, n))
    && (forall i, j | 0 <= i && j == i + 1 && j < |ss| :: StepsTo(ss[i], ss[j]))
  }

  /** Some thread's step leads from `s` to `s'`. */
  ghost predicate StepsTo(s: State, s': State) {
    exists l :: Enabled(s, l) && s' == Do(s, l)
  }

  // ------------------------------------------------------------- no lost wake-up

  /** The threads at a given kind of place. */
  ghost function Those(pcs: map<Tid, Pc>, p: Pc -> bool): set<Tid> {
    set t | t in pcs && p(pcs[t])
  }

  /** Between a successful enqueue and the post that follows it. */
  predicate Posting(pc: Pc) {
    pc.PortPost? || (pc.PlainPost? && pc.queued) || (pc.SessionPost? && pc.queued)
  }

  /** Between a completed wait and the dequeue that follows it. */
  predicate Awake(pc: Pc) {
    pc.Dequeue? && pc.awake
  }

  lemma ThoseAfter(pcs: map<Tid, Pc>, t: Tid, pc: Pc, p: Pc -> bool)
    requires t in pcs
    ensures |Those(pcs[t := pc], p)| == |Those(pcs, p)| - (if p(pcs[t]) then 1 else 0) + (if p(pc) then 1 else 0)
  {
    var before, after := Those(pcs, p), Those(pcs[t := pc], p);
    SizeWithout(before, t);
    SizeWithout(after, t);
    assert (t in before <==> p(pcs[t])) && (t in after <==> p(pc));
    assert forall u | u != t :: u in before <==> u in after;
    hide Those;
    assert before - {t} == after - {t};
  }

  lemma SizeWithout(s: set<Tid>, t: Tid)
    ensures |s| == |s - {t}| + (if t in s then 1 else 0)
  {
    if t in s {
      assert s == (s - {t}) + {t};
    } else {
      assert s == s - {t};
    }
  }

  /** Every queued event has a wake-up on its way. */
  ghost predicate Covered(s: State) {
    |s.queue| <= s.sem + |Those(s.pcs, Posting)| + |Those(s.pcs, Awake)|
  }

  /** The queue holds what was enqueued and not yet delivered, in order. */
  ghost predicate Logged(s: State) {
    s.enqueued == s.delivered + s.queue && s.latch.pcs.Keys == s.pcs.Keys
  }

  lemma PutKeepsLogged(s: State, e: Event)
    requires Logged(s)
    ensures Logged(Put(s, e)) && Put(s, e).pcs == s.pcs
  {
  }

  lemma TakeKeepsLogged(s: State, t: Tid)
    requires Logged(s) && s.queue != [] && t in s.pcs
    ensures Logged(Take(s, t))
  {
    assert s.queue == [s.queue[0]] + s.queue[1..];
  }

  lemma SessionKeepsLogged(s: State, t: Tid, ok: bool)
    requires Logged(s) && Enabled(s, Step(t, ok)) && InSession(s.pcs[t])
    ensures Logged(SessionStep(s, t, ok))
  {
    hide L.Do, L.Enabled, Put;
    PutKeepsLogged(s, Session);
  }

  lemma PlainKeepsLogged(s: State, t: Tid, ok: bool)
    requires Logged(s) && Enabled(s, Step(t, ok)) && !InSession(s.pcs[t])
    ensures Logged(PlainStep(s, t, ok))
  {
    hide L.Do, L.Enabled, Put, Take;
    match s.pcs[t] {
      case Dequeue(_) =>
        if s.queue != [] {
          TakeKeepsLogged(s, t);
        }
      case PlainEnqueue(e) => PutKeepsLogged(s, e);
      case PortEnqueue(_) => PutKeepsLogged(s, Process);
      case _ =>
    }
  }

  lemma DoKeepsLogged(s: State, l: Label)
    requires Logged(s) && Enabled(s, l)
    ensures Logged(Do(s, l))
  {
    hide L.Do, L.Enabled, SessionStep, PlainStep;
    if l.Step? && InSession(s.pcs[l.t]) {
      SessionKeepsLogged(s, l.t, l.ok);
    } else if l.Step? {
      PlainKeepsLogged(s, l.t, l.ok);
    }
  }

  /** What a place contributes to the balance. */
  function Owed(pc: Pc): nat {
    if Posting(pc) || Awake(pc) then 1 else 0
  }

  /** A step of `t` takes no more wake-ups away than events. */
  ghost predicate Balanced(s: State, s': State, t: Tid) {
    && t in s.pcs && t in s'.pcs && s'.pcs == s.pcs[t := s'.pcs[t]]
    && (s'.queue == [] || |s'.queue| - s'.sem - Owed(s'.pcs[t]) <= |s.queue| - s.sem - Owed(s.pcs[t]))
  }

  lemma SessionBalance(s: State, t: Tid, ok: bool)
    requires Enabled(s, Step(t, ok)) && InSession(s.pcs[t])
    ensures Balanced(s, SessionStep(s, t, ok), t)
  {
    hide L.Do, L.Enabled;
  }

  lemma PlainBalance(s: State, t: Tid, ok: bool)
    requires Enabled(s, Step(t, ok)) && !InSession(s.pcs[t])
    ensures Balanced(s, PlainStep(s, t, ok), t)
  {
    hide L.Do, L.Enabled;
  }

  lemma Balance(s: State, l: Label)
    requires Enabled(s, l)
    ensures Balanced(s, Do(s, l), Actor(l))
  {
    if l.Step? && InSession(s.pcs[l.t]) {
      SessionBalance(s, l.t, l.ok);
    } else if l.Step? {
      PlainBalance(s, l.t, l.ok);
    }
    hide L.Do, L.Enabled, SessionStep, PlainStep;
  }

  lemma DoKeepsCovered(s: State, l: Label)
    requires Covered(s) && Enabled(s, l)
    ensures Covered(Do(s, l))
  {
    Balance(s, l);
    hide Do, Enabled;
    var t, s' := Actor(l), Do(s, l);
    ThoseAfter(s.pcs, t, s'.pcs[t], Posting);
    ThoseAfter(s.pcs, t, s'.pcs[t], Awake);
  }

  lemma Begins(ss: seq<State>) returns (ts: set<Tid>, n: nat)
    requires IsRun(ss)
    ensures ss[0] == Init(ts, n)
  {
    hide StepsTo, Init;
    ts, n :| ss[0] == Init(ts, n);
  }

  /** The step that leads to state `k` of a run. */
  lemma StepOf(ss: seq<State>, k: nat) returns (l: Label)
    requires IsRun(ss) && 0 < k < |ss|
    ensures Enabled(ss[k - 1], l) && ss[k] == Do(ss[k - 1], l)
  {
    hide Enabled, Do, Init;
    assert StepsTo(ss[k - 1], ss[k]);
    l :| Enabled(ss[k - 1], l) && ss[k] == Do(ss[k - 1], l);
  }

  lemma {:induction false} RunKeepsCovered(ss: seq<State>, k: nat)
    requires IsRun(ss) && k < |ss|
    ensures Covered(ss[k]) && Logged(ss[k])
  {
    if k > 0 {
      hide Enabled, Do, Covered, Logged;
      RunKeepsCovered(ss, k - 1);
      var l := StepOf(ss, k);
      DoKeepsCovered(ss[k - 1], l);
      DoKeepsLogged(ss[k - 1], l);
    } else {
      var ts, n := Begins(ss);
      assert ss[0].latch.pcs.Keys == ss[0].pcs.Keys;
    }
  }

  /** No state of any run has an event queued, every producer finished and every consumer
      asleep on a semaphore at zero. */
  lemma NoLostWakeup(ss: seq<State>, k: nat)
    requires IsRun(ss) && k < |ss| && ss[k].queue != []
    ensures |ss[k].queue| <= ss[k].sem + |Those(ss[k].pcs, Posting)| + |Those(ss[k].pcs, Awake)|
    ensures ss[k].sem > 0 || exists t :: t in ss[k].pcs && (Posting(ss[k].pcs[t]) || Awake(ss[k].pcs[t]))
  {
    RunKeepsCovered(ss, k);
    var s := ss[k];
    if s.sem == 0 {
      if Those(s.pcs, Posting) != {} {
        var t :| t in Those(s.pcs, Posting);
        assert Posting(s.pcs[t]);
      } else {
        assert |Those(s.pcs, Posting)| == 0;
        var t :| t in Those(s.pcs, Awake);
        assert Awake(s.pcs[t]);
      }
    }
  }
}
