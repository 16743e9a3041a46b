/** Event delivery in terms of calls: what callbacks send is what get_event returns, in order,
    and every callback sends and posts as often as it should. */
module Delivery {
  import opened Words
  import opened Client
  import L = Latch

  /** A run together with the steps that were taken. */
  ghost predicate IsTrace(ss: seq<State>, ls: seq<Label>) {
    && |ss| == |ls| + 1 && (exists ts, n :: ss[0] == Init(ts, n))
    && forall i | 0 <= i < |ls| :: Moves(ss, ls, i)
  }

  ghost predicate Moves(ss: seq<State>, ls: seq<Label>, i: nat)
    requires |ss| == |ls| + 1 && i < |ls|
  {
    Enabled(ss[i], ls[i]) && ss[i + 1] == Do(ss[i], ls[i])
  }

  lemma TraceIsRun(ss: seq<State>, ls: seq<Label>)
    requires IsTrace(ss, ls)
    ensures IsRun(ss)
  {
    hide Enabled, Do, Init;
    forall i, j | 0 <= i && j == i + 1 && j < |ss| ensures StepsTo(ss[i], ss[j]) {
      assert Moves(ss, ls, i);
    }
  }

  // ------------------------------------------------------------- calls and their events

  predicate IsCall(l: Label) {
    l.CallProcess? || l.CallPlain? || l.CallSession? || l.CallGetEvent?
  }

  /** The last call of thread `t` in the first `k` steps. */
  function CallOf(ls: seq<Label>, k: nat, t: Tid): Option<Label>
    requires k <= |ls|
  {
    if k == 0 then None
    else if IsCall(ls[k - 1]) && Actor(ls[k - 1]) == t then Some(ls[k - 1])
    else CallOf(ls, k - 1, t)
  }

  /** The event that a callback is there to send. */
  function EventOf(call: Option<Label>): Event {
    match call
    case Some(CallPlain(_, e)) => e
    case Some(CallSession(_, _)) => Session
    case _ => Process
  }

  /** Where a thread can be in a call. */
  predicate Fits(pc: Pc, call: Option<Label>) {
    match pc
    case Idle => true
    case Port(_) => call.Some? && call.value.CallProcess?
    case PortEnqueue(_) => call.Some? && call.value.CallProcess?
    case PortPost(_) => call.Some? && call.value.CallProcess?
    case PlainEnqueue(e) => call.Some? && call.value.CallPlain? && call.value.e == e
    case PlainPost(_) => call.Some? && call.value.CallPlain?
    case SetData(ev) => call.Some? && call.value.CallSession? && call.value.ev == ev
    case SessionEnqueue(ev) => call.Some? && call.value.CallSession? && call.value.ev == ev
    case SessionPost(ev, _) => call.Some? && call.value.CallSession? && call.value.ev == ev
    case Getting(ev) => call.Some? && call.value.CallSession? && call.value.ev == ev
    case ClearData(ev) => call.Some? && call.value.CallSession? && call.value.ev == ev
    case Reply(ev) => call.Some? && call.value.CallSession? && call.value.ev == ev
    case _ => call.Some? && call.value.CallGetEvent?
  }

  /** What get_event returns to thread `t` in a step, if it does. */
  function Result(s: State, s': State, t: Tid): seq<Event> {
    if t in s.pcs && (s.pcs[t].Dequeue? || s.pcs[t].Wait?) && t in s'.pcs && s'.pcs[t].Holding? then [s'.pcs[t].e]
    else []
  }

  /** A step of `t` sends an event, or has get_event return the oldest one, or leaves the
      queue alone. */
  ghost predicate Transfers(s: State, s': State, t: Tid, call: Option<Label>) {
    if |s'.queue| > |s.queue| then s'.queue == s.queue + [EventOf(call)] && Result(s, s', t) == []
    else if s'.queue == s.queue then Result(s, s', t) == []
    else s.queue != [] && s'.queue == s.queue[1..] && Result(s, s', t) == [s.queue[0]]
  }

  /** The semaphore goes up by one with a post, down by one with a completed wait. */
  ghost predicate Counts(s: State, s': State, t: Tid) {
    t in s.pcs && t in s'.pcs &&
    s'.sem == s.sem + PostsIn(s, t) - WaitsIn(s, s', t)
  }

  predicate IsPost(pc: Pc) {
    pc.PortPost? || pc.PlainPost? || pc.SessionPost?
  }

  predicate Waited(pc: Pc, pc': Pc) {
    pc.Wait? && pc' == Dequeue(true)
  }

  /** What one step does. */
  ghost predicate Proper(s: State, s': State, t: Tid, call: Option<Label>, call': Option<Label>) {
    && t in s.pcs && t in s'.pcs && s'.pcs == s.pcs[t := s'.pcs[t]] && Fits(s'.pcs[t], call')
    && Transfers(s, s', t, call) && Counts(s, s', t) && s'.nports == s.nports
  }

  lemma SessionIsProper(s: State, t: Tid, ok: bool, call: Option<Label>)
    requires Enabled(s, Step(t, ok)) && InSession(s.pcs[t]) && Fits(s.pcs[t], call)
    ensures Proper(s, SessionStep(s, t, ok), t, call, call)
  {
    hide L.Do, L.Enabled;
  }

  lemma PlainIsProper(s: State, t: Tid, ok: bool, call: Option<Label>)
    requires Enabled(s, Step(t, ok)) && !InSession(s.pcs[t]) && Fits(s.pcs[t], call)
    ensures Proper(s, PlainStep(s, t, ok), t, call, call)
  {
    hide L.Do, L.Enabled;
  }

  lemma StepIsProper(s: State, l: Label, call: Option<Label>)
    requires Enabled(s, l) && Fits(s.pcs[Actor(l)], call)
    ensures Proper(s, Do(s, l), Actor(l), call, if IsCall(l) then Some(l) else call)
  {
    hide L.Do, L.Enabled, SessionStep, PlainStep;
    if l.Step? && InSession(s.pcs[l.t]) {
      SessionIsProper(s, l.t, l.ok, call);
    } else if l.Step? {
      PlainIsProper(s, l.t, l.ok, call);
    }
  }

  // -------------------------------------------------------------------- in every run

  /** Every thread is where its last call can be. */
  ghost predicate AllFit(ss: seq<State>, ls: seq<Label>, k: nat)
    requires k < |ss| && k <= |ls|
  {
    forall t | t in ss[k].pcs :: Fits(ss[k].pcs[t], CallOf(ls, k, t))
  }

  lemma NextIsProper(ss: seq<State>, ls: seq<Label>, k: nat)
    requires IsTrace(ss, ls) && k < |ls| && AllFit(ss, ls, k)
    ensures var t := Actor(ls[k]);
      Proper(ss[k], ss[k + 1], t, CallOf(ls, k, t), CallOf(ls, k + 1, t))
  {
    assert Moves(ss, ls, k);
    hide IsTrace, Do, Proper, Fits;
    assert Actor(ls[k]) in ss[k].pcs;
    StepIsProper(ss[k], ls[k], CallOf(ls, k, Actor(ls[k])));
  }

  lemma {:induction false} TraceFits(ss: seq<State>, ls: seq<Label>, k: nat)
    requires IsTrace(ss, ls) && k <= |ls|
    ensures AllFit(ss, ls, k)
  {
    if k > 0 {
      TraceFits(ss, ls, k - 1);
      NextIsProper(ss, ls, k - 1);
      hide IsTrace, Fits, Transfers, Counts;
    } else {
      hide Fits;
      AtFirst(ss, ls);
    }
  }

  lemma AtFirst(ss: seq<State>, ls: seq<Label>)
    requires IsTrace(ss, ls)
    ensures ss[0].queue == [] && ss[0].sem == 1
    ensures forall t | t in ss[0].pcs :: Fits(ss[0].pcs[t], CallOf(ls, 0, t))
  {
    hide Moves;
    var ts, n :| ss[0] == Init(ts, n);
  }

  ghost function Added(s: State, s': State, call: Option<Label>): seq<Event> {
    if |s'.queue| > |s.queue| then [EventOf(call)] else []
  }

  /** What callbacks sent in the first `k` steps: whenever the queue has grown, the event of the
      callback that the thread was called for. */
  ghost function Sent(ss: seq<State>, ls: seq<Label>, k: nat): seq<Event>
    requires k < |ss| && k <= |ls|
  {
    if k == 0 then []
    else Sent(ss, ls, k - 1) + Added(ss[k - 1], ss[k], CallOf(ls, k - 1, Actor(ls[k - 1])))
  }

  /** What get_event returned in the first `k` steps. */
  ghost function Returned(ss: seq<State>, ls: seq<Label>, k: nat): seq<Event>
    requires k < |ss| && k <= |ls|
  {
    if k == 0 then []
    else Returned(ss, ls, k - 1) + Result(ss[k - 1], ss[k], Actor(ls[k - 1]))
  }

  lemma InOrderStep(s: State, s': State, t: Tid, call: Option<Label>, call': Option<Label>, returned: seq<Event>)
    requires Proper(s, s', t, call, call')
    ensures returned + s.queue + Added(s, s', call) == returned + Result(s, s', t) + s'.queue
  {
    hide Fits, Counts, Result, EventOf;
    if |s'.queue| < |s.queue| {
      assert s.queue == [s.queue[0]] + s.queue[1..];
    }
  }

  /** Whatever the run, what get_event returned and what is queued is what callbacks sent, in
      order. */
  lemma {:induction false} EventsInOrder(ss: seq<State>, ls: seq<Label>, k: nat)
    requires IsTrace(ss, ls) && k <= |ls|
    ensures Sent(ss, ls, k) == Returned(ss, ls, k) + ss[k].queue
  {
    if k > 0 {
      hide IsTrace, Proper, Result, AllFit, EventOf, Added;
      EventsInOrder(ss, ls, k - 1);
      TraceFits(ss, ls, k - 1);
      NextIsProper(ss, ls, k - 1);
      var t := Actor(ls[k - 1]);
      InOrderStep(ss[k - 1], ss[k], t, CallOf(ls, k - 1, t), CallOf(ls, k, t), Returned(ss, ls, k - 1));
    } else {
      AtFirst(ss, ls);
    }
  }

  function PostsIn(s: State, t: Tid): nat {
    if t in s.pcs && IsPost(s.pcs[t]) then 1 else 0
  }

  function WaitsIn(s: State, s': State, t: Tid): nat {
    if t in s.pcs && t in s'.pcs && Waited(s.pcs[t], s'.pcs[t]) then 1 else 0
  }

  /** The posts among the first `k` steps. */
  function Posts(ss: seq<State>, ls: seq<Label>, k: nat): nat
    requires k < |ss| && k <= |ls|
  {
    if k == 0 then 0
    else Posts(ss, ls, k - 1) + PostsIn(ss[k - 1], Actor(ls[k - 1]))
  }

  /** The completed waits among the first `k` steps. */
  function Waits(ss: seq<State>, ls: seq<Label>, k: nat): nat
    requires k < |ss| && k <= |ls|
  {
    if k == 0 then 0
    else Waits(ss, ls, k - 1) + WaitsIn(ss[k - 1], ss[k], Actor(ls[k - 1]))
  }

  /** The semaphore counts exactly: one to begin with, and one for each post that no wait has
      taken. */
  lemma {:induction false} SemaphoreExact(ss: seq<State>, ls: seq<Label>, k: nat)
    requires IsTrace(ss, ls) && k <= |ls|
    ensures ss[k].sem + Waits(ss, ls, k) == 1 + Posts(ss, ls, k)
  {
    if k > 0 {
      hide IsTrace, Fits, Transfers, AllFit, IsPost, Waited;
      SemaphoreExact(ss, ls, k - 1);
      TraceFits(ss, ls, k - 1);
      NextIsProper(ss, ls, k - 1);
    } else {
      AtFirst(ss, ls);
    }
  }

  // ------------------------------------------------------------ what one callback does

  /** Thread `t` was called with step `j` and has been in the same call ever since. */
  ghost predicate CalledAt(ss: seq<State>, ls: seq<Label>, k: nat, t: Tid, j: nat)
    requires k < |ss| && k <= |ls|
  {
    && j < k && IsCall(ls[j]) && Actor(ls[j]) == t
    && forall m | j < m <= k :: t in ss[m].pcs && !ss[m].pcs[t].Idle?
  }

  /** By how much the steps of `t` from `j` to `k` have made the queue longer. */
  function Sends(ss: seq<State>, ls: seq<Label>, j: nat, k: nat, t: Tid): int
    requires k < |ss| && k <= |ls|
    decreases k
  {
    if k <= j then 0
    else Sends(ss, ls, j, k - 1, t) + if Actor(ls[k - 1]) == t then |ss[k].queue| - |ss[k - 1].queue| else 0
  }

  /** By how much they have raised the semaphore. */
  function Raises(ss: seq<State>, ls: seq<Label>, j: nat, k: nat, t: Tid): int
    requires k < |ss| && k <= |ls|
    decreases k
  {
    if k <= j then 0
    else Raises(ss, ls, j, k - 1, t) + if Actor(ls[k - 1]) == t then ss[k].sem - ss[k - 1].sem else 0
  }

  /** How many of its writes to a ring buffer and of its enqueues failed. */
  function Failures(ss: seq<State>, ls: seq<Label>, j: nat, k: nat, t: Tid): nat
    requires k < |ss| && k <= |ls|
    decreases k
  {
    if k <= j then 0
    else Failures(ss, ls, j, k - 1, t) + if Actor(ls[k - 1]) == t then Failure(ss[k - 1], ls[k - 1]) else 0
  }

  predicate MayFail(pc: Pc, nports: nat) {
    (pc.Port? && pc.i < nports) || pc.PortEnqueue? || pc.PlainEnqueue? || pc.SessionEnqueue?
  }

  function Failure(s: State, l: Label): nat {
    if l.Step? && !l.ok && l.t in s.pcs && MayFail(s.pcs[l.t], s.nports) then 1 else 0
  }

  /** What a callback has sent and posted so far. */
  predicate Tally(pc: Pc, nports: nat, sends: int, raises: int, failures: nat) {
    match pc
    case Port(i) => sends == raises == i <= nports && failures == 0
    case PortEnqueue(i) => sends == raises == i < nports && failures == 0
    case PortPost(i) => sends == i + 1 && raises == i < nports && failures == 0
    case PlainEnqueue(_) => sends == raises == failures == 0
    case SetData(_) => sends == raises == failures == 0
    case SessionEnqueue(_) => sends == raises == failures == 0
    case PlainPost(queued) => OneSent(sends, failures) && raises == 0 && queued == (sends == 1)
    case SessionPost(_, queued) => OneSent(sends, failures) && raises == 0 && queued == (sends == 1)
    case Getting(_) => OneSent(sends, failures) && raises == 1
    case ClearData(_) => OneSent(sends, failures) && raises == 1
    case Reply(_) => OneSent(sends, failures) && raises == 1
    case _ => true
  }

  /** One event has been sent, or the attempt has failed. */
  predicate OneSent(sends: int, failures: nat) {
    sends + failures == 1 && sends >= 0
  }

  /** What a callback that has just returned has sent and posted. */
  predicate Total(call: Label, nports: nat, sends: int, raises: int, failures: nat) {
    match call
    case CallProcess(_) =>
      0 <= sends == raises && if failures == 0 then sends == nports else failures == 1 && sends < nports
    case CallPlain(_, _) => OneSent(sends, failures) && raises == 1
    case CallSession(_, _) => OneSent(sends, failures) && raises == 1
    case _ => true
  }

  /** What a thread has done so far, or, if its call is over, in all. */
  predicate Tallied(pc: Pc, call: Option<Label>, nports: nat, sends: int, raises: int, failures: nat) {
    if pc.Idle? then call.Some? && Total(call.value, nports, sends, raises, failures)
    else Tally(pc, nports, sends, raises, failures)
  }

  lemma SessionTallies(s: State, t: Tid, ok: bool, call: Option<Label>, sends: int, raises: int, failures: nat)
    requires Enabled(s, Step(t, ok)) && InSession(s.pcs[t]) && Fits(s.pcs[t], call)
    requires Tally(s.pcs[t], s.nports, sends, raises, failures)
    ensures var s' := SessionStep(s, t, ok);
      Tallied(s'.pcs[t], call, s.nports, sends + |s'.queue| - |s.queue|, raises + s'.sem - s.sem,
              failures + Failure(s, Step(t, ok)))
  {
    hide L.Do, L.Enabled;
  }

  lemma PlainTallies(s: State, t: Tid, ok: bool, call: Option<Label>, sends: int, raises: int, failures: nat)
    requires Enabled(s, Step(t, ok)) && !InSession(s.pcs[t]) && Fits(s.pcs[t], call)
    requires Tally(s.pcs[t], s.nports, sends, raises, failures)
    ensures var s' := PlainStep(s, t, ok);
      Tallied(s'.pcs[t], call, s.nports, sends + |s'.queue| - |s.queue|, raises + s'.sem - s.sem,
              failures + Failure(s, Step(t, ok)))
  {
    hide L.Do, L.Enabled;
  }

  lemma StepTallies(s: State, l: Label, call: Option<Label>, sends: int, raises: int, failures: nat)
    requires Enabled(s, l) && Fits(s.pcs[Actor(l)], call) && !s.pcs[Actor(l)].Idle?
    requires Tally(s.pcs[Actor(l)], s.nports, sends, raises, failures)
    ensures var s', t := Do(s, l), Actor(l);
      Tallied(s'.pcs[t], call, s.nports, sends + |s'.queue| - |s.queue|, raises + s'.sem - s.sem,
              failures + Failure(s, l))
  {
    hide L.Do, L.Enabled, SessionStep, PlainStep;
    if l.Step? && InSession(s.pcs[l.t]) {
      SessionTallies(s, l.t, l.ok, call, sends, raises, failures);
    } else if l.Step? {
      PlainTallies(s, l.t, l.ok, call, sends, raises, failures);
    }
  }

  lemma CallTallies(s: State, l: Label)
    requires Enabled(s, l) && IsCall(l)
    ensures var s', t := Do(s, l), Actor(l);
      && s.pcs[t].Idle? && !s'.pcs[t].Idle? && |s'.queue| == |s.queue| && s'.sem == s.sem
      && Tally(s'.pcs[t], s.nports, 0, 0, 0)
  {
    hide L.Do, L.Enabled;
  }

  /** A call begins with nothing sent. */
  lemma CallStarts(ss: seq<State>, ls: seq<Label>, j: nat, t: Tid)
    requires IsTrace(ss, ls) && j < |ls| && IsCall(ls[j]) && Actor(ls[j]) == t
    ensures t in ss[j].pcs && ss[j].pcs[t].Idle? && t in ss[j + 1].pcs
    ensures CallOf(ls, j + 1, t) == Some(ls[j])
    ensures Tally(ss[j + 1].pcs[t], ss[j + 1].nports, Sends(ss, ls, j, j + 1, t), Raises(ss, ls, j, j + 1, t),
                  Failures(ss, ls, j, j + 1, t))
  {
    assert Moves(ss, ls, j);
    TraceFits(ss, ls, j);
    NextIsProper(ss, ls, j);
    hide IsTrace, Do, Transfers, Counts, Fits, Tally, AllFit;
    CallTallies(ss[j], ls[j]);
  }

  /** A step in the middle of a call of `t`, by `t` or another thread. */
  lemma CallGoesOn(ss: seq<State>, ls: seq<Label>, k: nat, t: Tid, j: nat)
    requires IsTrace(ss, ls) && k < |ls| && j < k && t in ss[k].pcs && !ss[k].pcs[t].Idle?
    requires Tally(ss[k].pcs[t], ss[k].nports, Sends(ss, ls, j, k, t), Raises(ss, ls, j, k, t),
                   Failures(ss, ls, j, k, t))
    ensures t in ss[k + 1].pcs && CallOf(ls, k + 1, t) == CallOf(ls, k, t) && ss[k + 1].nports == ss[k].nports
    ensures Tallied(ss[k + 1].pcs[t], CallOf(ls, k, t), ss[k].nports, Sends(ss, ls, j, k + 1, t),
                    Raises(ss, ls, j, k + 1, t), Failures(ss, ls, j, k + 1, t))
  {
    assert Moves(ss, ls, k);
    TraceFits(ss, ls, k);
    NextIsProper(ss, ls, k);
    assert Fits(ss[k].pcs[t], CallOf(ls, k, t));
    hide IsTrace, Do, Transfers, Counts, Fits, Tally, AllFit, Total;
    if Actor(ls[k]) == t {
      BusyCallsNot(ss[k], ls[k]);
      StepTallies(ss[k], ls[k], CallOf(ls, k, t), Sends(ss, ls, j, k, t), Raises(ss, ls, j, k, t),
                  Failures(ss, ls, j, k, t));
    }
  }

  lemma BusyCallsNot(s: State, l: Label)
    requires Enabled(s, l) && !s.pcs[Actor(l)].Idle?
    ensures !IsCall(l)
  {
    hide L.Enabled;
  }

  lemma {:induction false} CallTallied(ss: seq<State>, ls: seq<Label>, k: nat, t: Tid, j: nat)
    requires IsTrace(ss, ls) && k <= |ls| && CalledAt(ss, ls, k, t, j)
    ensures CallOf(ls, k, t) == Some(ls[j])
    ensures Tally(ss[k].pcs[t], ss[k].nports, Sends(ss, ls, j, k, t), Raises(ss, ls, j, k, t),
                   Failures(ss, ls, j, k, t))
  {
    hide IsTrace, Tally, Total, Sends, Raises, Failures, CallOf, IsCall;
    if k == j + 1 {
      CallStarts(ss, ls, j, t);
    } else {
      CallTallied(ss, ls, k - 1, t, j);
      CallGoesOn(ss, ls, k - 1, t, j);
    }
  }

  /** Whatever the run, when a callback returns it has sent its event and posted the semaphore as
      often as it should.  The process callback does both once for each port, up to the first
      failure; the others send once, unless that fails, and post once in any case. */
  lemma CallbackComplete(ss: seq<State>, ls: seq<Label>, k: nat, t: Tid, j: nat)
    requires IsTrace(ss, ls) && k < |ls| && CalledAt(ss, ls, k, t, j)
    requires t in ss[k + 1].pcs && ss[k + 1].pcs[t].Idle?
    ensures Total(ls[j], ss[k].nports, Sends(ss, ls, j, k + 1, t), Raises(ss, ls, j, k + 1, t),
                  Failures(ss, ls, j, k + 1, t))
  {
    CallTallied(ss, ls, k, t, j);
    hide IsTrace, Tally, Total, Sends, Raises, Failures, CallOf, IsCall;
    CallGoesOn(ss, ls, k, t, j);
  }

  // --------------------------------------------------------------- what get_event does

  /** Looking into the queue, or waiting to look again. */
  predicate Fetching(pc: Pc) {
    pc.Dequeue? || pc.Wait?
  }

  function LooksIn(s: State, t: Tid): nat {
    if t in s.pcs && s.pcs[t].Dequeue? then 1 else 0
  }

  function PausesIn(s: State, t: Tid): nat {
    if t in s.pcs && s.pcs[t].Wait? then 1 else 0
  }

  /** How often the steps of `t` from `j` to `k` looked into the queue. */
  function Looks(ss: seq<State>, ls: seq<Label>, j: nat, k: nat, t: Tid): nat
    requires k < |ss| && k <= |ls|
    decreases k
  {
    if k <= j then 0
    else Looks(ss, ls, j, k - 1, t) + if Actor(ls[k - 1]) == t then LooksIn(ss[k - 1], t) else 0
  }

  /** How many of its waits came back, completed or interrupted. */
  function Pauses(ss: seq<State>, ls: seq<Label>, j: nat, k: nat, t: Tid): nat
    requires k < |ss| && k <= |ls|
    decreases k
  {
    if k <= j then 0
    else Pauses(ss, ls, j, k - 1, t) + if Actor(ls[k - 1]) == t then PausesIn(ss[k - 1], t) else 0
  }

  /** Looks and waits alternate, the first and the last being a look. */
  predicate Alternates(pc: Pc, looks: nat, pauses: nat) {
    if pc.Dequeue? then looks == pauses
    else pc.Wait? || pc.Holding? || pc.Completing? ==> looks == pauses + 1
  }

  /** How a thread goes on in get_event. */
  ghost predicate Fetches(s: State, s': State, t: Tid) {
    && t in s.pcs && t in s'.pcs
    && (s.pcs[t].Wait? ==> s'.pcs[t].Dequeue?)
    && (s.pcs[t].Dequeue? ==> if s.queue == [] then s'.pcs[t].Wait? else s'.pcs[t] == Holding(s.queue[0]))
    && (s.pcs[t].Holding? ==> s'.pcs[t].Idle? || s'.pcs[t].Completing?)
    && (s.pcs[t].Completing? ==> s'.pcs[t].Idle? || s'.pcs[t].Completing?)
  }

  lemma PlainFetches(s: State, t: Tid, ok: bool)
    requires Enabled(s, Step(t, ok)) && !InSession(s.pcs[t])
    ensures Fetches(s, PlainStep(s, t, ok), t)
  {
    hide L.Do, L.Enabled;
  }

  lemma StepFetches(s: State, l: Label)
    requires Enabled(s, l)
    ensures Fetches(s, Do(s, l), Actor(l))
  {
    hide L.Do, L.Enabled, SessionStep, PlainStep;
    if l.Step? && InSession(s.pcs[l.t]) {
      SessionIsNoFetch(s, l.t, l.ok);
    } else if l.Step? {
      PlainFetches(s, l.t, l.ok);
    }
  }

  lemma SessionIsNoFetch(s: State, t: Tid, ok: bool)
    requires Enabled(s, Step(t, ok)) && InSession(s.pcs[t])
    ensures t in SessionStep(s, t, ok).pcs
  {
    hide L.Do, L.Enabled;
  }

  lemma {:induction false} LooksAndPauses(ss: seq<State>, ls: seq<Label>, k: nat, t: Tid, j: nat)
    requires IsTrace(ss, ls) && k <= |ls| && CalledAt(ss, ls, k, t, j) && ls[j].CallGetEvent?
    ensures Alternates(ss[k].pcs[t], Looks(ss, ls, j, k, t), Pauses(ss, ls, j, k, t))
  {
    TraceFits(ss, ls, k - 1);
    NextIsProper(ss, ls, k - 1);
    assert Moves(ss, ls, k - 1);
    hide IsTrace, Fits, Transfers, Counts, Do, Enabled, AllFit, CallOf;
    if k == j + 1 {
      GetEventStarts(ss[j], ls[j]);
    } else {
      CallTallied(ss, ls, k - 1, t, j);
      GetEventFits(ss[k - 1].pcs[t], ls[j]);
      LooksAndPauses(ss, ls, k - 1, t, j);
      if Actor(ls[k - 1]) == t {
        StepFetches(ss[k - 1], ls[k - 1]);
      }
    }
  }

  lemma GetEventStarts(s: State, l: Label)
    requires Enabled(s, l) && l.CallGetEvent?
    ensures s.pcs[Actor(l)].Idle? && Do(s, l).pcs[Actor(l)].Dequeue?
  {
    hide L.Do, L.Enabled;
  }

  lemma GetEventFits(pc: Pc, call: Label)
    requires Fits(pc, Some(call)) && call.CallGetEvent? && !pc.Idle?
    ensures Fetching(pc) || pc.Holding? || pc.Completing?
  {
  }

  /** Whatever the run, get_event looks into the queue, and waits only if it was empty; after a
      wait, completed or interrupted, it looks again; and it ends only by returning the event that
      is the oldest at that look. */
  lemma GetEventReturns(ss: seq<State>, ls: seq<Label>, k: nat, t: Tid, j: nat)
    requires IsTrace(ss, ls) && k < |ls| && CalledAt(ss, ls, k, t, j) && ls[j].CallGetEvent?
    requires Fetching(ss[k].pcs[t]) && Actor(ls[k]) == t
    ensures var s, s' := ss[k], ss[k + 1];
      && t in s'.pcs && (s.pcs[t].Dequeue? && s.queue != [] <==> !Fetching(s'.pcs[t]))
      && (Fetching(s'.pcs[t]) ==> s'.pcs[t].Wait? == s.pcs[t].Dequeue?)
      && (!Fetching(s'.pcs[t]) ==>
            && s'.pcs[t] == Holding(s.queue[0])
            && Looks(ss, ls, j, k + 1, t) == Pauses(ss, ls, j, k + 1, t) + 1)
  {
    LooksAndPauses(ss, ls, k, t, j);
    assert Moves(ss, ls, k);
    hide IsTrace, Do, Enabled;
    StepFetches(ss[k], ls[k]);
  }
}
