/** The one-shot latch: a status word under a mutex and a condition variable.  Any number of
    threads get and post; a condition wait may return without a signal. */
module Latch {
  import opened Words

  /** Where a thread is inside the latch; `Out` is outside any call. */
  datatype Pc =
    | Out
    | GetLock | GetTest | Asleep | Woken | GetClear | GetSignal | GetUnlock
    | PostLock | PostSet | PostSignal | PostUnlock

  datatype Owner = Nobody | By(t: Tid)

  /** `posts` counts the settings of the status and `gets` the threads let through. */
  datatype State = State(posted: bool, owner: Owner, pcs: map<Tid, Pc>, posts: nat, gets: nat)

  datatype Move =
    | CallGet(t: Tid)
    | CallPost(t: Tid)
    /** The next step of `t`; if it is a signal, it wakes the threads in `woken`. */
    | Step(t: Tid, woken: set<Tid>)
    /** A condition wait returns although nobody signalled. */
    | Spurious(t: Tid)

  ghost predicate Sleeping(l: State, t: Tid) {
    t in l.pcs && l.pcs[t] == Asleep
  }

  /** A signal wakes at least one thread if any is asleep. */
  ghost predicate Signals(l: State, woken: set<Tid>) {
    && (forall u | u in woken :: Sleeping(l, u))
    && (woken == {} ==> forall u | u in l.pcs :: l.pcs[u] != Asleep)
  }

  ghost predicate Enabled(l: State, m: Move) {
    m.t in l.pcs &&
    match m
    case CallGet(t) => l.pcs[t] == Out
    case CallPost(t) => l.pcs[t] == Out
    case Spurious(t) => l.pcs[t] == Asleep
    case Step(t, woken) =>
      match l.pcs[t]
      case Out => false
      case Asleep => false
      case GetLock => l.owner == Nobody
      case Woken => l.owner == Nobody
      case PostLock => l.owner == Nobody
      case GetSignal => Signals(l, woken)
      case PostSignal => Signals(l, woken)
      case _ => true
  }

  function Wake(pcs: map<Tid, Pc>, woken: set<Tid>): map<Tid, Pc> {
    map u | u in pcs :: if u in woken then Woken else pcs[u]
  }

  ghost function Do(l: State, m: Move): (r: State)
    requires Enabled(l, m)
    ensures r.pcs.Keys == l.pcs.Keys
  {
    match m
    case CallGet(t) => l.(pcs := l.pcs[t := GetLock])
    case CallPost(t) => l.(pcs := l.pcs[t := PostLock])
    case Spurious(t) => l.(pcs := l.pcs[t := Woken])
    case Step(t, woken) =>
      match l.pcs[t]
      case GetLock => l.(owner := By(t), pcs := l.pcs[t := GetTest])
      case Woken => l.(owner := By(t), pcs := l.pcs[t := GetTest])
      case GetTest =>
        if l.posted then l.(pcs := l.pcs[t := GetClear])
        else l.(owner := Nobody, pcs := l.pcs[t := Asleep])
      case GetClear => l.(posted := false, gets := l.gets + 1, pcs := l.pcs[t := GetSignal])
      case GetSignal => l.(pcs := Wake(l.pcs, woken)[t := GetUnlock])
      case GetUnlock => l.(owner := Nobody, pcs := l.pcs[t := Out])
      case PostLock => l.(owner := By(t), pcs := l.pcs[t := PostSet])
      case PostSet => l.(posted := true, posts := l.posts + 1, pcs := l.pcs[t := PostSignal])
      case PostSignal => l.(pcs := Wake(l.pcs, woken)[t := PostUnlock])
      case PostUnlock => l.(owner := Nobody, pcs := l.pcs[t := Out])
  }

  /** A new latch, seen by the threads `ts`. */
  function Init(ts: set<Tid>): (l: State) {
    State(false, Nobody, map t | t in ts :: Out, 0, 0)
  }

  // ---------------------------------------------------------------- invariant

  predicate InCritical(pc: Pc) {
    pc.GetTest? || pc.GetClear? || pc.GetSignal? || pc.GetUnlock? || pc.PostSet? || pc.PostSignal? || pc.PostUnlock?
  }

  /** The mutex is held by exactly the thread inside. */
  ghost predicate Excludes(l: State) {
    && (forall t | t in l.pcs :: InCritical(l.pcs[t]) <==> l.owner == By(t))
    && (l.owner.By? ==> l.owner.t in l.pcs)
  }

  /** A thread that will look at the status, or wake one that will. */
  predicate Alert(pc: Pc) {
    pc.Woken? || pc.GetTest? || pc.GetClear? || pc.PostSignal?
  }

  /** A post is not forgotten while a thread sleeps. */
  ghost predicate Remembered(l: State) {
    forall t | t in l.pcs && l.posted && l.pcs[t] == Asleep :: exists u :: u in l.pcs && Alert(l.pcs[u])
  }

  ghost predicate Inv(l: State) {
    && Excludes(l)
    && (forall t | t in l.pcs && l.pcs[t] == GetClear :: l.posted)
    && l.gets + (if l.posted then 1 else 0) <= l.posts
    && Remembered(l)
  }

  lemma DoKeepsRemembered(l: State, m: Move)
    requires Inv(l) && Enabled(l, m)
    ensures Remembered(Do(l, m))
  {
    var l' := Do(l, m);
    forall s | s in l'.pcs && l'.posted && l'.pcs[s] == Asleep ensures exists u :: u in l'.pcs && Alert(l'.pcs[u]) {
      if Alert(l'.pcs[m.t]) {
      } else if m.Step? && (l.pcs[m.t] == PostSignal || l.pcs[m.t] == GetSignal) {
        assert l.pcs[s] == Asleep;
        var u :| u in m.woken;
        assert Sleeping(l, u);
        assert Alert(l'.pcs[u]);
      } else {
        assert l.posted && l.pcs[s] == Asleep;
        var u :| u in l.pcs && Alert(l.pcs[u]);
        assert u != m.t;
        assert Alert(l'.pcs[u]);
      }
    }
  }

  lemma DoKeepsExcludes(l: State, m: Move)
    requires Excludes(l) && Enabled(l, m)
    ensures Excludes(Do(l, m))
  {
    hide Signals;
    var l' := Do(l, m);
    forall t | t in l'.pcs ensures InCritical(l'.pcs[t]) <==> l'.owner == By(t) {
      assert InCritical(l.pcs[t]) <==> l.owner == By(t);
    }
  }

  lemma DoKeepsInv(l: State, m: Move)
    requires Inv(l) && Enabled(l, m)
    ensures Inv(Do(l, m))
  {
    DoKeepsRemembered(l, m);
    DoKeepsExcludes(l, m);
    hide Remembered;
    var l' := Do(l, m);
    forall t | t in l'.pcs && l'.pcs[t] == GetClear ensures l'.posted {
      assert InCritical(l'.pcs[t]);
      assert InCritical(l'.pcs[m.t]) <==> l'.owner == By(m.t);
    }
  }

  // --------------------------------------------------------------------- runs

  /** `ls` is a run: every latch in it follows from the one before by some move. */
  ghost predicate IsRun(ls: seq<State>) {
    && 0 < |ls| && (exists ts :: ls[0] == Init(ts))
    && (forall i, j | 0 <= i && j == i + 1 && j < |ls| :: StepsTo(ls[i], ls[j]))
  }

  /** Some move leads from `l` to `l'`. */
  ghost predicate StepsTo(l: State, l': State) {
    exists m :: Enabled(l, m) && l' == Do(l, m)
  }

  /** Every get that is let through, and every post, wakes a thread if one is asleep. */
  lemma SignalWakes(l: State, t: Tid, woken: set<Tid>)
    requires Enabled(l, Step(t, woken)) && (l.pcs[t] == GetSignal || l.pcs[t] == PostSignal)
    ensures var l' := Do(l, Step(t, woken));
      && (forall u | u in l.pcs && u != t :: l'.pcs[u] == l.pcs[u] || (l.pcs[u] == Asleep && l'.pcs[u] == Woken))
      && ((exists u :: Sleeping(l, u)) ==> exists u :: Sleeping(l, u) && l'.pcs[u] == Woken)
  {
    if u :| u in woken {
      assert Sleeping(l, u) && Do(l, Step(t, woken)).pcs[u] == Woken;
    }
  }

  /** The move that leads to state `k` of a run. */
  lemma MoveOf(ls: seq<State>, k: nat) returns (m: Move)
    requires IsRun(ls) && 0 < k < |ls|
    ensures Enabled(ls[k - 1], m) && ls[k] == Do(ls[k - 1], m)
  {
    hide Enabled, Do, Init;
    assert StepsTo(ls[k - 1], ls[k]);
    m :| Enabled(ls[k - 1], m) && ls[k] == Do(ls[k - 1], m);
  }

  lemma {:induction false} RunKeepsInv(ls: seq<State>, k: nat)
    requires IsRun(ls) && k < |ls|
    ensures Inv(ls[k])
  {
    if k > 0 {
      RunKeepsInv(ls, k - 1);
      var m := MoveOf(ls, k);
      DoKeepsInv(ls[k - 1], m);
    }
  }

  /** However many threads get and post, and whatever wakes up spuriously: there is at most
      one thread inside, no more threads are let through than posts were made, and a post
      never finds every getter asleep for good. */
  lemma LatchIsSound(ls: seq<State>, k: nat)
    requires IsRun(ls) && k < |ls|
    ensures forall t, u |
      t in ls[k].pcs && u in ls[k].pcs && InCritical(ls[k].pcs[t]) && InCritical(ls[k].pcs[u]) :: t == u
    ensures ls[k].gets + (if ls[k].posted then 1 else 0) <= ls[k].posts
    ensures ls[k].posted && (forall t | t in ls[k].pcs :: ls[k].pcs[t] == Out || ls[k].pcs[t] == Asleep) ==>
      forall t | t in ls[k].pcs :: ls[k].pcs[t] == Out
  {
    RunKeepsInv(ls, k);
  }

  lemma StatusChange(l: State, m: Move)
    requires Enabled(l, m)
    ensures var l' := Do(l, m); l'.gets >= l.gets && (l'.posts > l.posts ==> l'.posted)
    ensures var l' := Do(l, m); l.posted && l'.gets == l.gets ==> l'.posted
  {
  }

  /** A post stays until a get takes it. */
  lemma {:induction false} PostStays(ls: seq<State>, i: nat, k: nat)
    requires IsRun(ls) && i < k < |ls| && ls[i + 1].posts > ls[i].posts && ls[k].gets == ls[i].gets
    ensures ls[k].posted
    decreases k
  {
    hide *;
    var m := MoveOf(ls, k);
    StatusChange(ls[k - 1], m);
    if i < k - 1 {
      GetsGrow(ls, i, k - 1);
      PostStays(ls, i, k - 1);
    }
  }

  lemma {:induction false} GetsGrow(ls: seq<State>, i: nat, k: nat)
    requires IsRun(ls) && i <= k < |ls|
    ensures ls[i].gets <= ls[k].gets
    decreases k
  {
    hide *;
    if i < k {
      GetsGrow(ls, i, k - 1);
      var m := MoveOf(ls, k);
      StatusChange(ls[k - 1], m);
    }
  }

  /** In no run is everybody stuck: while some thread is inside a call, some thread's step is
      enabled, unless all that are inside are asleep, and then there is no post to take. */
  lemma NeverStuck(ls: seq<State>, k: nat)
    requires IsRun(ls) && k < |ls|
    ensures (exists t, woken :: Enabled(ls[k], Step(t, woken)))
      || ((forall t | t in ls[k].pcs :: ls[k].pcs[t] == Out || ls[k].pcs[t] == Asleep)
          && (ls[k].posted ==> forall t | t in ls[k].pcs :: ls[k].pcs[t] == Out))
  {
    RunKeepsInv(ls, k);
    hide IsRun;
    var l := ls[k];
    if l.owner.By? {
      SignalCan(l, l.owner.t);
    } else if t :| t in l.pcs && l.pcs[t] != Out && l.pcs[t] != Asleep {
      assert Enabled(l, Step(t, {}));
    }
  }

  /** The thread that has the mutex can step. */
  lemma SignalCan(l: State, t: Tid)
    requires t in l.pcs && InCritical(l.pcs[t])
    ensures exists woken :: Enabled(l, Step(t, woken))
  {
    var woken := set u | u in l.pcs && l.pcs[u] == Asleep;
    assert Signals(l, woken) by {
      if woken == {} {
        assert forall u | u in l.pcs && l.pcs[u] == Asleep :: u in woken;
      }
    }
    assert Enabled(l, Step(t, woken));
  }
}
