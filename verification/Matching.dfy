/** Every value that a dequeue answers was given to an enqueue that linked it before, and two
    dequeues never answer the value of one enqueue. */
module Matching {
  import opened Words
  import opened Machine
  import opened Fifo
  import opened Calls
  import opened Answers
  import Q = Queue
  import I = QueueInvariant
  import V = Values

  lemma {:induction false} LogsGrow(s: System, labels: seq<Label>, i: nat, k: nat)
    requires i <= k <= |labels|
    ensures var q, q' := Before(s, labels, i).q, Before(s, labels, k).q;
      q.linked <= q'.linked && q.out <= q'.out && q.tags <= q'.tags
    decreases k - i
  {
    hide Before, LinksAt, TakesAt;
    if i < k {
      LogsGrow(s, labels, i, k - 1);
      StepLogs(s, labels, k - 1);
    }
  }

  /** The step that linked value number `x`. */
  lemma {:induction false} LinkedAt(s: System, labels: seq<Label>, i: nat, x: nat) returns (m: nat)
    requires i <= |labels| && s.q.linked == [] && x < |Before(s, labels, i).q.linked|
    ensures m < i && LinksAt(s, labels, m) && |Before(s, labels, m).q.linked| == x
    ensures Before(s, labels, i).q.linked[x] == Before(s, labels, m).threads[labels[m].t].q.value
  {
    NothingBefore(s, labels);
    hide Before, LinksAt, TakesAt;
    assert i > 0;
    StepLogs(s, labels, i - 1);
    if x < |Before(s, labels, i - 1).q.linked| {
      m := LinkedAt(s, labels, i - 1, x);
    } else {
      m := i - 1;
      LinksInThread(s, labels, m);
    }
  }

  lemma LinksInThread(s: System, labels: seq<Label>, m: nat)
    requires m < |labels|
    ensures LinksAt(s, labels, m) || TakesAt(s, labels, m) ==> InCall(Before(s, labels, m), labels[m].t)
    ensures !(LinksAt(s, labels, m) && TakesAt(s, labels, m))
    ensures LinksAt(s, labels, m) ==> Before(s, labels, m).threads[labels[m].t].q.pc == Q.EnqLink
    ensures TakesAt(s, labels, m) ==> Before(s, labels, m).threads[labels[m].t].q.pc == Q.DeqSwap
  {
    hide Before;
  }

  /** The value taken in step `k` was linked in step `m`, by the enqueue that began with `e`. */
  ghost predicate Supply(s: System, labels: seq<Label>, k: nat, m: nat, e: nat)
    requires k < |labels|
  {
    && m < k && TakesAt(s, labels, k) && LinksAt(s, labels, m)
    && CallSince(s, labels, m, labels[m].t, e) && labels[e].op != Q.Dequeue
    && labels[e].value == Before(s, labels, k).threads[labels[k].t].q.value
    && NumberTaken(Before(s, labels, k).q, Before(s, labels, k + 1).q) == |Before(s, labels, m).q.linked|
  }

  /** The number of the link swap whose value the step from `q` to `q'` took. */
  ghost function NumberTaken(q: Q.Queue, q': Q.Queue): nat {
    if |q.out| + 1 < |q'.tags| then q'.tags[|q.out| + 1] else 0
  }

  /** What came out last, by the numbers of the link swaps. */
  lemma TakenIs(q: Q.Queue, q': Q.Queue, place: map<nat, Place>)
    requires Q.Valid(q', place) && |q'.out| == |q.out| + 1
    ensures var x := NumberTaken(q, q'); x < |q'.linked| && q'.linked[x] == q'.out[|q.out|]
  {
    I.EndsOfValid(q', place);
    V.TagsSelect(q', place);
    hide Q.Valid, Q.Ends;
    assert q'.tags[1..q'.first + 1][|q.out|] == q'.tags[|q.out| + 1];
  }

  /** Values that came out at different times have different numbers. */
  lemma TakenApart(q: Q.Queue, q': Q.Queue, r: Q.Queue, r': Q.Queue, place: map<nat, Place>, place': map<nat, Place>)
    requires Q.Valid(q', place) && |q'.out| == |q.out| + 1 && Q.Valid(r', place') && |r'.out| == |r.out| + 1
    requires |q'.out| <= |r.out| && q'.tags <= r'.tags
    ensures NumberTaken(q, q') != NumberTaken(r, r')
  {
    I.EndsOfValid(q', place);
    V.TagsSelect(q', place);
    I.EndsOfValid(r', place');
    V.TagsSelect(r', place');
    hide Q.Valid, Q.Ends;
    var f := r'.tags[1..r'.first + 1];
    assert f[|q.out|] == r'.tags[|q.out| + 1] && f[|r.out|] == r'.tags[|r.out| + 1];
  }

  lemma QueueValid(s: System)
    requires Inv(s)
    ensures Q.Valid(s.q, s.fl.place)
  {
  }

  /** The value taken in step `k` has a number. */
  lemma Numbered(s: System, labels: seq<Label>, k: nat)
    requires Inv(s) && k < |labels| && TakesAt(s, labels, k)
    ensures var q, q' := Before(s, labels, k).q, Before(s, labels, k + 1).q; var x := NumberTaken(q, q');
      && InCall(Before(s, labels, k), labels[k].t)
      && x < |q'.linked| && q'.linked[x] == Before(s, labels, k).threads[labels[k].t].q.value
  {
    hide Inv, Before, LinksAt, TakesAt, Q.Valid, NumberTaken;
    RunKeepsInv(s, labels, k + 1);
    StepLogs(s, labels, k);
    LinksInThread(s, labels, k);
    QueueValid(Before(s, labels, k + 1));
    TakenIs(Before(s, labels, k).q, Before(s, labels, k + 1).q, Before(s, labels, k + 1).fl.place);
  }

  /** Different steps take values with different numbers. */
  lemma NumbersDiffer(s: System, labels: seq<Label>, k: nat, k': nat)
    requires Inv(s) && k < k' < |labels| && TakesAt(s, labels, k) && TakesAt(s, labels, k')
    ensures NumberTaken(Before(s, labels, k).q, Before(s, labels, k + 1).q)
         != NumberTaken(Before(s, labels, k').q, Before(s, labels, k' + 1).q)
  {
    hide Inv, Before, LinksAt, TakesAt, Q.Valid, NumberTaken;
    RunKeepsInv(s, labels, k + 1);
    RunKeepsInv(s, labels, k' + 1);
    StepLogs(s, labels, k);
    StepLogs(s, labels, k');
    LogsGrow(s, labels, k + 1, k');
    LogsGrow(s, labels, k + 1, k' + 1);
    var r, r' := Before(s, labels, k + 1), Before(s, labels, k' + 1);
    QueueValid(r);
    QueueValid(r');
    TakenApart(Before(s, labels, k).q, r.q, Before(s, labels, k').q, r'.q, r.fl.place, r'.fl.place);
  }

  lemma AtFirst(s: System, n: nat)
    requires Init(s, n)
    ensures Inv(s) && s.q.linked == [] && forall t | t in s.threads :: s.threads[t].q.pc == Q.Idle
  {
    InitInv(s, n);
    hide Inv;
  }

  lemma SupplyOf(s: System, n: nat, labels: seq<Label>, k: nat) returns (m: nat, e: nat)
    requires Init(s, n) && k < |labels| && TakesAt(s, labels, k)
    ensures Supply(s, labels, k, m, e)
  {
    hide Init, Inv, Before, LinksAt, TakesAt, NumberTaken, Serves, HasThread;
    AtFirst(s, n);
    Numbered(s, labels, k);
    m := LinkedAt(s, labels, k + 1, NumberTaken(Before(s, labels, k).q, Before(s, labels, k + 1).q));
    LinksInThread(s, labels, k);
    LinksInThread(s, labels, m);
    e := CallBegan(s, labels, m, labels[m].t);
    Linker(Before(s, labels, m).threads[labels[m].t].q, labels[e]);
  }

  lemma Linker(l: Q.Local, call: Label)
    requires Serves(l, call) && l.pc == Q.EnqLink
    ensures call.op != Q.Dequeue && call.value == l.value
  {
  }

  /** An enqueue call links once. */
  lemma LinksOnce(s: System, labels: seq<Label>, m: nat, m': nat, t: Tid, e: nat)
    requires m <= m' < |labels| && labels[m].t == labels[m'].t == t
    requires LinksAt(s, labels, m) && LinksAt(s, labels, m')
    requires CallSince(s, labels, m, t, e) && CallSince(s, labels, m', t, e)
    ensures m == m'
  {
    LinksInThread(s, labels, m');
    assert FiresAt(s, labels, m);
    hide Before, FiresAt;
    var k := TookEffect(s, labels, m', t, e);
  }

  lemma SuppliesDiffer(s: System, n: nat, labels: seq<Label>, k: nat, m: nat, e: nat, k': nat, m': nat, e': nat)
    requires Init(s, n) && k < k' < |labels| && Supply(s, labels, k, m, e) && Supply(s, labels, k', m', e')
    ensures e != e'
  {
    hide Init, Inv, Before, LinksAt, TakesAt, NumberTaken, CallSince;
    AtFirst(s, n);
    NumbersDiffer(s, labels, k, k');
    if e == e' {
      SameStarter(s, labels, m, m', e);
      if m < m' {
        LinksOnce(s, labels, m, m', labels[m].t, e);
      } else {
        LinksOnce(s, labels, m', m, labels[m].t, e);
      }
    }
  }

  lemma SameStarter(s: System, labels: seq<Label>, m: nat, m': nat, e: nat)
    requires m < |labels| && m' < |labels|
    requires CallSince(s, labels, m, labels[m].t, e) && CallSince(s, labels, m', labels[m'].t, e)
    ensures labels[m].t == labels[m'].t
  {
  }

  // ----------------------------------------------------------------- in terms of calls

  /** In state `i` thread `t` is about to return from a dequeue with a value. */
  ghost predicate Answering(s: System, labels: seq<Label>, i: nat, t: Tid) {
    && i <= |labels| && HasThread(Before(s, labels, i), t, Q.Return)
    && Before(s, labels, i).threads[t].q.op == Q.Dequeue && Before(s, labels, i).threads[t].q.rv != 0
  }

  /** The answer is the value that the enqueue call that began with step `e` was given and has
      linked. */
  ghost predicate Given(s: System, labels: seq<Label>, i: nat, t: Tid, e: nat)
    requires Answering(s, labels, i, t)
  {
    && e < i && labels[e].op != Q.Dequeue && labels[e].value == Before(s, labels, i).threads[t].q.value
    && exists m :: e < m < i && LinksAt(s, labels, m) && CallSince(s, labels, m, labels[m].t, e)
  }

  /** The two answers are of different calls. */
  ghost predicate Apart(s: System, labels: seq<Label>, i: nat, t: Tid, i': nat, t': Tid)
    requires i <= |labels| && i' <= |labels|
  {
    t == t' ==>
      exists x | 0 <= x <= |labels| :: (i < x < i' || i' < x < i) && HasThread(Before(s, labels, x), t, Q.Idle)
  }

  lemma AnswerTaken(s: System, n: nat, labels: seq<Label>, i: nat, t: Tid) returns (j: nat, k: nat)
    requires Init(s, n) && Answering(s, labels, i, t)
    ensures i <= |labels| && CallSince(s, labels, i, t, j) && j < k < i && labels[k].t == t && TakesAt(s, labels, k)
    ensures Before(s, labels, k).threads[t].q.value == Before(s, labels, i).threads[t].q.value
  {
    j, k := DequeueAnswered(s, n, labels, i, t);
  }

  lemma SupplyGiven(s: System, labels: seq<Label>, i: nat, t: Tid, k: nat, m: nat, e: nat)
    requires Answering(s, labels, i, t) && k < i && labels[k].t == t && Supply(s, labels, k, m, e)
    requires Before(s, labels, k).threads[t].q.value == Before(s, labels, i).threads[t].q.value
    ensures Given(s, labels, i, t, e)
  {
    hide Before, HasThread, LinksAt, TakesAt, NumberTaken;
  }

  lemma ApartTakes(s: System, labels: seq<Label>, i: nat, t: Tid, j: nat, k: nat, i': nat, t': Tid, j': nat, k': nat)
    requires i <= |labels| && i' <= |labels| && Apart(s, labels, i, t, i', t')
    requires CallSince(s, labels, i, t, j) && CallSince(s, labels, i', t', j')
    requires j < k < i && j' < k' < i' && labels[k].t == t && labels[k'].t == t'
    ensures k != k'
  {
    if t == t' {
      var x :| 0 <= x <= |labels| && (i < x < i' || i' < x < i) && HasThread(Before(s, labels, x), t, Q.Idle);
      hide Before, CallSince, HasThread;
      if x < i' {
        IdleEarlier(s, labels, i', t, j', x);
      } else {
        IdleEarlier(s, labels, i, t, j, x);
      }
    }
  }

  /** Whatever the schedule, each dequeue that answers with a value answers what some enqueue
      was given and has linked, and two dequeue calls never answer for the same enqueue call. */
  lemma NoValueTwice(s: System, n: nat, labels: seq<Label>, i: nat, t: Tid, i': nat, t': Tid) returns (e: nat, e': nat)
    requires Init(s, n) && Answering(s, labels, i, t) && Answering(s, labels, i', t')
    requires Apart(s, labels, i, t, i', t')
    ensures Given(s, labels, i, t, e) && Given(s, labels, i', t', e') && e != e'
  {
    hide *;
    var j, k := AnswerTaken(s, n, labels, i, t);
    var j', k' := AnswerTaken(s, n, labels, i', t');
    var m, m';
    m, e := SupplyOf(s, n, labels, k);
    m', e' := SupplyOf(s, n, labels, k');
    SupplyGiven(s, labels, i, t, k, m, e);
    SupplyGiven(s, labels, i', t', k', m', e');
    ApartTakes(s, labels, i, t, j, k, i', t', j', k');
    if k < k' {
      SuppliesDiffer(s, n, labels, k, m, e, k', m', e');
    } else {
      SuppliesDiffer(s, n, labels, k', m', e', k, m, e);
    }
  }
}
