/** What a call is answered, told by the steps of the run alone: what was asked, and which of its allocations failed. */
module ReplyAnswers {
  import opened Options
  import opened ReplyProtocol
  import opened ReplySafety

  /** Who makes a step, and what is chosen in it. */
  datatype Label = ByThread(t: Tid, c: Choice) | ByDaemon(c: Choice)

  ghost predicate LabelledStep(s: State, l: Label, s': State) {
    match l
    case ByThread(t, c) => ThreadStep(s, t, c, s') && Clear(s, t, c)
    case ByDaemon(c) => DaemonStep(s, c, s')
  }

  /** A clear run with its steps. */
  ghost predicate Trace(states: seq<State>, labels: seq<Label>) {
    && |states| == |labels| + 1 && Initial(states[0])
    && forall i :: 0 <= i < |labels| ==> LabelledStep(states[i], labels[i], states[i + 1])
  }

  lemma TraceIsRun(states: seq<State>, labels: seq<Label>)
    requires Trace(states, labels)
    ensures ClearRun(states)
  {
    hide Initial, DaemonStep, Clear, Moved, MoveOf, CanMove;
    forall i | 0 <= i < |states| - 1 ensures ClearNext(states[i], states[i + 1]) {
      assert LabelledStep(states[i], labels[i], states[i + 1]);
      match labels[i]
      case ByThread(t, c) =>
        assert ThreadStep(states[i], t, c, states[i + 1]) && Clear(states[i], t, c);
      case ByDaemon(c) =>
        assert DaemonStep(states[i], c, states[i + 1]);
    }
  }

  /** Every clear run has such steps. */
  lemma {:induction false} RunIsTrace(states: seq<State>) returns (labels: seq<Label>)
    requires ClearRun(states)
    ensures Trace(states, labels)
    decreases |states|
  {
    hide Initial, ClearNext, LabelledStep;
    var n := |states| - 1;
    if n == 0 {
      labels := [];
    } else {
      var before := states[..n];
      forall i | 0 <= i < |before| - 1 ensures ClearNext(before[i], before[i + 1]) {
        assert ClearNext(states[i], states[i + 1]);
      }
      labels := RunIsTrace(before);
      assert ClearNext(states[n - 1], states[n - 1 + 1]);
      var l := LabelOf(states[n - 1], states[n]);
      labels := labels + [l];
    }
  }

  lemma LabelOf(s: State, s': State) returns (l: Label)
    requires ClearNext(s, s')
    ensures LabelledStep(s, l, s')
  {
    hide Moved, MoveOf, CanMove, DaemonStep, Clear;
    if t, c :| ThreadStep(s, t, c, s') && Clear(s, t, c) {
      l := ByThread(t, c);
    } else {
      var c :| DaemonStep(s, c, s');
      l := ByDaemon(c);
    }
  }

  // ----- what was asked -----

  /** A call: its number, whether it asks for a decision on a file, whether registering for the answer failed, and whether
      its message was not sent or not taken. */
  datatype Asked = Asked(serial: nat, filter: bool, unregistered: bool, unsent: bool)

  /** What the step of a thread tells of its call. */
  function AskedAfter(s: State, pc: Pc, c: Choice, was: Option<Asked>): Option<Asked> {
    match pc
    case Idle => if c.audit then was else Some(Asked(s.next, c.filter, false, false))
    case AddToMap(_) => if was.Some? && !c.ok then Some(was.value.(unregistered := true)) else was
    case EnterList(_) => if was.Some? && !c.ok then Some(was.value.(unsent := true)) else was
    case Send(_) => if was.Some? && !c.ok then Some(was.value.(unsent := true)) else was
    case _ => was
  }

  /** The latest call of a thread, told by the steps up to state i. */
  ghost function LatestCall(states: seq<State>, labels: seq<Label>, i: nat, t: Tid): Option<Asked>
    requires i < |states| && i <= |labels|
  {
    if i == 0 then None
    else
      var was := LatestCall(states, labels, i - 1, t);
      match labels[i - 1]
      case ByThread(u, c) => if u == t && t < |states[i - 1].threads| then AskedAfter(states[i - 1], states[i - 1].threads[t], c, was) else was
      case ByDaemon(_) => was
  }

  /** Registered for the answer. */
  predicate Registered(q: Asked) {
    q.filter && !q.unregistered
  }

  /** The record of the call that a thread carries agrees with what the steps tell. */
  ghost predicate Agrees(s: State, t: Tid, q: Option<Asked>)
    requires t < |s.threads|
  {
    var pc := s.threads[t];
    pc.Idle?
    || (q.Some? && pc.r.serial == q.value.serial
        && match pc
           case AddToMap(r) => !r.inserted && Registered(q.value) && !q.value.unsent
           case EnterList(r) => r.inserted == Registered(q.value) && !q.value.unsent
           case Send(r) => r.inserted == Registered(q.value) && !q.value.unsent
           case Leave(r, sent) => r.inserted == Registered(q.value) && sent == !q.value.unsent
           case Return(r, sent) => r.inserted == Registered(q.value) && sent == !q.value.unsent
           case _ => pc.r.inserted == Registered(q.value) && (q.value.unsent <==> t in s.lost))
  }

  lemma AgreesOwn(s: State, t: Tid, c: Choice, q: Option<Asked>)
    requires t < |s.threads| == |s.controlled| && CanMove(s, t, c) && Clear(s, t, c) && Safe(s) && Agrees(s, t, q)
    ensures Agrees(Moved(s, t, MoveOf(s, t, c)), t, AskedAfter(s, s.threads[t], c, q))
  {
    hide LockKept, IdsKept, PendingKept, ListedKept, LineKept, DaemonOk, Outstanding, Line;
    assert ThreadOk(s, t);
  }

  lemma AgreesOther(s: State, l: Label, s': State, t: Tid, q: Option<Asked>)
    requires LabelledStep(s, l, s') && !(l.ByThread? && l.t == t) && t < |s.threads| && Agrees(s, t, q)
    ensures t < |s'.threads| && Agrees(s', t, q)
  {
    hide MoveOf, CanMove, Clear, DaemonNext, DaemonCanMove, Waiters;
  }

  lemma AgreesStep(s: State, l: Label, s': State, t: Tid, q: Option<Asked>)
    requires Safe(s) && LabelledStep(s, l, s') && t < |s.threads| && Agrees(s, t, q)
    ensures t < |s'.threads|
    ensures Agrees(s', t, if l.ByThread? && l.t == t then AskedAfter(s, s.threads[t], l.c, q) else q)
  {
    hide Safe, Agrees, MoveOf, CanMove, Clear, DaemonStep, AskedAfter;
    if l.ByThread? && l.t == t {
      AgreesOwn(s, t, l.c, q);
    } else {
      AgreesOther(s, l, s', t, q);
    }
  }

  lemma AgreesAtStart(s: State, t: Tid)
    requires Initial(s) && t < |s.threads|
    ensures Agrees(s, t, None)
  {
  }

  lemma {:induction false} CallsAgree(states: seq<State>, labels: seq<Label>, i: nat, t: Tid)
    requires Trace(states, labels) && i < |states| && t < |states[0].threads|
    ensures t < |states[i].threads| && Agrees(states[i], t, LatestCall(states, labels, i, t))
  {
    hide Initial, LabelledStep, Agrees, AskedAfter, Safe;
    if i == 0 {
      AgreesAtStart(states[0], t);
    } else {
      CallsAgree(states, labels, i - 1, t);
      TraceIsRun(states, labels);
      ClearRunsAreSafe(states, i - 1);
      AgreesStep(states[i - 1], labels[i - 1], states[i - 1 + 1], t, LatestCall(states, labels, i - 1, t));
    }
  }

  // ----- what it is answered -----

  /** A call that returns and whose message was taken has been answered, and says yes exactly if it asked for a decision,
      could register for the answer, and the daemon's answer to its own message was yes. */
  lemma CallsAreAnswered(states: seq<State>, labels: seq<Label>, i: nat, t: Tid)
    requires Trace(states, labels) && i < |states| && t < |states[0].threads|
    requires t < |states[i].threads| && states[i].threads[t].Return?
    ensures var s, q := states[i], LatestCall(states, labels, i, t);
            && q.Some? && t < |s.controlled|
            && (!q.value.unsent ==> q.value.serial in s.answers)
            && s.controlled[t] == (!q.value.unsent && q.value.filter && !q.value.unregistered && s.answers[q.value.serial])
  {
    hide Trace, LatestCall, LockKept, IdsKept, PendingKept, ListedKept, AssertedKept, LineKept, DaemonOk, Outstanding, Line;
    CallsAgree(states, labels, i, t);
    TraceIsRun(states, labels);
    ClearRunsAreSafe(states, i);
    assert ThreadOk(states[i], t);
  }

  /** When the daemon has looked its message up, it is going to write to the message's owner, exactly if that call asked for
      a decision and could register. */
  lemma WritesToRegistered(states: seq<State>, labels: seq<Label>, i: nat)
    requires Trace(states, labels) && i < |states| && states[i].daemon.Write?
    ensures var s, m := states[i], states[i].daemon.m;
            && m.owner < |s.threads| && m.owner < |states[0].threads|
            && var q := LatestCall(states, labels, i, m.owner);
               q.Some? && q.value.serial == m.serial && !q.value.unsent
               && s.daemon.to == if q.value.filter && !q.value.unregistered then Some(m.owner) else None
  {
    hide Trace, LatestCall, LockKept, IdsKept, PendingKept, ListedKept, AssertedKept, ThreadOk, Line, Outstanding, LineKept;
    TraceIsRun(states, labels);
    ClearRunsAreSafe(states, i);
    HandItem(states[i]);
    SameThreads(states, labels, i);
    CallsAgree(states, labels, i, states[i].daemon.m.owner);
  }

  lemma {:induction false} SameThreads(states: seq<State>, labels: seq<Label>, i: nat)
    requires Trace(states, labels) && i < |states|
    ensures |states[i].threads| == |states[0].threads|
  {
    hide Initial, LabelledStep;
    if i > 0 {
      SameThreads(states, labels, i - 1);
      SameThreadsNext(states[i - 1], labels[i - 1], states[i - 1 + 1]);
    }
  }

  lemma SameThreadsNext(s: State, l: Label, s': State)
    requires LabelledStep(s, l, s')
    ensures |s'.threads| == |s.threads|
  {
    hide MoveOf, CanMove, Clear, DaemonNext, DaemonCanMove, Waiters;
  }

  // ----- the queue -----

  /** What a step puts into the queue, if there is memory: an audit record, or the message of a call. */
  function Given(s: State, l: Label): seq<Item> {
    match l
    case ByThread(t, c) =>
      if t < |s.threads| && c.ok then
        match s.threads[t]
        case Idle => if c.audit then [Audit] else []
        case Send(r) => [PreOperation(Message(r.id, r.serial, t))]
        case _ => []
      else []
    case ByDaemon(_) => []
  }

  /** What the daemon gets by a step. */
  function Got(s: State, l: Label, s': State): seq<Item> {
    if l.ByDaemon? && s.daemon.Ready? then [if s'.daemon.Got? then PreOperation(s'.daemon.m) else Audit] else []
  }

  /** Everything given to the queue up to state i. */
  ghost function AllGiven(states: seq<State>, labels: seq<Label>, i: nat): seq<Item>
    requires i < |states| && i <= |labels|
  {
    if i == 0 then [] else AllGiven(states, labels, i - 1) + Given(states[i - 1], labels[i - 1])
  }

  ghost function AllGot(states: seq<State>, labels: seq<Label>, i: nat): seq<Item>
    requires i < |states| && i <= |labels|
  {
    if i == 0 then [] else AllGot(states, labels, i - 1) + Got(states[i - 1], labels[i - 1], states[i])
  }

  lemma QueueStep(s: State, l: Label, s': State)
    requires LabelledStep(s, l, s')
    ensures Got(s, l, s') + s'.queue == s.queue + Given(s, l)
  {
    hide Waiters, Clear, CanMove;
    if l.ByDaemon? && s.daemon.Ready? {
      assert s.queue == [s.queue[0]] + s.queue[1..];
    }
  }

  /** Nothing is lost or overtaken: what the daemon has got, followed by what is in the queue, is all that was given, in its
      order. */
  lemma {:induction false} GotInOrder(states: seq<State>, labels: seq<Label>, i: nat)
    requires Trace(states, labels) && i < |states|
    ensures AllGot(states, labels, i) + states[i].queue == AllGiven(states, labels, i)
  {
    hide LabelledStep, Given, Got;
    if i > 0 {
      GotInOrder(states, labels, i - 1);
      QueueStep(states[i - 1], labels[i - 1], states[i - 1 + 1]);
      var got, given := AllGot(states, labels, i - 1), AllGiven(states, labels, i - 1);
      calc {
        AllGot(states, labels, i) + states[i].queue;
        got + (Got(states[i - 1], labels[i - 1], states[i]) + states[i].queue);
        got + (states[i - 1].queue + Given(states[i - 1], labels[i - 1]));
        (got + states[i - 1].queue) + Given(states[i - 1], labels[i - 1]);
        AllGiven(states, labels, i);
      }
    }
  }
}
