/** What the request protocol guarantees, and exactly when. */
module ReplyResults {
  import opened Options
  import opened ReplyProtocol
  import opened ReplySafety

  /** A blocked caller is in the waiting list, and unless the queue refused its message exactly one message of its call
      is on its way; if the queue refused it, none is. */
  lemma BlockedIsAwaited(states: seq<State>, i: nat, t: Tid)
    requires ClearRun(states) && i < |states| && Blocked(states[i], t)
    ensures var s, r := states[i], states[i].threads[t].r;
            && r.id in s.listed && s.listed[r.id] == t
            && (t in s.lost <==> forall k | 0 <= k < |Line(s)| :: !IsFor(Line(s)[k], t))
            && (t !in s.lost ==> exists k :: 0 <= k < |Line(s)| && Line(s)[k] == PreOperation(Message(r.id, r.serial, t))
                                      && forall j | 0 <= j < |Line(s)| && j != k :: !IsFor(Line(s)[j], t))
  {
    hide ClearRun, Line, LockKept, IdsKept, PendingKept, ListedKept, DaemonOk;
    ClearRunsAreSafe(states, i);
    var s := states[i];
    assert ThreadOk(s, t);
    if t !in s.lost {
      var k :| 0 <= k < |Line(s)| && IsFor(Line(s)[k], t);
      assert ItemOk(s, Line(s)[k].m);
    }
  }

  /** With no message on its way and none refused, nobody is blocked. */
  lemma NobodyBlockedWhenQuiet(states: seq<State>, i: nat)
    requires ClearRun(states) && i < |states|
    requires states[i].lost == {} && forall k | 0 <= k < |Line(states[i])| :: Line(states[i])[k] == Audit
    ensures forall t: Tid :: !Blocked(states[i], t)
  {
    hide ClearRun, Blocked;
    forall t: Tid ensures !Blocked(states[i], t) {
      if Blocked(states[i], t) {
        BlockedIsAwaited(states, i, t);
      }
    }
  }

  /** When the reply writes, it writes to a caller still inside the call that the message belongs to. */
  lemma WritesToLiveOwner(states: seq<State>, i: nat)
    requires ClearRun(states) && i < |states| && states[i].daemon.Write? && states[i].daemon.to.Some?
    ensures var s, m, t := states[i], states[i].daemon.m, states[i].daemon.to.value;
            && t == m.owner < |s.threads| && Awaiting(s.threads[t])
            && s.threads[t].r.id == m.id && s.threads[t].r.serial == m.serial && s.threads[t].r.inserted
  {
    hide ClearRun, Line, LockKept, IdsKept, PendingKept, ListedKept, AssertedKept, ThreadOk;
    ClearRunsAreSafe(states, i);
    HandItem(states[i]);
  }

  /** A returning caller that sent its message has the daemon's answer to that very message; one that could not send it,
      or could not register for an answer, has the answer no. */
  lemma ReturnsOwnAnswer(states: seq<State>, i: nat, t: Tid)
    requires ClearRun(states) && i < |states| && t < |states[i].threads| && states[i].threads[t].Return?
    ensures var s, pc := states[i], states[i].threads[t];
            && t < |s.controlled|
            && (pc.sent ==> pc.r.serial in s.answers && t !in s.lost)
            && s.controlled[t] == (pc.sent && pc.r.inserted && s.answers[pc.r.serial])
  {
    hide ClearRun, Line, LockKept, IdsKept, PendingKept, ListedKept, AssertedKept, LineKept, DaemonOk, Outstanding;
    ClearRunsAreSafe(states, i);
    assert ThreadOk(states[i], t);
  }

  // ----- exactly when -----

  /** From a safe state, a step of a caller is safe if and only if it does not enter the waiting list under an address
      that is still in it. */
  lemma SafeIffClear(s: State, t: Tid, c: Choice, s': State)
    requires Safe(s) && ThreadStep(s, t, c, s')
    ensures Safe(s') <==> Clear(s, t, c)
  {
    hide LockKept, IdsKept, PendingKept, ListedKept, LineKept, AssertedKept, DaemonOk, Outstanding, Line;
    if Clear(s, t, c) {
      SafeMove(s, t, c);
    } else {
      assert ThreadOk(s, t);
      assert s'.threads[t] == Send(s.threads[t].r);
      assert !ThreadOk(s', t);
    }
  }

  /** s leads to s' in n steps. */
  ghost predicate Leads(s: State, s': State, n: nat)
    decreases n
  {
    if n == 0 then s == s' else exists u :: Leads(s, u, n - 1) && Next(u, s')
  }

  lemma LeadsOn(s: State, u: State, s': State, n: nat)
    requires Leads(s, u, n) && Next(u, s')
    ensures Leads(s, s', n + 1)
  {
    hide Next;
    assert Leads(s, u, (n + 1) - 1);
  }

  lemma LeadsByThread(s: State, u: State, n: nat, t: Tid, c: Choice)
    requires Leads(s, u, n) && t < |u.threads| == |u.controlled| && CanMove(u, t, c)
    ensures Leads(s, Moved(u, t, MoveOf(u, t, c)), n + 1)
  {
    hide MoveOf, Moved, CanMove;
    assert ThreadStep(u, t, c, Moved(u, t, MoveOf(u, t, c)));
    LeadsOn(s, u, Moved(u, t, MoveOf(u, t, c)), n);
  }

  lemma LeadsByDaemon(s: State, u: State, n: nat, c: Choice)
    requires Leads(s, u, n) && |u.threads| == |u.controlled| && DaemonCanMove(u)
    ensures Leads(s, DaemonMove(u, c), n + 1)
  {
    hide DaemonMove, DaemonCanMove;
    assert DaemonStep(u, c, DaemonMove(u, c));
    LeadsOn(s, u, DaemonMove(u, c), n);
  }

  /** A caller that does so can return while its message is still in the queue. */
  lemma UnclearReturnsEarly(s: State, t: Tid, c: Choice)
    requires Safe(s) && t < |s.threads| && s.threads[t].EnterList? && c.ok && s.threads[t].r.id in s.listed
    ensures exists s' :: Leads(s, s', 9) && |s'.threads| == |s.threads|
                         && s'.threads[t] == Return(s.threads[t].r, true) && Outstanding(Line(s'), t)
  {
    hide IdsKept, PendingKept, ListedKept, LineKept, AssertedKept, DaemonOk, Outstanding, Line, Leads;
    var r := s.threads[t].r;
    assert ThreadOk(s, t);
    var s2 := EntersAndLoses(s, t, c);
    var s3 := SendsAnyway(s, s2, t, c);
    var s9 := DoesNotWait(s, s3, t, c);
  }

  /** The daemon takes the caller's new entry out of the list with the old one. */
  lemma EntersAndLoses(s: State, t: Tid, c: Choice) returns (s': State)
    requires t < |s.threads| == |s.controlled| && s.threads[t].EnterList? && c.ok
    requires s.daemon.Unlist? && s.daemon.m.id == s.threads[t].r.id
    ensures Leads(s, s', 3) && |s'.threads| == |s'.controlled| == |s.threads| && s'.threads[t] == Send(s.threads[t].r)
    ensures s.threads[t].r.id !in s'.listed && s'.holder.Nobody? && s'.daemon.Ready?
  {
    hide Leads;
    assert Leads(s, s, 0) by {
      LeadsNowhere(s);
    }
    var s1 := Moved(s, t, MoveOf(s, t, c));
    LeadsByThread(s, s, 0, t, c);
    var s2 := DaemonMove(s1, c);
    LeadsByDaemon(s, s1, 1, c);
    s' := DaemonMove(s2, c);
    LeadsByDaemon(s, s2, 2, c);
  }

  lemma LeadsNowhere(s: State)
    ensures Leads(s, s, 0)
  {
  }

  lemma SendsAnyway(s: State, u: State, t: Tid, c: Choice) returns (s': State)
    requires Leads(s, u, 3) && t < |u.threads| == |u.controlled| && u.threads[t].Send? && c.ok
    requires u.threads[t].r.id !in u.listed && u.holder.Nobody? && u.daemon.Ready?
    ensures Leads(s, s', 5) && |s'.threads| == |s'.controlled| == |u.threads| && s'.threads[t] == AcquireWait(u.threads[t].r)
    ensures u.threads[t].r.id !in s'.listed && s'.holder.Nobody? && |s'.queue| > 0 && IsFor(s'.queue[|s'.queue| - 1], t)
  {
    hide Leads;
    var s1 := Moved(u, t, MoveOf(u, t, c));
    LeadsByThread(s, u, 3, t, c);
    s' := Moved(s1, t, MoveOf(s1, t, c));
    LeadsByThread(s, s1, 4, t, c);
  }

  lemma DoesNotWait(s: State, u: State, t: Tid, c: Choice) returns (s': State)
    requires Leads(s, u, 5) && t < |u.threads| == |u.controlled| && u.threads[t].AcquireWait?
    requires u.threads[t].r.id !in u.listed && u.holder.Nobody? && |u.queue| > 0 && IsFor(u.queue[|u.queue| - 1], t)
    ensures Leads(s, s', 9) && |s'.threads| == |u.threads| && s'.threads[t] == Return(u.threads[t].r, true)
    ensures Outstanding(Line(s'), t)
  {
    hide Leads;
    var s1 := Moved(u, t, MoveOf(u, t, c));
    LeadsByThread(s, u, 5, t, c);
    var s2 := Moved(s1, t, MoveOf(s1, t, c));
    LeadsByThread(s, s1, 6, t, c);
    var s3 := Moved(s2, t, MoveOf(s2, t, c));
    LeadsByThread(s, s2, 7, t, c);
    s' := Moved(s3, t, MoveOf(s3, t, c));
    LeadsByThread(s, s3, 8, t, c);
    assert Line(s')[|u.queue|] == u.queue[|u.queue| - 1];
  }

  // ----- a run that does so -----

  const GO := Choice(false, false, 0, true, true)

  function Alone(pc: Pc, listed: map<Id, Tid>, asserted: set<Tid>, holder: Holder, queue: seq<Item>, d: DaemonPc,
                 answers: map<nat, bool>, next: nat): State {
    State([pc], [false], listed, map[], asserted, holder, queue, d, answers, {}, next)
  }

  /** A step of the one caller that keeps it safe. */
  lemma CallerGoes(s: State, u: State, n: nat)
    requires Leads(s, u, n) && Safe(u) && |u.threads| == |u.controlled| == 1 && CanMove(u, 0, GO) && Clear(u, 0, GO)
    ensures Leads(s, Moved(u, 0, MoveOf(u, 0, GO)), n + 1) && Safe(Moved(u, 0, MoveOf(u, 0, GO)))
  {
    hide *;
    LeadsByThread(s, u, n, 0, GO);
    SafeMove(u, 0, GO);
  }

  lemma DaemonGoes(s: State, u: State, n: nat)
    requires Leads(s, u, n) && Safe(u) && |u.threads| == |u.controlled| && DaemonCanMove(u)
    ensures Leads(s, DaemonMove(u, GO), n + 1) && Safe(DaemonMove(u, GO))
  {
    hide *;
    LeadsByDaemon(s, u, n, GO);
    SafeDaemonMove(u, GO);
  }

  /** A caller sends a message. */
  lemma FirstSends(s: State) returns (u: State)
    requires s == Alone(Idle, map[], {}, Nobody, [], Ready, map[], 0)
    ensures Leads(s, u, 3) && Safe(u)
    ensures u == Alone(Sent(Request(0, 0, false, false)), map[0 := 0], {}, Nobody,
                       [PreOperation(Message(0, 0, 0))], Ready, map[], 1)
  {
    hide Leads, Safe;
    var r := Request(0, 0, false, false);
    LeadsNowhere(s);
    InitialIsSafe(s);
    CallerGoes(s, s, 0);
    var u1 := Alone(EnterList(r), map[], {}, Nobody, [], Ready, map[], 1);
    assert Moved(s, 0, MoveOf(s, 0, GO)) == u1;
    CallerGoes(s, u1, 1);
    var u2 := Alone(Send(r), map[0 := 0], {}, Nobody, [], Ready, map[], 1);
    assert Moved(u1, 0, MoveOf(u1, 0, GO)) == u2;
    CallerGoes(s, u2, 2);
    u := Alone(Sent(r), map[0 := 0], {}, Nobody, [PreOperation(Message(0, 0, 0))], Ready, map[], 1);
    assert Moved(u2, 0, MoveOf(u2, 0, GO)) == u;
  }

  /** It blocks. */
  lemma ThenBlocks(s: State, u3: State) returns (u: State)
    requires Leads(s, u3, 3) && Safe(u3)
    requires u3 == Alone(Sent(Request(0, 0, false, false)), map[0 := 0], {}, Nobody,
                         [PreOperation(Message(0, 0, 0))], Ready, map[], 1)
    ensures Leads(s, u, 7) && Safe(u)
    ensures u == Alone(Block(Request(0, 0, false, false)), map[0 := 0], {0}, Nobody,
                       [PreOperation(Message(0, 0, 0))], Ready, map[], 1)
  {
    hide Leads, Safe;
    var r, q := Request(0, 0, false, false), [PreOperation(Message(0, 0, 0))];
    CallerGoes(s, u3, 3);
    var u4 := Alone(AcquireWait(r), map[0 := 0], {}, Nobody, q, Ready, map[], 1);
    assert Moved(u3, 0, MoveOf(u3, 0, GO)) == u4;
    CallerGoes(s, u4, 4);
    var u5 := Alone(CheckList(r), map[0 := 0], {}, Kernel(0), q, Ready, map[], 1);
    assert Moved(u4, 0, MoveOf(u4, 0, GO)) == u5;
    CallerGoes(s, u5, 5);
    var u6 := Alone(ReleaseWait(r, true), map[0 := 0], {0}, Kernel(0), q, Ready, map[], 1);
    assert Moved(u5, 0, MoveOf(u5, 0, GO)) == u6;
    CallerGoes(s, u6, 6);
    u := Alone(Block(r), map[0 := 0], {0}, Nobody, q, Ready, map[], 1);
    assert Moved(u6, 0, MoveOf(u6, 0, GO)) == u;
  }

  /** The daemon answers it, and stops between waking the caller and taking its address out of the list. */
  lemma DaemonWakes(s: State, u: State) returns (v: State)
    requires Leads(s, u, 7) && Safe(u)
    requires u == Alone(Block(Request(0, 0, false, false)), map[0 := 0], {0}, Nobody,
                        [PreOperation(Message(0, 0, 0))], Ready, map[], 1)
    ensures Leads(s, v, 14) && Safe(v)
    ensures v == Alone(Block(Request(0, 0, false, false)), map[0 := 0], {}, Daemon, [],
                       Unlist(Message(0, 0, 0), true), map[0 := true], 1)
  {
    hide Leads, Safe;
    var b, m, a, l := Block(Request(0, 0, false, false)), Message(0, 0, 0), map[0 := true], map[0 := 0];
    DaemonGoes(s, u, 7);
    var u1 := Alone(b, l, {0}, Nobody, [], Got(m), map[], 1);
    assert DaemonMove(u, GO) == u1;
    DaemonGoes(s, u1, 8);
    var u2 := Alone(b, l, {0}, Nobody, [], Find(m, true), a, 1);
    assert DaemonMove(u1, GO) == u2;
    DaemonGoes(s, u2, 9);
    var u3 := Alone(b, l, {0}, Nobody, [], Write(m, true, None), a, 1);
    assert DaemonMove(u2, GO) == u3;
    DaemonGoes(s, u3, 10);
    var u4 := Alone(b, l, {0}, Nobody, [], AcquireSignal(m, true), a, 1);
    assert DaemonMove(u3, GO) == u4;
    DaemonGoes(s, u4, 11);
    var u5 := Alone(b, l, {0}, Daemon, [], LookSignal(m, true), a, 1);
    assert DaemonMove(u4, GO) == u5;
    DaemonGoes(s, u5, 12);
    var u6 := Alone(b, l, {0}, Daemon, [], Wake(m, true), a, 1);
    assert DaemonMove(u5, GO) == u6;
    DaemonGoes(s, u6, 13);
    v := Alone(b, l, {}, Daemon, [], Unlist(m, true), a, 1);
    assert Waiters(u6, 0) == {0};
    assert DaemonMove(u6, GO) == v;
  }

  /** The caller returns, and calls again from the same stack frame. */
  lemma CallsAgain(s: State, v: State) returns (x: State)
    requires Leads(s, v, 14) && Safe(v)
    requires v == Alone(Block(Request(0, 0, false, false)), map[0 := 0], {}, Daemon, [],
                        Unlist(Message(0, 0, 0), true), map[0 := true], 1)
    ensures Leads(s, x, 18) && Safe(x)
    ensures x == Alone(EnterList(Request(0, 1, false, false)), map[0 := 0], {}, Daemon, [],
                       Unlist(Message(0, 0, 0), true), map[0 := true], 2)
  {
    hide Leads, Safe;
    var r, d, a, l := Request(0, 0, false, false), Unlist(Message(0, 0, 0), true), map[0 := true], map[0 := 0];
    CallerGoes(s, v, 14);
    var v1 := Alone(Leave(r, true), l, {}, Daemon, [], d, a, 1);
    assert Moved(v, 0, MoveOf(v, 0, GO)) == v1;
    CallerGoes(s, v1, 15);
    var v2 := Alone(Return(r, true), l, {}, Daemon, [], d, a, 1);
    assert Moved(v1, 0, MoveOf(v1, 0, GO)) == v2;
    CallerGoes(s, v2, 16);
    var v3 := Alone(Idle, l, {}, Daemon, [], d, a, 1);
    assert Moved(v2, 0, MoveOf(v2, 0, GO)) == v3;
    CallerGoes(s, v3, 17);
    x := Alone(EnterList(Request(0, 1, false, false)), l, {}, Daemon, [], d, a, 2);
    assert Moved(v3, 0, MoveOf(v3, 0, GO)) == x;
  }

  /** One caller is enough: it can return from its second call while that call's message is still in the queue. */
  lemma SecondCallReturnsEarly()
    ensures exists s, x, s', r :: Initial(s) && Leads(s, x, 18) && Leads(x, s', 9)
              && s'.threads == [Return(r, true)] && Outstanding(Line(s'), 0)
  {
    hide Leads, Safe, Outstanding, Line;
    var s := Alone(Idle, map[], {}, Nobody, [], Ready, map[], 0);
    var u3 := FirstSends(s);
    var u := ThenBlocks(s, u3);
    var v := DaemonWakes(s, u);
    var x := CallsAgain(s, v);
    UnclearReturnsEarly(x, 0, GO);
    var s' :| Leads(x, s', 9) && |s'.threads| == 1 && s'.threads[0] == Return(x.threads[0].r, true) && Outstanding(Line(s'), 0);
    assert s'.threads == [Return(x.threads[0].r, true)];
  }
}
