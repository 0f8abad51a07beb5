/** A call whose message was refused never returns. Without new calls every run ends, and until all other calls have
    returned it can go on. */
module ReplyProgress {
  import opened Options
  import opened ReplyProtocol
  import opened ReplySafety

  // ----- a refused message -----

  lemma LostIsForever(s: State, s': State, t: Tid)
    requires Safe(s) && ClearNext(s, s') && t in s.lost
    ensures t in s'.lost && t < |s'.threads| && Awaiting(s'.threads[t]) && Listed(s', s'.threads[t].r.id)
  {
    hide LockKept, IdsKept, PendingKept, ListedKept, LineKept, AssertedKept, DaemonOk, Outstanding, Line, MoveOf, CanMove,
         DaemonCanMove, DaemonNext;
    SafeNext(s, s');
    assert t in s'.lost by {
      if u, c :| ThreadStep(s, u, c, s') && Clear(s, u, c) {
      } else {
        var c :| DaemonStep(s, c, s');
      }
    }
    assert ThreadOk(s', t);
  }

  /** A caller whose message the queue refused never returns. */
  lemma {:induction false} RefusedNeverReturns(states: seq<State>, i: nat, j: nat, t: Tid)
    requires ClearRun(states) && i <= j < |states| && t in states[i].lost
    ensures t in states[j].lost && t < |states[j].threads|
    ensures j > i ==> Awaiting(states[j].threads[t])
  {
    hide Safe, ClearNext, Initial;
    ClearRunsAreSafe(states, j);
    if i < j {
      RefusedNeverReturns(states, i, j - 1, t);
      ClearRunsAreSafe(states, j - 1);
      assert ClearNext(states[j - 1], states[j - 1 + 1]);
      LostIsForever(states[j - 1], states[j], t);
    } else {
      SafeParts(states[j]);
    }
  }

  // ----- every other call returns -----

  /** Steps a caller has before it, with those the daemon will make for it. */
  function Rank(pc: Pc): nat {
    match pc
    case Idle => 0
    case Return(_, _) => 1
    case Leave(_, _) => 2
    case Block(_) => 3
    case ReleaseWait(_, _) => 4
    case CheckList(_) => 5
    case AcquireWait(_) => 6
    case Sent(_) => 7
    case Send(_) => 17
    case EnterList(_) => 18
    case AddToMap(_) => 19
  }

  function DaemonRank(d: DaemonPc): nat {
    match d
    case Ready => 0
    case ReleaseSignal => 1
    case Unlist(_, _) => 2
    case Wake(_, _) => 3
    case LookSignal(_, _) => 4
    case AcquireSignal(_, _) => 5
    case Write(_, _, _) => 6
    case Find(_, _) => 7
    case Got(_) => 8
  }

  function Ranks(threads: seq<Pc>): nat {
    if threads == [] then 0 else Rank(threads[0]) + Ranks(threads[1..])
  }

  function Weight(queue: seq<Item>): nat {
    if queue == [] then 0 else (if queue[0].Audit? then 1 else 9) + Weight(queue[1..])
  }

  function Measure(s: State): nat {
    Ranks(s.threads) + Weight(s.queue) + DaemonRank(s.daemon)
  }

  lemma {:induction false} RanksUpdate(threads: seq<Pc>, t: nat, pc: Pc)
    requires t < |threads|
    ensures Ranks(threads[t := pc]) == Ranks(threads) - Rank(threads[t]) + Rank(pc)
  {
    if t == 0 {
      assert threads[0 := pc][1..] == threads[1..];
    } else {
      assert threads[t := pc][1..] == threads[1..][t - 1 := pc];
      RanksUpdate(threads[1..], t - 1, pc);
    }
  }

  lemma {:induction false} WeightAppend(queue: seq<Item>, i: Item)
    ensures Weight(queue + [i]) == Weight(queue) + if i.Audit? then 1 else 9
  {
    if queue == [] {
      assert [] + [i] == [i] && [i][1..] == [];
    } else {
      assert (queue + [i])[1..] == queue[1..] + [i];
      WeightAppend(queue[1..], i);
    }
  }

  lemma RankMoves(s: State, t: Tid, c: Choice)
    requires t < |s.threads| && !s.threads[t].Idle?
    ensures var m := MoveOf(s, t, c);
            Rank(m.next) + (if m.effect.Enqueue? then (if m.effect.item.Audit? then 1 else 9) else 0) < Rank(s.threads[t])
  {
  }

  /** Every step but a new call or audit record brings the end nearer. */
  lemma StepsDecrease(s: State, s': State, t: Tid, c: Choice)
    requires (ThreadStep(s, t, c, s') && !s.threads[t].Idle?) || DaemonStep(s, c, s')
    ensures Measure(s') < Measure(s)
  {
    hide MoveOf, CanMove, Rank, Ranks, Weight;
    if ThreadStep(s, t, c, s') && !s.threads[t].Idle? {
      var m := MoveOf(s, t, c);
      RankMoves(s, t, c);
      RanksUpdate(s.threads, t, m.next);
      if m.effect.Enqueue? {
        WeightAppend(s.queue, m.effect.item);
      }
    } else {
      DaemonDecreases(s, c);
    }
  }

  lemma DaemonDecreases(s: State, c: Choice)
    requires |s.threads| == |s.controlled| && DaemonCanMove(s)
    ensures Measure(DaemonMove(s, c)) < Measure(s)
  {
    hide Ranks, Waiters;
  }

  /** Nothing is on its way, and every caller has returned, except those whose message was refused: they are blocked. */
  ghost predicate Resting(s: State) {
    s.queue == [] && s.daemon.Ready? && forall t: Tid | t < |s.threads| :: Rests(s, t)
  }

  ghost predicate Rests(s: State, t: Tid)
    requires t < |s.threads|
  {
    s.threads[t].Idle? || (s.threads[t].Block? && t in s.lost)
  }

  /** Until then, some step other than a new call can be made, whatever has been refused. */
  lemma NotStuck(s: State) returns (t: Tid, c: Choice)
    requires Safe(s) && !Resting(s)
    ensures DaemonCanMove(s) || (t < |s.threads| && !s.threads[t].Idle? && CanMove(s, t, c) && Clear(s, t, c))
    ensures c.ok || (t < |s.threads| && s.threads[t].EnterList?)
  {
    hide IdsKept, PendingKept, ListedKept, LineKept, DaemonOk;
    t, c := 0, Choice(false, false, 0, true, true);
    if DaemonCanMove(s) {
    } else if s.holder.Kernel? {
      t := s.holder.t;
    } else {
      t :| t < |s.threads| && !Rests(s, t);
      assert ThreadOk(s, t);
      if s.threads[t].EnterList? {
        c := c.(ok := s.threads[t].r.id !in s.listed);
      }
    }
  }

  /** A step that is not a new call and refuses no message. */
  ghost predicate QuietNext(s: State, s': State) {
    || (exists c :: DaemonStep(s, c, s'))
    || exists t: Tid, c :: ThreadStep(s, t, c, s') && Clear(s, t, c) && !s.threads[t].Idle? && (s.threads[t].Send? ==> c.ok)
  }

  /** s' is reached from s in n such steps. */
  ghost predicate Quietly(s: State, s': State, n: nat)
    decreases n
  {
    if n == 0 then s == s' else exists u :: QuietNext(s, u) && Quietly(u, s', n - 1)
  }

  /** Without new calls, a run is no longer than the measure of where it starts. */
  lemma {:induction false} QuietRunsEnd(s: State, s': State, n: nat)
    requires Quietly(s, s', n)
    ensures n + Measure(s') <= Measure(s)
    decreases n
  {
    hide Measure, QuietNext;
    if n > 0 {
      var u :| QuietNext(s, u) && Quietly(u, s', n - 1);
      QuietDecreases(s, u);
      QuietRunsEnd(u, s', n - 1);
    }
  }

  lemma QuietDecreases(s: State, u: State)
    requires QuietNext(s, u)
    ensures Measure(u) < Measure(s)
  {
    hide Measure, MoveOf, CanMove, DaemonMove, DaemonCanMove, Moved, Clear;
    if c :| DaemonStep(s, c, u) {
      StepsDecrease(s, u, 0, c);
    } else {
      var t: Tid, c :| ThreadStep(s, t, c, u) && Clear(s, t, c) && !s.threads[t].Idle? && (s.threads[t].Send? ==> c.ok);
      StepsDecrease(s, u, t, c);
    }
  }

  /** Nothing more can happen without a new call exactly when every caller whose message was taken has returned. */
  lemma StopsOnlyAtRest(s: State)
    requires Safe(s)
    ensures (forall u :: !QuietNext(s, u)) <==> Resting(s)
  {
    hide Safe, Resting, Moved, MoveOf, CanMove, Clear, DaemonMove, DaemonCanMove;
    if Resting(s) {
      forall u ensures !QuietNext(s, u) {
        RestIsQuiet(s, u);
      }
    } else {
      var u := QuietStep(s);
    }
  }

  lemma RestIsQuiet(s: State, u: State)
    requires Safe(s) && Resting(s)
    ensures !QuietNext(s, u)
  {
    hide Moved, MoveOf, Clear, DaemonMove, Outstanding, Line, LockKept, IdsKept, PendingKept, ListedKept, LineKept, DaemonOk;
    forall t: Tid, c | t < |s.threads| && !s.threads[t].Idle? ensures !CanMove(s, t, c) {
      assert Rests(s, t) && ThreadOk(s, t);
    }
  }

  lemma QuietStep(s: State) returns (u: State)
    requires Safe(s) && !Resting(s)
    ensures QuietNext(s, u) && Safe(u) && u.lost == s.lost
  {
    hide Resting, CanMove, DaemonCanMove, DaemonNext, LockKept, IdsKept, PendingKept, ListedKept, LineKept, AssertedKept,
         DaemonOk, ThreadOk, Waiters;
    var t, c := NotStuck(s);
    if DaemonCanMove(s) {
      u := DaemonMove(s, c);
      assert DaemonStep(s, c, u);
      SafeDaemonMove(s, c);
    } else {
      u := Moved(s, t, MoveOf(s, t, c));
      assert ThreadStep(s, t, c, u);
      SafeMove(s, t, c);
    }
  }

  /** From every safe state, all callers whose message was not refused can return, and no message need be refused. */
  lemma Drains(s: State) returns (s': State, n: nat)
    requires Safe(s)
    ensures Quietly(s, s', n) && n <= Measure(s) && Resting(s') && Safe(s') && s'.lost == s.lost
    decreases Measure(s)
  {
    hide Resting, QuietNext, Safe, Measure;
    if Resting(s) {
      s', n := s, 0;
    } else {
      var u := QuietStep(s);
      QuietDecreases(s, u);
      var k;
      s', k := Drains(u);
      n := k + 1;
      assert QuietNext(s, u) && Quietly(u, s', n - 1);
    }
  }
}
