/** What every step of the request protocol keeps. */
module ReplySafety {
  import opened Options
  import opened ReplyProtocol

  ghost predicate LockKept(s: State) {
    && (forall t: Tid :: s.holder == Kernel(t) <==>
          t < |s.threads| && (s.threads[t].CheckList? || s.threads[t].ReleaseWait?))
    && (s.holder == Daemon <==> s.daemon.LookSignal? || s.daemon.Wake? || s.daemon.Unlist? || s.daemon.ReleaseSignal?)
  }

  /** Calls in progress have addresses and serials of their own. */
  ghost predicate IdsKept(s: State) {
    && (forall t, u | 0 <= t < u < |s.threads| && !s.threads[t].Idle? && !s.threads[u].Idle? ::
          s.threads[t].r.id != s.threads[u].r.id && s.threads[t].r.serial != s.threads[u].r.serial)
    && (forall t | 0 <= t < |s.threads| && !s.threads[t].Idle? :: s.threads[t].r.serial < s.next)
  }

  predicate Mapped(pc: Pc) {
    !pc.Idle? && pc.r.inserted && !pc.Return?
  }

  /** The map of requests leads to callers still inside their call, and to all that are in it. */
  ghost predicate PendingKept(s: State) {
    && (forall id | id in s.pending ::
          s.pending[id] < |s.threads| && Mapped(s.threads[s.pending[id]]) && s.threads[s.pending[id]].r.id == id)
    && (forall t | 0 <= t < |s.threads| && Mapped(s.threads[t]) ::
          s.threads[t].r.id in s.pending && s.pending[s.threads[t].r.id] == t)
  }

  ghost predicate ListedKept(s: State) {
    forall id | Listed(s, id) ::
      && s.listed[id] < |s.threads|
      && (s.threads[s.listed[id]].Send? || Awaiting(s.threads[s.listed[id]]))
      && s.threads[s.listed[id]].r.id == id
  }

  /** Every message on its way belongs to a caller that awaits it and is in the waiting list, and no caller has two. */
  ghost predicate LineKept(s: State) {
    var line := Line(s);
    && (forall k | 0 <= k < |line| && line[k].PreOperation? :: ItemOk(s, line[k].m))
    && (forall j, k | 0 <= j < k < |line| && line[j].PreOperation? && line[k].PreOperation? ::
          line[j].m.owner != line[k].m.owner)
  }

  ghost predicate ItemOk(s: State, m: Message) {
    && m.owner < |s.threads| && Awaiting(s.threads[m.owner])
    && s.threads[m.owner].r.id == m.id && s.threads[m.owner].r.serial == m.serial
    && Listed(s, m.id) && s.listed[m.id] == m.owner && m.owner !in s.lost
  }

  predicate Waiting(pc: Pc) {
    (pc.ReleaseWait? && pc.wait) || pc.Block?
  }

  /** The threads that will wait, or wait, until they are woken are those still in the waiting list. */
  ghost predicate AssertedKept(s: State) {
    && (forall t | t in s.asserted :: t < |s.threads| && Waiting(s.threads[t]) && Listed(s, s.threads[t].r.id))
    && (forall t | 0 <= t < |s.threads| && Waiting(s.threads[t]) && Listed(s, s.threads[t].r.id) :: t in s.asserted)
  }

  /** The caller has the daemon's answer to its own request. */
  ghost predicate Answered(s: State, t: Tid)
    requires t < |s.threads| == |s.controlled| && !s.threads[t].Idle?
  {
    var r := s.threads[t].r;
    r.serial in s.answers && (r.inserted ==> s.controlled[t] == s.answers[r.serial])
  }

  ghost predicate ThreadOk(s: State, t: Tid)
    requires t < |s.threads| == |s.controlled|
  {
    var pc := s.threads[t];
    if pc.Idle? then t !in s.lost && !Outstanding(Line(s), t)
    else
      && (!pc.r.inserted ==> !s.controlled[t])
      && if pc.Send? then
           Listed(s, pc.r.id) && s.listed[pc.r.id] == t && t !in s.lost && !Outstanding(Line(s), t) && !s.controlled[t]
         else if Awaiting(pc) && Listed(s, pc.r.id) then
           s.listed[pc.r.id] == t && (t in s.lost <==> !Outstanding(Line(s), t))
         else
           && !Listed(s, pc.r.id) && t !in s.lost && !Outstanding(Line(s), t)
           && if Awaiting(pc) || pc.ReleaseWait? || ((pc.Leave? || pc.Return?) && pc.sent) then Answered(s, t)
              else !s.controlled[t]
  }

  ghost predicate DaemonOk(s: State) {
    match s.daemon
    case Ready => true
    case Got(_) => true
    case ReleaseSignal => true
    case Find(m, a) => m.serial in s.answers && s.answers[m.serial] == a
    case Write(m, a, to) =>
      && m.serial in s.answers && s.answers[m.serial] == a
      && m.owner < |s.threads| && !s.threads[m.owner].Idle?
      && to == if s.threads[m.owner].r.inserted then Some(m.owner) else None
    case Unlist(m, a) => m.id in s.listed
    case d => OwnerHas(s, d.m, d.answer)
  }

  ghost predicate OwnerHas(s: State, m: Message, a: bool) {
    && m.serial in s.answers && s.answers[m.serial] == a
    && m.owner < |s.threads| == |s.controlled| && !s.threads[m.owner].Idle?
    && (s.threads[m.owner].r.inserted ==> s.controlled[m.owner] == a)
  }

  ghost predicate Safe(s: State) {
    && |s.threads| == |s.controlled|
    && LockKept(s) && IdsKept(s) && PendingKept(s) && ListedKept(s) && LineKept(s) && AssertedKept(s) && DaemonOk(s)
    && (forall t | t in s.lost :: t < |s.threads|)
    && forall t | 0 <= t < |s.threads| :: ThreadOk(s, t)
  }

  // ----- steps of the kernel threads -----

  predicate Locked(pc: Pc) {
    pc.CheckList? || pc.ReleaseWait?
  }

  lemma LockMoves(s: State, t: Tid, c: Choice)
    requires t < |s.threads|
    ensures var m := MoveOf(s, t, c);
            && (m.effect.Lock? ==> !Locked(s.threads[t]) && Locked(m.next))
            && (m.effect.Unlock? ==> Locked(s.threads[t]) && !Locked(m.next))
            && (!m.effect.Lock? && !m.effect.Unlock? ==> Locked(s.threads[t]) == Locked(m.next))
            && (CanMove(s, t, c) && m.effect.Lock? ==> s.holder.Nobody?)
  {
  }

  lemma LockStep(s: State, t: Tid, c: Choice)
    requires t < |s.threads| == |s.controlled| && CanMove(s, t, c) && LockKept(s)
    ensures LockKept(Moved(s, t, MoveOf(s, t, c)))
  {
    hide MoveOf, CanMove;
    LockMoves(s, t, c);
  }

  /** A call keeps its address and serial until it returns, and a new call has new ones. */
  lemma CallMoves(s: State, t: Tid, c: Choice)
    requires t < |s.threads|
    ensures var m, pc := MoveOf(s, t, c), s.threads[t];
            && (m.effect.Begin? <==> pc.Idle? && !m.next.Idle?)
            && (!pc.Idle? && !m.next.Idle? ==> m.next.r.id == pc.r.id && m.next.r.serial == pc.r.serial)
            && (m.effect.Begin? ==> m.next.r.serial == s.next && m.next.r.id == c.id && !c.audit && !m.next.r.inserted)
            && (m.effect.Begin? && CanMove(s, t, c) ==>
                  forall u: Tid | u < |s.threads| && !s.threads[u].Idle? :: s.threads[u].r.id != c.id)
  {
  }

  lemma IdsStep(s: State, t: Tid, c: Choice)
    requires t < |s.threads| == |s.controlled| && CanMove(s, t, c) && IdsKept(s)
    ensures IdsKept(Moved(s, t, MoveOf(s, t, c)))
  {
    hide MoveOf, CanMove;
    CallMoves(s, t, c);
  }

  lemma MapMoves(s: State, t: Tid, c: Choice)
    requires t < |s.threads|
    ensures var m, pc := MoveOf(s, t, c), s.threads[t];
            && (m.effect.Map? ==> !pc.Idle? && Mapped(m.next) && m.effect.id == m.next.r.id)
            && (m.effect.Unmap? ==> Mapped(pc) && !Mapped(m.next) && m.effect.id == pc.r.id)
            && (!m.effect.Map? && !m.effect.Unmap? ==> Mapped(m.next) == Mapped(pc))
  {
  }

  lemma PendingStep(s: State, t: Tid, c: Choice)
    requires t < |s.threads| == |s.controlled| && CanMove(s, t, c) && IdsKept(s) && PendingKept(s)
    ensures PendingKept(Moved(s, t, MoveOf(s, t, c)))
  {
    hide MoveOf, CanMove, Mapped;
    CallMoves(s, t, c);
    MapMoves(s, t, c);
    MappedIsLive();
  }

  lemma MappedIsLive()
    ensures forall pc: Pc :: Mapped(pc) ==> !pc.Idle?
  {
  }

  // ----- the waiting list -----

  /** What the waiting list needs to know of a move. */
  lemma ListMoves(s: State, t: Tid, c: Choice)
    requires t < |s.threads| == |s.controlled| && CanMove(s, t, c) && Clear(s, t, c) && ThreadOk(s, t) && LockKept(s)
    ensures var m, pc := MoveOf(s, t, c), s.threads[t];
            && (m.effect.List? ==> pc.EnterList? && m.next.Send? && m.effect.id == m.next.r.id && m.effect.id !in s.listed)
            && (m.effect.AssertWait? ==> pc.CheckList? && Waiting(m.next) && Listed(s, m.next.r.id))
            && (Waiting(m.next) ==> Waiting(pc) || m.effect.AssertWait?)
            && (Waiting(pc) && !Waiting(m.next) ==> pc.Block? && t !in s.asserted)
            && ((pc.Send? || Awaiting(pc)) ==> m.next.Send? || Awaiting(m.next) || Waiting(pc) || !Listed(s, pc.r.id))
            && (!pc.Idle? && !Waiting(pc) && Listed(s, pc.r.id) && s.listed[pc.r.id] == t ==> m.next.Send? || Awaiting(m.next))
  {
  }

  lemma ListedStep(s: State, t: Tid, c: Choice)
    requires t < |s.threads| == |s.controlled| && CanMove(s, t, c) && Clear(s, t, c) && ThreadOk(s, t) && LockKept(s)
    requires ListedKept(s) && AssertedKept(s)
    ensures ListedKept(Moved(s, t, MoveOf(s, t, c)))
  {
    hide MoveOf, CanMove, ThreadOk, LockKept;
    ListMoves(s, t, c);
    CallMoves(s, t, c);
  }

  lemma AssertedStep(s: State, t: Tid, c: Choice)
    requires t < |s.threads| == |s.controlled| && CanMove(s, t, c) && Clear(s, t, c) && ThreadOk(s, t) && LockKept(s)
    requires ListedKept(s) && AssertedKept(s) && IdsKept(s)
    ensures AssertedKept(Moved(s, t, MoveOf(s, t, c)))
  {
    hide MoveOf, CanMove, ThreadOk, LockKept;
    ListMoves(s, t, c);
    CallMoves(s, t, c);
  }

  // ----- messages -----

  lemma QueueMoves(s: State, t: Tid, c: Choice)
    requires t < |s.threads|
    ensures var m, pc := MoveOf(s, t, c), s.threads[t];
            && (m.effect.Enqueue? && m.effect.item.PreOperation? ==>
                  pc.Send? && m.next.Sent? && m.effect.item.m == Message(pc.r.id, pc.r.serial, t))
            && (m.effect.Lose? ==> pc.Send? && m.next.Sent?)
            && (Awaiting(pc) && !Awaiting(m.next) ==> pc.Block? || pc.CheckList? || pc.ReleaseWait?)
  {
  }

  /** An awaiting caller leaves only when it is out of the waiting list. */
  lemma AwaitMoves(s: State, t: Tid, c: Choice)
    requires t < |s.threads| == |s.controlled| && CanMove(s, t, c) && Clear(s, t, c)
    requires ThreadOk(s, t) && AssertedKept(s)
    ensures Awaiting(s.threads[t]) && Listed(s, s.threads[t].r.id) ==> Awaiting(MoveOf(s, t, c).next)
  {
  }

  lemma ItemStep(s: State, t: Tid, c: Choice, k: Message)
    requires t < |s.threads| == |s.controlled| && CanMove(s, t, c) && Clear(s, t, c)
    requires ThreadOk(s, t) && AssertedKept(s) && ItemOk(s, k)
    ensures ItemOk(Moved(s, t, MoveOf(s, t, c)), k)
  {
    hide MoveOf, CanMove, ThreadOk, AssertedKept, Clear;
    AwaitMoves(s, t, c);
    CallMoves(s, t, c);
    QueueMoves(s, t, c);
    OnlyUnlisted(s, t, c);
  }

  lemma OnlyUnlisted(s: State, t: Tid, c: Choice)
    requires t < |s.threads| && Clear(s, t, c)
    ensures var m := MoveOf(s, t, c); m.effect.List? ==> m.effect.id !in s.listed
  {
  }

  lemma LineStep(s: State, t: Tid, c: Choice)
    requires t < |s.threads| == |s.controlled| && CanMove(s, t, c) && Clear(s, t, c)
    requires ThreadOk(s, t) && AssertedKept(s) && LineKept(s)
    ensures LineKept(Moved(s, t, MoveOf(s, t, c)))
  {
    hide MoveOf, CanMove, ItemOk, AssertedKept, Clear, InHand;
    var s', m := Moved(s, t, MoveOf(s, t, c)), MoveOf(s, t, c);
    QueueMoves(s, t, c);
    assert Line(s') == if m.effect.Enqueue? then Line(s) + [m.effect.item] else Line(s);
    forall k | 0 <= k < |Line(s')| && Line(s')[k].PreOperation? ensures ItemOk(s', Line(s')[k].m) {
      if k < |Line(s)| {
        ItemStep(s, t, c, Line(s)[k].m);
      } else {
        SentIsOk(s, t, c);
      }
    }
    if m.effect.Enqueue? && m.effect.item.PreOperation? {
      forall j | 0 <= j < |Line(s)| && Line(s)[j].PreOperation? ensures Line(s)[j].m.owner != t {
        assert IsFor(Line(s)[j], t) ==> Outstanding(Line(s), t);
      }
    }
  }

  lemma SentIsOk(s: State, t: Tid, c: Choice)
    requires t < |s.threads| == |s.controlled| && ThreadOk(s, t)
    ensures var m := MoveOf(s, t, c);
            m.effect.Enqueue? && m.effect.item.PreOperation? ==> ItemOk(Moved(s, t, m), m.effect.item.m)
  {
  }

  // ----- what each thread and the daemon know -----

  lemma OutstandingMoves(s: State, t: Tid, c: Choice, u: Tid)
    requires t < |s.threads| == |s.controlled|
    ensures var m := MoveOf(s, t, c);
            Outstanding(Line(Moved(s, t, m)), u)
            <==> Outstanding(Line(s), u) || (m.effect.Enqueue? && IsFor(m.effect.item, u))
  {
    hide MoveOf, InHand, IsFor;
    var m := MoveOf(s, t, c);
    var line, line' := Line(s), Line(Moved(s, t, m));
    assert line' == if m.effect.Enqueue? then line + [m.effect.item] else line;
    if Outstanding(line, u) {
      var k :| 0 <= k < |line| && IsFor(line[k], u);
      assert line'[k] == line[k];
    }
    if m.effect.Enqueue? && IsFor(m.effect.item, u) {
      assert IsFor(line'[|line|], u);
    }
  }

  lemma OtherThread(s: State, t: Tid, c: Choice, u: Tid)
    requires t < |s.threads| == |s.controlled| && CanMove(s, t, c) && Clear(s, t, c) && IdsKept(s)
    requires u < |s.threads| && u != t && ThreadOk(s, u)
    ensures ThreadOk(Moved(s, t, MoveOf(s, t, c)), u)
  {
    hide MoveOf, CanMove, Outstanding, Line;
    OutstandingMoves(s, t, c, u);
    QueueMoves(s, t, c);
    ListsOwn(s, t, c);
  }

  lemma ListsOwn(s: State, t: Tid, c: Choice)
    requires t < |s.threads|
    ensures var m := MoveOf(s, t, c); m.effect.List? ==> !s.threads[t].Idle? && m.effect.id == s.threads[t].r.id
  {
  }

  lemma EarlyThread(s: State, t: Tid, c: Choice)
    requires t < |s.threads| == |s.controlled| && CanMove(s, t, c) && Clear(s, t, c) && ThreadOk(s, t) && DaemonOk(s)
    requires s.threads[t].Idle? || s.threads[t].AddToMap? || s.threads[t].EnterList? || s.threads[t].Send?
    requires ListedKept(s)
    ensures ThreadOk(Moved(s, t, MoveOf(s, t, c)), t)
  {
    hide Outstanding, Line;
    OutstandingMoves(s, t, c, t);
    if s.threads[t].Idle? && !c.audit {
      NewIsUnlisted(s, t, c);
    }
  }

  lemma SameThread(s: State, t: Tid, c: Choice)
    requires t < |s.threads| == |s.controlled| && CanMove(s, t, c) && Clear(s, t, c) && Safe(s)
    ensures ThreadOk(Moved(s, t, MoveOf(s, t, c)), t)
  {
    hide IdsKept, PendingKept, LineKept, ListedKept, Outstanding, Line;
    assert ThreadOk(s, t);
    if s.threads[t].Idle? || s.threads[t].AddToMap? || s.threads[t].EnterList? || s.threads[t].Send? {
      EarlyThread(s, t, c);
    } else {
      OutstandingMoves(s, t, c, t);
    }
  }

  /** A new call's address is not in the waiting list, unless it is about to be taken out of it. */
  lemma NewIsUnlisted(s: State, t: Tid, c: Choice)
    requires t < |s.threads| && CanMove(s, t, c) && s.threads[t].Idle? && !c.audit && ListedKept(s)
    ensures !Listed(s, c.id)
  {
  }

  lemma DaemonStays(s: State, t: Tid, c: Choice)
    requires t < |s.threads| == |s.controlled| && CanMove(s, t, c) && Clear(s, t, c) && Safe(s)
    ensures DaemonOk(Moved(s, t, MoveOf(s, t, c)))
  {
    hide IdsKept, PendingKept, ThreadOk, LockKept, AssertedKept, ListedKept, CanMove, Clear, MoveOf;
    if InHand(s.daemon).PreOperation? {
      assert Line(s)[0] == InHand(s.daemon);
      assert ItemOk(s, s.daemon.m);
      ItemStep(s, t, c, s.daemon.m);
      SameRecord(s, t, c);
    }
  }

  /** A caller that has sent its message keeps its record until it leaves. */
  lemma SameRecord(s: State, t: Tid, c: Choice)
    requires t < |s.threads|
    ensures var m := MoveOf(s, t, c);
            Awaiting(s.threads[t]) && Awaiting(m.next) ==>
              m.next.r == s.threads[t].r && !m.effect.Begin? && !m.effect.Refuse?
  {
  }

  lemma SafeMove(s: State, t: Tid, c: Choice)
    requires t < |s.threads| == |s.controlled| && Safe(s) && CanMove(s, t, c) && Clear(s, t, c)
    ensures Safe(Moved(s, t, MoveOf(s, t, c)))
  {
    hide *;
    var s' := Moved(s, t, MoveOf(s, t, c));
    SafeParts(s);
    LockStep(s, t, c);
    IdsStep(s, t, c);
    PendingStep(s, t, c);
    ListedStep(s, t, c);
    AssertedStep(s, t, c);
    LineStep(s, t, c);
    DaemonStays(s, t, c);
    SizesStay(s, t, c);
    forall u: Tid | u < |s'.threads| ensures ThreadOk(s', u) {
      if u == t {
        SameThread(s, t, c);
      } else {
        OtherThread(s, t, c, u);
      }
    }
    SafeWhole(s');
  }

  lemma SizesStay(s: State, t: Tid, c: Choice)
    requires t < |s.threads| == |s.controlled| && forall u: Tid | u in s.lost :: u < |s.threads|
    ensures var s' := Moved(s, t, MoveOf(s, t, c));
            |s'.threads| == |s'.controlled| == |s.threads| && forall u: Tid | u in s'.lost :: u < |s'.threads|
  {
    hide MoveOf;
  }

  lemma SafeParts(s: State)
    requires Safe(s)
    ensures |s.threads| == |s.controlled|
    ensures LockKept(s) && IdsKept(s) && PendingKept(s) && ListedKept(s) && LineKept(s) && AssertedKept(s) && DaemonOk(s)
    ensures (forall t: Tid | t in s.lost :: t < |s.threads|) && forall t: Tid | t < |s.threads| :: ThreadOk(s, t)
  {
    hide LockKept, IdsKept, PendingKept, ListedKept, LineKept, AssertedKept, DaemonOk, ThreadOk;
  }

  lemma SafeWhole(s: State)
    requires |s.threads| == |s.controlled|
    requires LockKept(s) && IdsKept(s) && PendingKept(s) && ListedKept(s) && LineKept(s) && AssertedKept(s) && DaemonOk(s)
    requires (forall t: Tid | t in s.lost :: t < |s.threads|) && forall t: Tid | t < |s.threads| :: ThreadOk(s, t)
    ensures Safe(s)
  {
    hide LockKept, IdsKept, PendingKept, ListedKept, LineKept, AssertedKept, DaemonOk, ThreadOk;
  }

  // ----- steps of the daemon -----

  /** Dequeuing takes the first item into hand; waking the owner finishes it. */
  lemma DaemonLine(s: State, c: Choice)
    requires |s.threads| == |s.controlled| && DaemonCanMove(s) && LineKept(s)
    ensures Line(DaemonMove(s, c)) == if s.daemon.Ready? then Line(s)[1..]
                                      else if s.daemon.Wake? then Line(s)[0 := Audit] else Line(s)
  {
    hide Waiters;
    var s' := DaemonMove(s, c);
    if s.daemon.Ready? {
      assert Line(s)[1..] == s.queue == [s.queue[0]] + s.queue[1..];
      assert Line(s') == [InHand(s'.daemon)] + s.queue[1..];
    } else if InHand(s.daemon).PreOperation? {
      assert Line(s)[0] == InHand(s.daemon);
      assert ItemOk(s, s.daemon.m);
    }
  }

  lemma DaemonLock(s: State, c: Choice)
    requires |s.threads| == |s.controlled| && DaemonCanMove(s) && LockKept(s)
    ensures LockKept(DaemonMove(s, c))
  {
    hide Waiters;
  }

  /** What a step of the daemon leaves alone. */
  lemma DaemonLeaves(s: State, c: Choice)
    requires |s.threads| == |s.controlled| && DaemonCanMove(s)
    ensures var s' := DaemonMove(s, c);
            && s'.threads == s.threads && s'.pending == s.pending && s'.next == s.next && s'.lost == s.lost
            && |s'.controlled| == |s.controlled|
            && s'.listed == (if s.daemon.Unlist? then s.listed - {s.daemon.m.id} else s.listed)
            && s'.asserted == (if s.daemon.Wake? then s.asserted - Waiters(s, s.daemon.m.id) else s.asserted)
            && (s'.daemon.Unlist? <==> s.daemon.Wake?) && (s.daemon.Wake? ==> s'.daemon.m == s.daemon.m)
  {
    hide Waiters;
  }

  /** The waiting list loses the message's address when its owner is woken. */
  lemma DaemonLists(s: State, c: Choice, id: Id)
    requires |s.threads| == |s.controlled| && DaemonCanMove(s)
    ensures var s' := DaemonMove(s, c);
            && (Listed(s', id) <==> Listed(s, id) && !(s.daemon.Wake? && s.daemon.m.id == id))
            && (Listed(s', id) ==> id in s.listed && id in s'.listed && s'.listed[id] == s.listed[id])
  {
    hide Waiters, DaemonMove;
    DaemonLeaves(s, c);
  }

  lemma DaemonListed(s: State, c: Choice)
    requires |s.threads| == |s.controlled| && DaemonCanMove(s) && ListedKept(s) && AssertedKept(s) && IdsKept(s)
    ensures ListedKept(DaemonMove(s, c)) && AssertedKept(DaemonMove(s, c))
  {
    hide DaemonMove, Listed;
    DaemonLeaves(s, c);
    forall id
      ensures Listed(DaemonMove(s, c), id) <==> Listed(s, id) && !(s.daemon.Wake? && s.daemon.m.id == id)
      ensures Listed(DaemonMove(s, c), id) ==>
                id in s.listed && id in DaemonMove(s, c).listed && DaemonMove(s, c).listed[id] == s.listed[id]
    {
      DaemonLists(s, c, id);
    }
  }

  lemma DaemonLineKept(s: State, c: Choice)
    requires |s.threads| == |s.controlled| && DaemonCanMove(s) && LineKept(s)
    ensures LineKept(DaemonMove(s, c))
  {
    hide DaemonMove, Line, ItemOk;
    var s' := DaemonMove(s, c);
    DaemonLine(s, c);
    FrontItem(s);
    OneItemEach(s);
    forall k | 0 <= k < |Line(s')| && Line(s')[k].PreOperation? ensures ItemOk(s', Line(s')[k].m) {
      var j := if s.daemon.Ready? then k + 1 else k;
      assert Line(s')[k] == Line(s)[j];
      DaemonItem(s, c, Line(s)[j].m);
    }
  }

  /** No two messages on their way have the same address. */
  lemma OneItemEach(s: State)
    requires LineKept(s)
    ensures forall j, k | 0 <= j < k < |Line(s)| && Line(s)[j].PreOperation? && Line(s)[k].PreOperation? ::
              Line(s)[j].m.id != Line(s)[k].m.id
  {
    hide Line;
  }

  lemma FrontItem(s: State)
    ensures |Line(s)| > 0 && Line(s)[0] == InHand(s.daemon)
  {
  }

  /** A message other than the one whose owner is woken stays as it is. */
  lemma DaemonItem(s: State, c: Choice, m: Message)
    requires |s.threads| == |s.controlled| && DaemonCanMove(s) && ItemOk(s, m)
    ensures !(s.daemon.Wake? && s.daemon.m.id == m.id) ==> ItemOk(DaemonMove(s, c), m)
  {
    hide DaemonMove, Listed;
    DaemonLeaves(s, c);
    DaemonLists(s, c, m.id);
  }

  lemma DaemonOutstanding(s: State, c: Choice, u: Tid)
    requires |s.threads| == |s.controlled| && DaemonCanMove(s) && LineKept(s)
    ensures Outstanding(Line(DaemonMove(s, c)), u) <==> Outstanding(Line(s), u) && !(s.daemon.Wake? && s.daemon.m.owner == u)
  {
    hide DaemonMove, Line, ItemOk;
    var line, line' := Line(s), Line(DaemonMove(s, c));
    DaemonLine(s, c);
    FrontItem(s);
    if Outstanding(line, u) && !(s.daemon.Wake? && s.daemon.m.owner == u) {
      var k :| 0 <= k < |line| && IsFor(line[k], u);
      var j := if s.daemon.Ready? then k - 1 else k;
      assert IsFor(line'[j], u);
    }
    if Outstanding(line', u) {
      var k :| 0 <= k < |line'| && IsFor(line'[k], u);
      var j := if s.daemon.Ready? then k + 1 else k;
      assert IsFor(line[j], u);
    }
  }

  /** The daemon's own item, while it has one. */
  lemma HandItem(s: State)
    requires LineKept(s)
    ensures InHand(s.daemon).PreOperation? ==> ItemOk(s, s.daemon.m) && Outstanding(Line(s), s.daemon.m.owner)
  {
    hide ItemOk;
    if InHand(s.daemon).PreOperation? {
      assert Line(s)[0] == InHand(s.daemon);
      assert IsFor(Line(s)[0], s.daemon.m.owner);
    }
  }

  lemma DaemonThread(s: State, c: Choice, u: Tid)
    requires |s.threads| == |s.controlled| && DaemonCanMove(s) && LineKept(s) && DaemonOk(s) && IdsKept(s)
    requires u < |s.threads| && ThreadOk(s, u)
    ensures ThreadOk(DaemonMove(s, c), u)
  {
    hide Line, Outstanding, Listed, LineKept, Waiters, DaemonNext;
    DaemonOutstanding(s, c, u);
    HandItem(s);
    if !s.threads[u].Idle? {
      DaemonLists(s, c, s.threads[u].r.id);
    }
  }

  lemma DaemonKnows(s: State, c: Choice)
    requires |s.threads| == |s.controlled| && DaemonCanMove(s) && LineKept(s) && DaemonOk(s) && PendingKept(s) && IdsKept(s)
    ensures DaemonOk(DaemonMove(s, c))
  {
    hide Line, Outstanding, LineKept, Waiters;
    HandItem(s);
  }

  lemma DaemonPending(s: State, c: Choice)
    requires |s.threads| == |s.controlled| && DaemonCanMove(s) && PendingKept(s) && IdsKept(s)
    ensures PendingKept(DaemonMove(s, c)) && IdsKept(DaemonMove(s, c))
  {
    hide DaemonMove;
    DaemonLeaves(s, c);
  }

  lemma SafeDaemonMove(s: State, c: Choice)
    requires |s.threads| == |s.controlled| && Safe(s) && DaemonCanMove(s)
    ensures Safe(DaemonMove(s, c))
  {
    hide *;
    var s' := DaemonMove(s, c);
    SafeParts(s);
    DaemonLeaves(s, c);
    DaemonLock(s, c);
    DaemonPending(s, c);
    DaemonListed(s, c);
    DaemonLineKept(s, c);
    DaemonKnows(s, c);
    forall u: Tid | u < |s'.threads| ensures ThreadOk(s', u) {
      DaemonThread(s, c, u);
    }
    SafeWhole(s');
  }

  // ----- every run -----

  lemma InitialIsSafe(s: State)
    requires Initial(s)
    ensures Safe(s)
  {
  }

  lemma SafeNext(s: State, s': State)
    requires Safe(s) && ClearNext(s, s')
    ensures Safe(s')
  {
    hide Safe, Moved, MoveOf, DaemonMove, CanMove, DaemonCanMove;
    if t, c :| ThreadStep(s, t, c, s') && Clear(s, t, c) {
      SafeMove(s, t, c);
    } else {
      var c :| DaemonStep(s, c, s');
      SafeDaemonMove(s, c);
    }
  }

  lemma {:induction false} ClearRunsAreSafe(states: seq<State>, i: nat)
    requires ClearRun(states) && i < |states|
    ensures Safe(states[i])
  {
    hide Safe, Initial, ClearNext;
    if i == 0 {
      InitialIsSafe(states[0]);
    } else {
      ClearRunsAreSafe(states, i - 1);
      assert ClearNext(states[i - 1], states[i - 1 + 1]);
      SafeNext(states[i - 1], states[i]);
    }
  }
}
