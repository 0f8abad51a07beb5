/** What calls of hooking, unhooking and looking up come to, told over whole runs. */
module HookCalls {
  import opened Options
  import opened VopVector
  import opened HookProtocol
  import opened HookSafety
  import opened HookSlots
  import opened HookTally

  // ----- what a thread's call has met -----

  /** Whether nothing has failed since the call began, be it for want of memory or because the vnode is being recycled. */
  function UnfailedAfter(pc: Pc, c: Choice, was: bool): bool {
    if pc.Idle? then true
    else if pc.Hooking? && (pc.h.Enter? || pc.h.Allocate? || pc.h.Add?) then was && c.ok
    else was
  }

  ghost function Unfailed(states: seq<State>, steps: seq<Label>, i: nat, t: Tid): bool
    requires i < |states| == |steps| + 1
  {
    if i == 0 then true
    else if steps[i - 1].t == t then UnfailedAfter(At(states[i - 1], t), steps[i - 1].c, Unfailed(states, steps, i - 1, t))
    else Unfailed(states, steps, i - 1, t)
  }

  /** Whether the vector was not in the table when the thread's latest hook call first looked for it. */
  ghost function MissedAfter(w: World, s: State, pc: Pc, was: bool): bool {
    if pc.Hooking? && pc.h.LookUp? then w.vec(pc.h.vn) !in s.table else was
  }

  ghost function Missed(w: World, states: seq<State>, steps: seq<Label>, i: nat, t: Tid): bool
    requires i < |states| == |steps| + 1
  {
    if i == 0 then false
    else if steps[i - 1].t == t then MissedAfter(w, states[i - 1], At(states[i - 1], t), Missed(w, states, steps, i - 1, t))
    else Missed(w, states, steps, i - 1, t)
  }

  // ----- hooking -----

  /** A hook call that is going to report a failure. */
  predicate Failing(pc: Pc) {
    pc.Hooking? && ((pc.h.Unlock? && !pc.h.ok) || (pc.h.DropNew? && !pc.h.ok))
  }

  /** A hook call that has found its vector hooked at once. */
  predicate FoundHooked(h: HookPc) {
    h.CountFound? || h.UnlockFound? || h.DropFound?
  }

  /** Where a hook call is tells what it has met. */
  predicate CallKept(w: World, pc: Pc, unfailed: bool, missed: bool) {
    pc.Hooking? ==>
      && (pc.h.Enter? || w.regular(pc.h.vn))
      && (Failing(pc) <==> !unfailed)
      && (pc.h.Enter? || pc.h.Wait? || pc.h.LookUp? || (FoundHooked(pc.h) <==> !missed))
  }

  lemma CallKeptMove(w: World, s: State, pc: Pc, c: Choice, unfailed: bool, missed: bool)
    requires CallKept(w, pc, unfailed, missed)
    ensures CallKept(w, MoveOf(w, s, pc, c).next, UnfailedAfter(pc, c, unfailed), MissedAfter(w, s, pc, missed))
  {
  }

  lemma NobodyCalls(w: World, s: State, t: Tid)
    requires Initial(w, s)
    ensures At(s, t).Idle?
  {
  }

  lemma {:induction false} CallsKept(w: World, states: seq<State>, steps: seq<Label>, i: nat, t: Tid)
    requires Trace(w, states, steps) && i < |states|
    ensures CallKept(w, At(states[i], t), Unfailed(states, steps, i, t), Missed(w, states, steps, i, t))
  {
    hide Initial, Step, At, UnfailedAfter, MissedAfter, Failing, FoundHooked;
    if i == 0 {
      NobodyCalls(w, states[0], t);
    } else {
      CallsKept(w, states, steps, i - 1, t);
      MoveBetween(w, states, steps, i - 1);
      CallKeptMove(w, states[i - 1], At(states[i - 1], t), steps[i - 1].c, Unfailed(states, steps, i - 1, t),
                   Missed(w, states, steps, i - 1, t));
    }
  }

  /** A step of a run is its thread's move. */
  lemma MoveBetween(w: World, states: seq<State>, steps: seq<Label>, i: nat)
    requires Trace(w, states, steps) && i < |steps|
    ensures i + 1 < |states| == |steps| + 1
    ensures var m := MoveOf(w, states[i], At(states[i], steps[i].t), steps[i].c);
            && Enabled(states[i], m) && states[i + 1] == Moved(states[i], steps[i].t, m) && At(states[i + 1], steps[i].t) == m.next
    ensures forall u: Tid :: u != steps[i].t ==> At(states[i + 1], u) == At(states[i], u)
  {
    hide Initial, Step, MoveOf, Moved, Enabled, At;
    assert Step(w, states[i], steps[i].t, steps[i].c, states[i + 1]);
    StepIsMove(w, states[i], steps[i].t, steps[i].c, states[i + 1]);
    OthersStay(states[i], steps[i].t, MoveOf(w, states[i], At(states[i], steps[i].t), steps[i].c));
  }

  lemma LastMove(w: World, s: State, pc: Pc, t: Tid, c: Choice, unfailed: bool, missed: bool)
    requires pc.Hooking? && CallKept(w, pc, unfailed, missed) && MoveOf(w, s, pc, c).next.Idle?
    ensures var good := w.regular(pc.h.vn) && UnfailedAfter(pc, c, unfailed);
            && (HookDone(pc) <==> good)
            && Moved(s, t, MoveOf(w, s, pc, c)).recorded
               == if good && missed && c.ok then s.recorded + {pc.h.vn} else s.recorded
  {
    hide EntriesAfter, TableAfter, SlotAfter;
  }

  /** A hook call counts its vector up exactly if the vnode is regular and nothing fails, and records the vnode exactly if also
      the vector was not hooked when it first looked, and there is memory for the record. */
  lemma HookCallEnds(w: World, states: seq<State>, steps: seq<Label>, i: nat, t: Tid)
    requires Trace(w, states, steps) && i < |steps| && steps[i].t == t
    requires At(states[i], t).Hooking? && At(states[i + 1], t).Idle?
    ensures var vn := At(states[i], t).h.vn;
            var good := w.regular(vn) && Unfailed(states, steps, i + 1, t);
            && (HookDone(At(states[i], t)) <==> good)
            && states[i + 1].recorded
               == if good && Missed(w, states, steps, i, t) && steps[i].c.ok then states[i].recorded + {vn} else states[i].recorded
  {
    hide Initial, Step, At, MoveOf, Moved, Enabled, CallKept, UnfailedAfter, HookDone;
    CallsKept(w, states, steps, i, t);
    MoveBetween(w, states, steps, i);
    LastMove(w, states[i], At(states[i], t), t, steps[i].c, Unfailed(states, steps, i, t), Missed(w, states, steps, i, t));
  }

  // ----- what is recorded -----

  lemma RecordingMoves(w: World, s: State, t: Tid, pc: Pc, c: Choice, vn: Vnode)
    ensures var m := MoveOf(w, s, pc, c);
            && (vn in Moved(s, t, m).recorded && vn !in s.recorded ==> pc.Hooking? && pc.h.vn == vn && m.next.Idle?)
            && (vn !in Moved(s, t, m).recorded && vn in s.recorded ==>
                  pc.Unhooking? && pc.u.vn == vn && !UnhookDone(pc) && !m.next.Idle?)
  {
    hide EntriesAfter, TableAfter, SlotAfter;
  }

  /** A vnode is recorded only when a hook call on it ends, and taken out only by an unhook call on it that goes on to count
      down. */
  lemma RecordedByCalls(w: World, states: seq<State>, steps: seq<Label>, i: nat, vn: Vnode)
    requires Trace(w, states, steps) && i < |steps|
    ensures var pc, next := At(states[i], steps[i].t), At(states[i + 1], steps[i].t);
            && (vn in states[i + 1].recorded && vn !in states[i].recorded ==> pc.Hooking? && pc.h.vn == vn && next.Idle?)
            && (vn !in states[i + 1].recorded && vn in states[i].recorded ==>
                  pc.Unhooking? && pc.u.vn == vn && !UnhookDone(pc) && !next.Idle?)
  {
    hide Initial, Step, At, MoveOf, Moved, Enabled, UnhookDone;
    MoveBetween(w, states, steps, i);
    RecordingMoves(w, states[i], steps[i].t, At(states[i], steps[i].t), steps[i].c, vn);
  }

  // ----- looking up -----

  lemma LookUpMoves(w: World, s: State, g: GetPc)
    ensures var next := GetMove(w, s, g).next;
            && (next.Idle? <==> g.Return?)
            && (!next.Idle? ==> next.Asking? && next.g.vn == g.vn && next.g.op == g.op)
            && (next.Asking? && next.g.Missing? ==> w.vec(g.vn) !in s.table)
  {
  }

  /** A look-up keeps to its vnode and operation and ends with the file system's own function for them. It asks for the lock
      again only if the vector was not in the table. */
  lemma LookUpAnswers(w: World, states: seq<State>, steps: seq<Label>, i: nat, t: Tid)
    requires Trace(w, states, steps) && i < |steps| && steps[i].t == t && At(states[i], t).Asking?
    ensures var g, next := At(states[i], t).g, At(states[i + 1], t);
            && (next.Idle? ==> g.Return? && g.f == Some(Native(w.native(w.vec(g.vn), g.op))))
            && (!next.Idle? ==> next.Asking? && next.g.vn == g.vn && next.g.op == g.op)
            && (next.Asking? && next.g.Missing? ==> w.vec(g.vn) !in states[i].table)
  {
    hide Initial, Step, At, Moved, Enabled, GetMove;
    MoveBetween(w, states, steps, i);
    LookUpMoves(w, states[i], At(states[i], t).g);
    if At(states[i], t).g.Return? {
      TraceIsRun(w, states, steps);
      OriginalIsNative(w, states, i, t);
    }
  }

  // ----- the lock -----

  lemma CountsToZero(w: World, s: State, t: Tid, c: Choice, s': State)
    requires Safe(w, s) && Step(w, s, t, c, s') && At(s, t).Unhooking? && !UnhookDone(At(s, t))
    requires At(s', t).Unhooking? && At(s', t).u.AwaitExclusive?
    ensures CounterOf(s', At(s', t).u.e) == 0
  {
    hide *;
    StepIsMove(w, s, t, c, s');
    SafeParts(w, s, t);
    OthersStay(s, t, MoveOf(w, s, At(s, t), c));
    CountsLast(w, s, At(s, t), c);
    CounterMoves(s, t, MoveOf(w, s, At(s, t), c), At(s', t).u.e);
  }

  lemma CountsLast(w: World, s: State, pc: Pc, c: Choice)
    requires PcOk(w, s, pc) && pc.Unhooking? && !UnhookDone(pc)
    requires MoveOf(w, s, pc, c).next.Unhooking? && MoveOf(w, s, pc, c).next.u.AwaitExclusive?
    ensures var e := MoveOf(w, s, pc, c).next.u.e;
            e in s.entries && CounterOf(s, e) == 1 && MoveOf(w, s, pc, c).effect == Count(e, -1)
  {
    hide Complete;
  }

  /** The lock is asked for exclusively only by a hook call that has found its vector missing, and by an unhook call that has
      counted it down to zero. */
  lemma LocksExclusively(w: World, states: seq<State>, steps: seq<Label>, i: nat, t: Tid)
    requires Trace(w, states, steps) && i < |steps| && steps[i].t == t
    ensures At(states[i + 1], t).Hooking? && At(states[i + 1], t).h.WaitExclusive? ==> Missed(w, states, steps, i + 1, t)
    ensures At(states[i], t).Unhooking? && !UnhookDone(At(states[i], t))
            && At(states[i + 1], t).Unhooking? && At(states[i + 1], t).u.AwaitExclusive? ==>
              CounterOf(states[i + 1], At(states[i + 1], t).u.e) == 0
  {
    hide Initial, Step, At, CounterOf, UnhookDone, Safe, MissedAfter, UnfailedAfter;
    CallsKept(w, states, steps, i + 1, t);
    TraceStep(w, states, steps, i);
    if At(states[i], t).Unhooking? && !UnhookDone(At(states[i], t)) && At(states[i + 1], t).Unhooking?
       && At(states[i + 1], t).u.AwaitExclusive? {
      CountsToZero(w, states[i], t, steps[i].c, states[i + 1]);
    }
  }

  /** The lock a thread is about to take. */
  ghost function Wants(w: World, s: State, t: Tid, c: Choice): Mode {
    if ModeOf(At(s, t)) == Free then ModeOf(MoveOf(w, s, At(s, t), c).next) else Free
  }

  ghost predicate NobodyIs(s: State, mode: Mode) {
    forall u: Tid :: ModeOf(At(s, u)) != mode
  }

  lemma WhoIsInside(s: State)
    requires LockKept(s)
    ensures s.writer == None <==> NobodyIs(s, Owning)
    ensures s.readers == {} <==> NobodyIs(s, Sharing)
    ensures s.writer.Some? ==> ModeOf(At(s, s.writer.value)) == Owning
  {
    hide At, ModeOf;
    assert s.writer.Some? ==> s.writer == Some(s.writer.value);
    if NobodyIs(s, Sharing) {
      assert forall t | t in s.readers :: ModeOf(At(s, t)) == Sharing;
      assert s.readers == {};
    }
  }

  lemma NewOutside(w: World, s: State, pc: Pc, c: Choice)
    ensures MoveOf(w, s, pc, c).effect.New? ==>
              ModeOf(pc) == Free && ModeOf(MoveOf(w, s, pc, c).next) == Free && MoveOf(w, s, pc, c).effect.e == c.unused
  {
  }

  /** A thread is held up only by the lock: it waits for sharing exactly while another owns it, and for owning exactly while
      others share or own it. */
  lemma HeldUpByLock(w: World, states: seq<State>, i: nat, t: Tid, c: Choice)
    requires Run(w, states) && i < |states| && c.unused !in states[i].entries
    ensures var s := states[i];
            Enabled(s, MoveOf(w, s, At(s, t), c))
            <==> (Wants(w, s, t, c) != Free ==> NobodyIs(s, Owning)) && (Wants(w, s, t, c) == Owning ==> NobodyIs(s, Sharing))
  {
    hide Run, At, MoveOf, ModeOf, NobodyIs, Safe, LockKept;
    var s := states[i];
    RunsAreSafe(w, states, i);
    SafeParts(w, s, t);
    WhoIsInside(s);
    MovesLock(w, s, At(s, t), c);
    NewOutside(w, s, At(s, t), c);
  }

  lemma {:induction false} Unused(es: set<Eid>) returns (e: Eid)
    ensures forall x | x in es :: x < e
  {
    if es == {} {
      e := 0;
    } else {
      var x :| x in es;
      var f := Unused(es - {x});
      e := if f > x then f else x + 1;
      assert forall y | y in es :: y == x || y in es - {x};
    }
  }

  /** Nobody is held up for ever: while a call is under way, a thread in a call can move. */
  lemma NotStuck(w: World, states: seq<State>, i: nat, t: Tid) returns (u: Tid, c: Choice)
    requires Run(w, states) && i < |states| && !At(states[i], t).Idle?
    ensures !At(states[i], u).Idle? && Step(w, states[i], u, c, Moved(states[i], u, MoveOf(w, states[i], At(states[i], u), c)))
  {
    hide Run, At, MoveOf, Moved, Safe, Enabled, LockKept;
    var s := states[i];
    var e := Unused(s.entries.Keys);
    c := Choice(HookIt(0), true, e);
    u := t;
    RunsAreSafe(w, states, i);
    SafeParts(w, s, t);
    if !NobodyIs(s, Owning) {
      u :| ModeOf(At(s, u)) == Owning;
    } else if !NobodyIs(s, Sharing) {
      u :| ModeOf(At(s, u)) == Sharing;
    }
    HeldUpByLock(w, states, i, u, c);
    StepsIfEnabled(w, s, u, c);
  }

  lemma StepsIfEnabled(w: World, s: State, u: Tid, c: Choice)
    requires !At(s, u).Idle? && Enabled(s, MoveOf(w, s, At(s, u), c))
    ensures Step(w, s, u, c, Moved(s, u, MoveOf(w, s, At(s, u), c)))
  {
    hide At, MoveOf, Moved, Enabled;
  }

  // ----- how calls begin -----

  /** An idle thread's step begins the call that is chosen. */
  lemma CallsBegin(w: World, states: seq<State>, steps: seq<Label>, i: nat)
    requires Trace(w, states, steps) && i < |steps| && At(states[i], steps[i].t).Idle?
    ensures states[i + 1] == states[i].(threads := states[i + 1].threads)
    ensures At(states[i + 1], steps[i].t)
         == match steps[i].c.call
            case Original(vn, op) => Asking(Ask(vn, op))
            case HookIt(vn) => Hooking(Enter(vn))
            case UnhookIt(vn) => Unhooking(Begin(vn))
  {
    hide Initial, Step, At, Enabled;
    MoveBetween(w, states, steps, i);
    KeepsEntries(states[i]);
  }

  lemma KeepsEntries(s: State)
    ensures EntriesAfter(s.entries, Nothing) == s.entries
  {
  }

  // ----- unhooking, and how long calls take -----

  /** An unhook call ends without counting down only for a vnode that is not a regular file or not recorded, or when the vector
      is not in the table where it looks for it. */
  lemma UnhookCallsCount(w: World, s: State, t: Tid, c: Choice, s': State)
    requires Step(w, s, t, c, s') && At(s, t).Unhooking? && !UnhookDone(At(s, t))
    ensures var u, next := At(s, t).u, At(s', t);
            && (next.Idle? ==> u.NotFound? || (u.Begin? && !(w.regular(u.vn) && u.vn in s.recorded)))
            && (next == Unhooking(NotFound(u.vn)) ==> u.Search? && w.vec(u.vn) !in s.table)
  {
    hide At, Moved;
    StepIsMove(w, s, t, c, s');
    OthersStay(s, t, MoveOf(w, s, At(s, t), c));
  }

  /** A call of hooking or unhooking keeps to its vnode until it ends. */
  lemma CallsKeepVnode(w: World, s: State, pc: Pc, c: Choice)
    requires pc.Hooking? || pc.Unhooking?
    ensures var next := MoveOf(w, s, pc, c).next;
            next.Idle? || (pc.Hooking? && next.Hooking? && next.h.vn == pc.h.vn)
            || (pc.Unhooking? && next.Unhooking? && next.u.vn == pc.u.vn)
  {
  }

  /** The most steps a thread has before its call ends, waiting for the lock aside. */
  function StepsLeft(pc: Pc): nat {
    match pc
    case Idle => 0
    case Asking(g) => AskingLeft(g)
    case Hooking(h) => HookingLeft(h)
    case Unhooking(u) => UnhookingLeft(u)
  }

  function AskingLeft(g: GetPc): nat {
    match g
    case Ask(_, _) => 10 case Look(_, _) => 9 case Missing(_, _) => 8 case AskAgain(_, _) => 7 case LookAgain(_, _) => 6
    case ReadSlot(_, _) => 4 case SlotRead(_, _, _) => 3 case Found(_, _, _) => 4 case ReadEntry(_, _, _) => 3
    case Drop(_, _, _, _) => 2 case Return(_, _, _) => 1
  }

  function HookingLeft(h: HookPc): nat {
    match h
    case Enter(_) => 50 case Wait(_) => 49 case LookUp(_) => 48
    case CountFound(_, _) => 3 case UnlockFound(_, _) => 2 case DropFound(_, _) => 1
    case UnlockMissing(_) => 47 case Allocate(_) => 46 case WaitExclusive(_, _) => 45 case CheckAgain(_, _) => 44
    case CountOld(_, _, _) => 4 case Add(_, _) => 43 case CountNew(_, _) => 42
    case Save(_, _, i) => if i < 13 then 41 - 2 * i else 4
    case Patch(_, _, i) => if i < 13 then 40 - 2 * i else 4
    case Unlock(_, _, _) => 3 case DropNew(_, _, _) => 2 case Record(_) => 1
  }

  function UnhookingLeft(u: UnhookPc): nat {
    match u
    case Begin(_) => 30 case Await(_) => 29 case Search(_) => 28 case NotFound(_) => 1 case UnlockSearch(_, _) => 27
    case Forget(_, _) => 26 case CountDown(_, _) => 25 case AwaitExclusive(_, _) => 24 case Recheck(_, _) => 23
    case Release(_, _) => 22 case Remove(_) => 21 case Restore(_, _, i) => if i < 13 then 20 - i else 3
    case Finish(_, _) => 2 case DropLast(_, _) => 1
  }

  /** No call takes more than fifty steps of its own. */
  lemma CallsEnd(w: World, s: State, pc: Pc, c: Choice)
    requires !pc.Idle?
    ensures StepsLeft(MoveOf(w, s, pc, c).next) < StepsLeft(pc) <= 50
  {
    hide AskingLeft, HookingLeft, UnhookingLeft, GetMove, HookMove, UnhookMove;
    match pc
    case Asking(g) => AskingEnds(w, s, g);
    case Hooking(h) => HookingEnds(w, s, h, c);
    case Unhooking(u) => UnhookingEnds(w, s, u);
  }

  lemma AskingEnds(w: World, s: State, g: GetPc)
    ensures StepsLeft(GetMove(w, s, g).next) < AskingLeft(g) <= 50
  {
  }

  lemma HookingEnds(w: World, s: State, h: HookPc, c: Choice)
    ensures StepsLeft(HookMove(w, s, h, c).next) < HookingLeft(h) <= 50
  {
  }

  lemma UnhookingEnds(w: World, s: State, u: UnhookPc)
    ensures StepsLeft(UnhookMove(w, s, u).next) < UnhookingLeft(u) <= 50
  {
  }
}
