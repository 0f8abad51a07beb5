/** The vnode counter of a hooked vector: exactly which steps leave it too small, and what holds until one does. As long
    as unhooking does not overlap with itself none does, so a vector is unhooked only when none of its vnodes is recorded. */
module HookCounting {
  import opened Options
  import opened VopVector
  import opened HookProtocol
  import opened HookSafety
  import opened HookSlots

  /** A vector whose counter a thread has raised, or not yet lowered, for a vnode that is not recorded. */
  function PendingOn(w: World, pc: Pc): Option<Vec> {
    match pc
    case Hooking(Save(vn, _, _)) => Some(w.vec(vn))
    case Hooking(Patch(vn, _, _)) => Some(w.vec(vn))
    case Hooking(Unlock(vn, _, ok)) => if ok then Some(w.vec(vn)) else None
    case Hooking(DropNew(vn, _, ok)) => if ok then Some(w.vec(vn)) else None
    case Hooking(Record(vn)) => Some(w.vec(vn))
    case Unhooking(CountDown(vn, _)) => Some(w.vec(vn))
    case _ => None
  }

  ghost function RecordedOn(w: World, s: State, v: Vec): set<Vnode> {
    set vn | vn in s.recorded && w.vec(vn) == v
  }

  ghost function PendingFor(w: World, s: State, v: Vec): set<Tid> {
    set t | t in s.threads && PendingOn(w, s.threads[t]) == Some(v)
  }

  ghost function Claims(w: World, s: State, v: Vec): nat {
    |RecordedOn(w, s, v)| + |PendingFor(w, s, v)|
  }

  /** A hooked vector's counter covers its claims; a vector that is not hooked has none. */
  ghost predicate CountsKept(w: World, s: State) {
    && (forall v :: v in s.table ==> CounterOf(s, s.table[v]) >= Claims(w, s, v))
    && (forall v :: v !in s.table ==> Claims(w, s, v) == 0)
    && (forall e :: e in s.entries && !InTable(s, e) ==> s.entries[e].counter == 0)
  }

  // ----- which steps keep the counters right -----

  /** The counter of a hooked vector exceeds its claims. */
  ghost predicate Spare(w: World, s: State, v: Vec) {
    v in s.table && CounterOf(s, s.table[v]) > Claims(w, s, v)
  }

  /** What a thread should find where it forgets a vnode, counts down, or takes out a vector. The code checks none of it. */
  ghost predicate Fits(w: World, s: State, pc: Pc) {
    match pc
    case Unhooking(Forget(vn, _)) => vn in s.recorded || Spare(w, s, w.vec(vn))
    case Unhooking(CountDown(_, e)) => InTable(s, e)
    case Unhooking(Remove(vn)) => w.vec(vn) in s.table ==> CounterOf(s, s.table[w.vec(vn)]) == 0
    case _ => true
  }

  /** Every thread that can have made this step found what it should. */
  ghost predicate StepFits(w: World, s: State, s': State) {
    forall t: Tid, c | Step(w, s, t, c, s') :: Fits(w, s, At(s, t))
  }

  // ----- when unhooking does not overlap -----

  /** A vector a thread is about to unhook, having brought its counter to zero. */
  function Zeroed(w: World, pc: Pc): Option<Vec> {
    match pc
    case Unhooking(AwaitExclusive(vn, _)) => Some(w.vec(vn))
    case Unhooking(Recheck(vn, _)) => Some(w.vec(vn))
    case Unhooking(Release(vn, _)) => Some(w.vec(vn))
    case Unhooking(Remove(vn)) => Some(w.vec(vn))
    case _ => None
  }

  /** A recorded vnode a thread is about to unhook. */
  function Leaving(pc: Pc): Option<Vnode> {
    match pc
    case Unhooking(Await(vn)) => Some(vn)
    case Unhooking(Search(vn)) => Some(vn)
    case Unhooking(UnlockSearch(vn, _)) => Some(vn)
    case Unhooking(Forget(vn, _)) => Some(vn)
    case _ => None
  }

  /** At most one thread waits to unhook a vector it has counted down to zero, and none unhooks another's vnode. */
  ghost predicate Calm(w: World, s: State) {
    forall t: Tid, u: Tid | t != u ::
      (Zeroed(w, At(s, t)).Some? ==> Zeroed(w, At(s, t)) != Zeroed(w, At(s, u)))
      && (Leaving(At(s, t)).Some? ==> Leaving(At(s, t)) != Leaving(At(s, u)))
  }

  /** A move of t that takes out of the table a vector another thread has counted down to zero, or forgets a vnode another
      thread is about to unhook. */
  ghost predicate Overlaps(w: World, s: State, t: Tid, u: Tid) {
    t != u
    && match At(s, t)
       case Unhooking(Remove(vn)) => w.vec(vn) in s.table && Zeroed(w, At(s, u)) == Some(w.vec(vn))
       case Unhooking(Forget(vn, _)) => Leaving(At(s, u)) == Some(vn)
       case _ => false
  }

  lemma CalmDoesNotOverlap(w: World, s: State, t: Tid, u: Tid)
    requires Calm(w, s)
    ensures !Overlaps(w, s, t, u)
  {
    hide At;
    if t != u {
      assert Zeroed(w, At(s, t)).Some? ==> Zeroed(w, At(s, t)) != Zeroed(w, At(s, u));
    }
  }

  // ----- what a thread knows where it is -----

  ghost predicate CountOk(w: World, s: State, pc: Pc) {
    match pc
    case Unhooking(Await(vn)) => vn in s.recorded
    case Unhooking(Search(vn)) => vn in s.recorded
    case Unhooking(NotFound(_)) => false
    case Unhooking(UnlockSearch(vn, e)) => vn in s.recorded && Published(w, s, vn, e)
    case Unhooking(Forget(vn, e)) => vn in s.recorded && Published(w, s, vn, e)
    case Unhooking(CountDown(vn, e)) => Published(w, s, vn, e)
    case Unhooking(AwaitExclusive(vn, e)) => Published(w, s, vn, e)
    case Unhooking(Recheck(vn, e)) => Published(w, s, vn, e)
    case Unhooking(Release(vn, e)) => Published(w, s, vn, e) && s.entries[e].counter == 0
    case Unhooking(Remove(vn)) => w.vec(vn) in s.table && CounterOf(s, s.table[w.vec(vn)]) == 0
    case _ => true
  }

  ghost predicate Counted(w: World, s: State) {
    CountsKept(w, s) && forall t: Tid :: CountOk(w, s, At(s, t))
  }

  // ----- a move changes claims and counters together -----

  ghost predicate CountMove(w: World, s: State, pc: Pc, m: Move) {
    var p, q := PendingOn(w, pc), PendingOn(w, m.next);
    match m.effect
    case Count(e, d) =>
      && InTable(s, e)
      && if d == 1 then q == p || (p == None && q == Some(s.entries[e].vec))
         else d == -1 && p == Some(s.entries[e].vec) && q == None
    case Mark(vn) => p == Some(w.vec(vn)) && q == None
    case Unmark(vn) => p == None && q == Some(w.vec(vn)) && (vn in s.recorded || Spare(w, s, w.vec(vn)))
    case Insert(v, e) => q == p && !InTable(s, e) && v !in s.table && e in s.entries && s.entries[e].vec == v
    case Delete(v) => q == p && v in s.table && CounterOf(s, s.table[v]) == 0
    case _ => q == p || q == None
  }

  lemma GetCounts(w: World, s: State, g: GetPc)
    ensures CountMove(w, s, Asking(g), GetMove(w, s, g))
  {
  }

  lemma HookCounts(w: World, s: State, h: HookPc, c: Choice)
    requires HookOk(w, s, h) && TableKept(s)
    ensures CountMove(w, s, Hooking(h), HookMove(w, s, h, c))
  {
    hide SavedTo, Claims;
  }

  lemma UnhookCounts(w: World, s: State, u: UnhookPc)
    requires UnhookOk(w, s, u) && Fits(w, s, Unhooking(u))
    ensures CountMove(w, s, Unhooking(u), UnhookMove(w, s, u))
  {
    hide Claims, Complete;
  }

  lemma CallCounts(w: World, s: State, call: Call)
    ensures CountMove(w, s, Idle, CallMove(call))
  {
  }

  lemma MovesCount(w: World, s: State, pc: Pc, c: Choice)
    requires PcOk(w, s, pc) && Fits(w, s, pc) && TableKept(s)
    ensures CountMove(w, s, pc, MoveOf(w, s, pc, c))
  {
    hide GetMove, HookMove, UnhookMove, CallMove, TableKept, CountMove, GetOk, HookOk, UnhookOk, Fits;
    match pc
    case Idle => CallCounts(w, s, c.call);
    case Asking(g) => GetCounts(w, s, g);
    case Hooking(h) => HookCounts(w, s, h, c);
    case Unhooking(u) => UnhookCounts(w, s, u);
  }

  // ----- the sizes of the claims -----

  lemma IsPending(w: World, s: State, t: Tid, v: Vec)
    ensures t in PendingFor(w, s, v) <==> PendingOn(w, At(s, t)) == Some(v)
  {
    hide PendingOn;
    assert PendingOn(w, Idle) == None by {
      IdlePendsNothing(w);
    }
  }

  lemma IdlePendsNothing(w: World)
    ensures PendingOn(w, Idle) == None
  {
  }

  lemma PendingMove(w: World, s: State, t: Tid, m: Move, v: Vec)
    ensures PendingFor(w, Moved(s, t, m), v)
         == if PendingOn(w, m.next) == Some(v) then PendingFor(w, s, v) + {t} else PendingFor(w, s, v) - {t}
  {
    hide PendingOn, At, Moved, PendingFor;
    var s' := Moved(s, t, m);
    OthersStay(s, t, m);
    forall u: Tid
      ensures u in PendingFor(w, s', v) <==> if u == t then PendingOn(w, m.next) == Some(v) else u in PendingFor(w, s, v)
    {
      IsPending(w, s, u, v);
      IsPending(w, s', u, v);
    }
  }

  lemma RecordedMove(w: World, s: State, t: Tid, m: Move, v: Vec)
    ensures RecordedOn(w, Moved(s, t, m), v)
         == if m.effect.Mark? && w.vec(m.effect.vn) == v then RecordedOn(w, s, v) + {m.effect.vn}
            else if m.effect.Unmark? && w.vec(m.effect.vn) == v then RecordedOn(w, s, v) - {m.effect.vn}
            else RecordedOn(w, s, v)
  {
    hide EntriesAfter, TableAfter, SlotAfter;
  }

  /** The most by which a move can add to the claims on a vector. */
  ghost function Growth(w: World, s: State, m: Move, v: Vec): int {
    match m.effect
    case Count(e, d) => if e in s.entries && s.entries[e].vec == v then d else 0
    case Unmark(vn) => if w.vec(vn) == v && vn !in s.recorded then 1 else 0
    case _ => 0
  }

  /** The claims on a vector grow by at most what its counter grows or has to spare, and shrink when it does. */
  lemma ClaimsMove(w: World, s: State, t: Tid, m: Move, v: Vec)
    requires CountMove(w, s, At(s, t), m)
    ensures Claims(w, Moved(s, t, m), v) <= Claims(w, s, v) + Growth(w, s, m, v)
  {
    hide PendingOn, At, Moved, PendingFor, RecordedOn, Spare;
    PendingMove(w, s, t, m, v);
    RecordedMove(w, s, t, m, v);
    IsPending(w, s, t, v);
    if m.effect.Unmark? && w.vec(m.effect.vn) == v {
      IsRecorded(w, s, m.effect.vn);
    }
  }

  /** Forgetting a vnode that is not recorded adds a claim on its vector. */
  lemma ForgetsNothing(w: World, s: State, t: Tid, m: Move)
    requires m.effect.Unmark? && m.effect.vn !in s.recorded
    requires PendingOn(w, At(s, t)) == None && PendingOn(w, m.next) == Some(w.vec(m.effect.vn))
    ensures Claims(w, Moved(s, t, m), w.vec(m.effect.vn)) == Claims(w, s, w.vec(m.effect.vn)) + 1
  {
    hide PendingOn, At, Moved, PendingFor;
    var v := w.vec(m.effect.vn);
    PendingMove(w, s, t, m, v);
    RecordedMove(w, s, t, m, v);
    IsPending(w, s, t, v);
  }

  lemma IsRecorded(w: World, s: State, vn: Vnode)
    ensures vn in s.recorded ==> vn in RecordedOn(w, s, w.vec(vn))
  {
  }

  lemma CountsStepOn(w: World, s: State, t: Tid, m: Move, v: Vec)
    requires CountsKept(w, s) && TableKept(s) && CountMove(w, s, At(s, t), m) && Enabled(s, m)
    ensures var s' := Moved(s, t, m);
            if v in s'.table then CounterOf(s', s'.table[v]) >= Claims(w, s', v) else Claims(w, s', v) == 0
  {
    hide PendingOn, At, EntriesAfter, SlotAfter, Claims;
    EntriesStay(s, t, m);
    ClaimsMove(w, s, t, m, v);
  }

  /** An entry outside the table still has its counter at zero. */
  lemma OutsideStep(w: World, s: State, t: Tid, m: Move, e: Eid)
    requires CountsKept(w, s) && TableKept(s) && CountMove(w, s, At(s, t), m) && Enabled(s, m)
    requires e in Moved(s, t, m).entries && !InTable(Moved(s, t, m), e)
    ensures Moved(s, t, m).entries[e].counter == 0
  {
    hide PendingOn, At, EntriesAfter, SlotAfter, Claims;
    EntriesStay(s, t, m);
  }

  lemma CountsStep(w: World, s: State, t: Tid, m: Move)
    requires CountsKept(w, s) && TableKept(s) && CountMove(w, s, At(s, t), m) && Enabled(s, m)
    ensures CountsKept(w, Moved(s, t, m))
  {
    hide At, Moved, CountMove, Claims, TableKept, InTable, CounterOf, Enabled;
    var s' := Moved(s, t, m);
    forall v ensures if v in s'.table then CounterOf(s', s'.table[v]) >= Claims(w, s', v) else Claims(w, s', v) == 0 {
      CountsStepOn(w, s, t, m, v);
    }
    forall e | e in s'.entries && !InTable(s', e) ensures s'.entries[e].counter == 0 {
      OutsideStep(w, s, t, m, e);
    }
  }

  /** A thread that does not find what it should breaks the counters: it leaves a vector whose counter does not cover its
      claims, or an entry outside the table whose counter is not zero. */
  lemma MisfitBreaks(w: World, s: State, t: Tid, u: UnhookPc)
    requires CountsKept(w, s) && TableKept(s) && UnhookOk(w, s, u) && !Fits(w, s, Unhooking(u)) && At(s, t) == Unhooking(u)
    ensures !CountsKept(w, Moved(s, t, UnhookMove(w, s, u)))
  {
    hide At, EntriesAfter, SlotAfter, Claims, Complete;
    var m := UnhookMove(w, s, u);
    var s' := Moved(s, t, m);
    EntriesStay(s, t, m);
    if u.Forget? {
      ForgetsNothing(w, s, t, m);
      assert w.vec(u.vn) in s'.table ==> CounterOf(s', s'.table[w.vec(u.vn)]) < Claims(w, s', w.vec(u.vn));
    } else if u.CountDown? {
      assert u.e in s'.entries && !InTable(s', u.e) && s'.entries[u.e].counter == -1;
    } else {
      var e := s.table[w.vec(u.vn)];
      assert e in s'.entries && !InTable(s', e) && s'.entries[e].counter != 0;
    }
  }

  /** A step of any thread keeps the counters right if and only if that thread finds what it should: the vnode it forgets
      is recorded (or the counter has one to spare), the entry it counts down is in the table, and the counter of the
      entry it takes out is zero. Every other step keeps them right. */
  lemma CountsKeptIffFits(w: World, s: State, t: Tid, c: Choice, s': State)
    requires Safe(w, s) && CountsKept(w, s) && Step(w, s, t, c, s')
    ensures CountsKept(w, s') <==> Fits(w, s, At(s, t))
  {
    hide *;
    StepIsMove(w, s, t, c, s');
    SafeParts(w, s, t);
    if Fits(w, s, At(s, t)) {
      MovesCount(w, s, At(s, t), c);
      CountsStep(w, s, t, MoveOf(w, s, At(s, t), c));
    } else {
      Misfit(w, s, t, c);
    }
  }

  lemma Misfit(w: World, s: State, t: Tid, c: Choice)
    requires CountsKept(w, s) && TableKept(s) && PcOk(w, s, At(s, t)) && !Fits(w, s, At(s, t))
    ensures !CountsKept(w, Moved(s, t, MoveOf(w, s, At(s, t), c)))
  {
    hide At, UnhookMove, UnhookOk, Moved, CountsKept, TableKept;
    MisfitBreaks(w, s, t, At(s, t).u);
  }

  /** In every run the counters stay right exactly as long as every step fits. */
  lemma {:induction false} CountsKeptIffStepsFit(w: World, states: seq<State>, i: nat)
    requires Run(w, states) && i < |states|
    ensures (forall j :: 0 <= j <= i ==> CountsKept(w, states[j])) <==> AllFit(w, states, i)
  {
    hide Safe, Step, Initial, CountsKept, StepFits;
    if i == 0 {
      InitialKeepsCounts(w, states[0]);
    } else {
      CountsKeptIffStepsFit(w, states, i - 1);
      if AllFit(w, states, i - 1) {
        RunsAreSafe(w, states, i - 1);
        assert Next(w, states[i - 1], states[i - 1 + 1]);
        CountsKeptIffStepFits(w, states[i - 1], states[i - 1 + 1]);
      }
    }
  }

  ghost predicate AllFit(w: World, states: seq<State>, i: nat)
    requires i < |states|
  {
    forall j :: 0 <= j < i ==> StepFits(w, states[j], states[j + 1])
  }

  lemma CountsKeptIffStepFits(w: World, s: State, s': State)
    requires Safe(w, s) && CountsKept(w, s) && Next(w, s, s')
    ensures CountsKept(w, s') <==> StepFits(w, s, s')
  {
    hide Safe, CountsKept, Step, Fits, At;
    forall t: Tid, c | Step(w, s, t, c, s') ensures CountsKept(w, s') <==> Fits(w, s, At(s, t)) {
      CountsKeptIffFits(w, s, t, c, s');
    }
  }

  lemma InitialKeepsCounts(w: World, s: State)
    requires Initial(w, s)
    ensures CountsKept(w, s)
  {
    forall v ensures Claims(w, s, v) == 0 {
      assert RecordedOn(w, s, v) == {} && PendingFor(w, s, v) == {};
    }
  }

  // ----- what one thread knows survives the moves of the others -----

  /** The vector whose entry a thread counts on, and whether it counts on the counter being zero. */
  function ReliesOn(w: World, pc: Pc): Option<Vec> {
    match pc
    case Unhooking(UnlockSearch(vn, _)) => Some(w.vec(vn))
    case Unhooking(Forget(vn, _)) => Some(w.vec(vn))
    case Unhooking(CountDown(vn, _)) => Some(w.vec(vn))
    case _ => Zeroed(w, pc)
  }

  predicate Ends(pc: Pc) {
    pc.Unhooking? && (pc.u.Release? || pc.u.Remove?)
  }

  /** Not disturbed: the vector is not unhooked, the vnode not forgotten, the zero not counted up or down. */
  ghost predicate Spared(w: World, s: State, m: Move, pc: Pc) {
    && (ReliesOn(w, pc).Some? ==> !(m.effect.Delete? && ReliesOn(w, pc) == Some(m.effect.v)))
    && (Leaving(pc).Some? ==> !(m.effect.Unmark? && Leaving(pc) == Some(m.effect.vn)))
    && (Ends(pc) && m.effect.Count? && m.effect.e in s.entries ==> Zeroed(w, pc) != Some(s.entries[m.effect.e].vec))
  }

  lemma CountUndisturbed(w: World, s: State, t: Tid, m: Move, pc: Pc)
    requires Enabled(s, m) && CountOk(w, s, pc) && CountMove(w, s, At(s, t), m) && TableKept(s) && Spared(w, s, m, pc)
    ensures CountOk(w, Moved(s, t, m), pc)
  {
    hide At, EntriesAfter, SlotAfter, PendingOn;
    EntriesStay(s, t, m);
  }

  /** A vector with a claim on it is not being unhooked. */
  lemma Claimed(w: World, s: State, t: Tid)
    requires Counted(w, s)
    ensures Leaving(At(s, t)).Some? ==>
              w.vec(Leaving(At(s, t)).value) in s.table
              && CounterOf(s, s.table[w.vec(Leaving(At(s, t)).value)]) >= 1
    ensures PendingOn(w, At(s, t)).Some? ==>
              PendingOn(w, At(s, t)).value in s.table && CounterOf(s, s.table[PendingOn(w, At(s, t)).value]) >= 1
  {
    hide At, PendingOn, PendingFor, RecordedOn, CounterOf, InTable;
    var pc := At(s, t);
    assert CountOk(w, s, pc);
    if Leaving(pc).Some? {
      var vn := Leaving(pc).value;
      IsRecorded(w, s, vn);
      HasOne(RecordedOn(w, s, w.vec(vn)), vn);
      assert Claims(w, s, w.vec(vn)) >= 1;
    }
    if PendingOn(w, pc).Some? {
      var v := PendingOn(w, pc).value;
      IsPending(w, s, t, v);
      HasOne(PendingFor(w, s, v), t);
      assert Claims(w, s, v) >= 1;
    }
  }

  /** Which points of the code unhook a vector, forget a vnode, or count. */
  lemma MovesOf(w: World, s: State, pc: Pc, c: Choice)
    ensures var m := MoveOf(w, s, pc, c);
            && (m.effect.Delete? ==> pc.Unhooking? && pc.u.Remove? && m.effect.v == w.vec(pc.u.vn))
            && (m.effect.Unmark? ==> pc.Unhooking? && pc.u.Forget? && m.effect.vn == pc.u.vn)
            && (m.effect.Count? ==>
                  (ModeOf(pc) != Free
                   || (pc.Unhooking? && pc.u.CountDown? && pc.u.e == m.effect.e && PendingOn(w, pc) == Some(w.vec(pc.u.vn)))))
  {
  }

  lemma RelyingPcs(w: World, pc: Pc)
    ensures ReliesOn(w, pc).Some? ==>
              || ModeOf(pc) == Sharing
              || (Leaving(pc).Some? && ReliesOn(w, pc) == Some(w.vec(Leaving(pc).value)))
              || ReliesOn(w, pc) == PendingOn(w, pc)
              || ReliesOn(w, pc) == Zeroed(w, pc)
    ensures Ends(pc) ==> ModeOf(pc) == Owning && Zeroed(w, pc) == Some(w.vec(pc.u.vn))
  {
  }

  lemma OnlyOne(s: State, t: Tid, u: Tid)
    requires LockKept(s) && t != u && ModeOf(At(s, t)) == Owning
    ensures ModeOf(At(s, u)) == Free
  {
    hide At, ModeOf;
  }

  lemma CountApart(w: World, s: State, t: Tid, c: Choice, u: Tid)
    requires Safe(w, s) && Counted(w, s) && t != u && !Overlaps(w, s, t, u)
    ensures Spared(w, s, MoveOf(w, s, At(s, t), c), At(s, u))
  {
    hide At, MoveOf, ModeOf, PcOk, PendingOn, ReliesOn, LockKept, FreshKept, SlotsAt, OrigsKept, TableComplete,
         StageNow, HeldBy, InTable, Holders, Claims;
    var pc, m := At(s, t), MoveOf(w, s, At(s, t), c);
    assert CountOk(w, s, pc) && CountOk(w, s, At(s, u));
    MovesOf(w, s, pc, c);
    RelyingPcs(w, pc);
    RelyingPcs(w, At(s, u));
    Claimed(w, s, t);
    Claimed(w, s, u);
    if ModeOf(pc) == Owning {
      OnlyOne(s, t, u);
    }
    if ModeOf(At(s, u)) == Owning {
      OnlyOne(s, u, t);
    }
  }

  // ----- what a thread knows after its own move -----

  lemma HookCountKnows(w: World, s: State, t: Tid, h: HookPc, c: Choice)
    requires TableKept(s) && Enabled(s, HookMove(w, s, h, c))
    ensures CountOk(w, Moved(s, t, HookMove(w, s, h, c)), HookMove(w, s, h, c).next)
  {
    hide EntriesAfter, SlotAfter;
    EntriesStay(s, t, HookMove(w, s, h, c));
  }

  lemma UnhookCountKnows(w: World, s: State, t: Tid, u: UnhookPc)
    requires TableKept(s) && Enabled(s, UnhookMove(w, s, u)) && CountOk(w, s, Unhooking(u))
    requires u.Search? ==> w.vec(u.vn) in s.table
    ensures CountOk(w, Moved(s, t, UnhookMove(w, s, u)), UnhookMove(w, s, u).next)
  {
    hide EntriesAfter, SlotAfter, ReadersAfter, WriterAfter;
    EntriesStay(s, t, UnhookMove(w, s, u));
    if u.AwaitExclusive? || u.Recheck? || u.Release? {
      LastKnows(w, s, t, u);
    }
  }

  lemma LastKnows(w: World, s: State, t: Tid, u: UnhookPc)
    requires (u.AwaitExclusive? || u.Recheck? || u.Release?) && CountOk(w, s, Unhooking(u))
    requires TableKept(s) && Enabled(s, UnhookMove(w, s, u))
    ensures CountOk(w, Moved(s, t, UnhookMove(w, s, u)), UnhookMove(w, s, u).next)
  {
    hide EntriesAfter, SlotAfter, ReadersAfter, WriterAfter;
    EntriesStay(s, t, UnhookMove(w, s, u));
  }

  lemma GetCountKnows(w: World, s: State, s': State, g: GetPc)
    ensures CountOk(w, s', GetMove(w, s, g).next)
  {
  }

  lemma CallCountKnows(w: World, s': State, call: Call)
    ensures CountOk(w, s', CallMove(call).next)
  {
  }

  lemma CountKnows(w: World, s: State, t: Tid, c: Choice)
    requires Counted(w, s) && TableKept(s) && Enabled(s, MoveOf(w, s, At(s, t), c))
    ensures var m := MoveOf(w, s, At(s, t), c); CountOk(w, Moved(s, t, m), m.next)
  {
    hide At, GetMove, HookMove, UnhookMove, CallMove, Moved, CountsKept, TableKept, CountOk, Enabled;
    var pc := At(s, t);
    assert CountOk(w, s, pc);
    Claimed(w, s, t);
    match pc
    case Idle => CallCountKnows(w, Moved(s, t, CallMove(c.call)), c.call);
    case Asking(g) => GetCountKnows(w, s, Moved(s, t, GetMove(w, s, g)), g);
    case Hooking(h) => HookCountKnows(w, s, t, h, c);
    case Unhooking(u) => UnhookCountKnows(w, s, t, u);
  }

  // ----- every step, and every run -----

  lemma CountedStep(w: World, s: State, t: Tid, c: Choice, s': State)
    requires Safe(w, s) && Counted(w, s) && Step(w, s, t, c, s') && forall u: Tid :: !Overlaps(w, s, t, u)
    ensures Counted(w, s')
  {
    hide *;
    var m := MoveOf(w, s, At(s, t), c);
    StepIsMove(w, s, t, c, s');
    SafeParts(w, s, t);
    CountedParts(w, s, t);
    KnowingFits(w, s, At(s, t));
    CountsKeptIffFits(w, s, t, c, s');
    MovesCount(w, s, At(s, t), c);
    OthersStay(s, t, m);
    forall u: Tid ensures CountOk(w, s', At(s', u)) {
      if u == t {
        CountKnows(w, s, t, c);
      } else {
        CountedParts(w, s, u);
        CountApart(w, s, t, c, u);
        CountUndisturbed(w, s, t, m, At(s, u));
      }
    }
    CountedWhole(w, s');
  }

  lemma KnowingFits(w: World, s: State, pc: Pc)
    requires CountOk(w, s, pc)
    ensures Fits(w, s, pc)
  {
  }

  lemma CountedParts(w: World, s: State, t: Tid)
    requires Counted(w, s)
    ensures CountsKept(w, s) && CountOk(w, s, At(s, t))
  {
    hide At, CountOk, CountsKept;
  }

  lemma CountedWhole(w: World, s: State)
    requires CountsKept(w, s) && forall t: Tid :: CountOk(w, s, At(s, t))
    ensures Counted(w, s)
  {
    hide At, CountOk, CountsKept;
  }

  lemma InitialIsCounted(w: World, s: State)
    requires Initial(w, s)
    ensures Counted(w, s)
  {
    hide CountsKept;
    InitialKeepsCounts(w, s);
  }

  lemma CalmStep(w: World, s: State, t: Tid, c: Choice, s': State)
    requires Safe(w, s) && Counted(w, s) && Calm(w, s) && Step(w, s, t, c, s')
    ensures Counted(w, s')
  {
    hide *;
    forall u: Tid ensures !Overlaps(w, s, t, u) {
      CalmDoesNotOverlap(w, s, t, u);
    }
    CountedStep(w, s, t, c, s');
  }

  lemma {:induction false} CalmRunsAreCounted(w: World, states: seq<State>, i: nat)
    requires Run(w, states) && i < |states|
    requires forall j :: 0 <= j < i ==> Calm(w, states[j])
    ensures Counted(w, states[i])
  {
    hide Safe, Step, Initial, Counted, Calm;
    if i == 0 {
      InitialIsCounted(w, states[0]);
    } else {
      CalmRunsAreCounted(w, states, i - 1);
      RunsAreSafe(w, states, i - 1);
      assert Next(w, states[i - 1], states[i - 1 + 1]);
      var t, c :| Step(w, states[i - 1], t, c, states[i]);
      CalmStep(w, states[i - 1], t, c, states[i]);
    }
  }

  lemma CalmRunsFit(w: World, states: seq<State>, i: nat)
    requires Run(w, states) && i < |states|
    requires forall j :: 0 <= j < i ==> Calm(w, states[j])
    ensures AllFit(w, states, i)
  {
    hide Run, Calm, StepFits;
    forall j | 0 <= j < i ensures StepFits(w, states[j], states[j + 1]) {
      CalmRunsAreCounted(w, states, j);
      CountedFits(w, states[j], states[j + 1]);
    }
  }

  lemma CountedFits(w: World, s: State, s': State)
    requires Counted(w, s)
    ensures StepFits(w, s, s')
  {
    hide At, Step, CountsKept, CountOk, Fits;
    forall t: Tid, c | Step(w, s, t, c, s') ensures Fits(w, s, At(s, t)) {
      KnowingFits(w, s, At(s, t));
    }
  }

  // ----- what this means -----

  /** As long as every step fits, the vector of a recorded vnode stays hooked, and its counter is at least the number of
      its recorded vnodes. */
  lemma RecordedStaysHooked(w: World, states: seq<State>, i: nat, vn: Vnode)
    requires Run(w, states) && i < |states| && vn in states[i].recorded && AllFit(w, states, i)
    ensures var s, v := states[i], w.vec(vn);
            && v in s.table && s.table[v] in s.entries
            && s.entries[s.table[v]].counter >= |set x | x in s.recorded && w.vec(x) == v| >= 1
            && (s.writer.None? ==> forall op | op in HOOKS :: s.slot(v, op) == Hook(op))
  {
    hide Run, AllFit, InTable;
    var s, v := states[i], w.vec(vn);
    CountsKeptIffStepsFit(w, states, i);
    RunsAreSafe(w, states, i);
    assert CountsKept(w, s);
    IsRecorded(w, s, vn);
    HasOne(RecordedOn(w, s, v), vn);
    assert RecordedOn(w, s, v) == set x | x in s.recorded && w.vec(x) == v;
    assert Claims(w, s, v) >= 1;
    if s.writer.None? {
      forall op | op in HOOKS ensures s.slot(v, op) == Hook(op) {
        SlotsOfFreeLock(w, states, i, v, op);
      }
    }
  }

  /** As long as every step fits, counters are never negative, and those of entries outside the table, and so of freed
      ones, are zero. */
  lemma CountersAreSound(w: World, states: seq<State>, i: nat, e: Eid)
    requires Run(w, states) && i < |states| && e in states[i].entries && AllFit(w, states, i)
    ensures var n := states[i].entries[e];
            n.counter >= 0 && (n.counter > 0 ==> InTable(states[i], e) && n.retain > 0)
  {
    hide Run, AllFit, Holders, HeldBy, LockKept, FreshKept, SlotsAt, OrigsKept, TableComplete, StageNow, PcOk, TableKept, Claims;
    CountsKeptIffStepsFit(w, states, i);
    RunsAreSafe(w, states, i);
    assert CountsKept(w, states[i]);
  }

  /** While unhooking does not overlap with itself, unhooking a recorded vnode always finds the vector's entry, and takes it
      out only with its counter at zero. */
  lemma UnhookFindsEntry(w: World, states: seq<State>, i: nat, t: Tid)
    requires Run(w, states) && i < |states| && At(states[i], t).Unhooking?
    requires forall j :: 0 <= j < i ==> Calm(w, states[j])
    ensures var s, u := states[i], At(states[i], t).u;
            && !u.NotFound?
            && (u.Remove? ==> w.vec(u.vn) in s.table && CounterOf(s, s.table[w.vec(u.vn)]) == 0)
  {
    hide Run, Calm, At;
    CalmRunsAreCounted(w, states, i);
    assert CountOk(w, states[i], At(states[i], t));
  }
}
