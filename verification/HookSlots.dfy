/** The slots of every vector, the functions its entry keeps, and what each thread knows about them. */
module HookSlots {
  import opened Options
  import opened VopVector
  import opened HookProtocol
  import opened HookSafety

  /** The position of an operation in the loops; 13 when it is not hooked. */
  function Rank(op: Op): nat {
    match op
    case Reclaim => 0 case Read => 1 case Open => 2 case Write => 3 case Pagein => 4 case Pageout => 5
    case Lookup => 6 case Create => 7 case Close => 8 case Inactive => 9 case Rename => 10 case Exchange => 11
    case Getattr => 12
    case _ => 13
  }

  lemma RankOf(i: nat)
    requires i < |HOOKS|
    ensures Rank(HOOKS[i]) == i < 13
  {
  }

  lemma HookOf(op: Op)
    ensures |HOOKS| == 13 && (op in HOOKS <==> Rank(op) < 13)
    ensures Rank(op) < 13 ==> HOOKS[Rank(op)] == op
  {
    if op in HOOKS {
      var i :| 0 <= i < |HOOKS| && HOOKS[i] == op;
      RankOf(i);
    }
  }

  function NativeOf(w: World, v: Vec, op: Op): Func {
    Native(w.native(v, op))
  }

  // ----- the two loops -----

  /** How far the writer is in patching or restoring a vector. */
  datatype Stage = Whole | Building(v: Vec, i: nat) | Undoing(v: Vec, i: nat)

  function StageOf(w: World, pc: Pc): Stage {
    match pc
    case Hooking(CountNew(vn, _)) => Building(w.vec(vn), 0)
    case Hooking(Save(vn, _, i)) => Building(w.vec(vn), i)
    case Hooking(Patch(vn, _, i)) => Building(w.vec(vn), i)
    case Unhooking(Restore(vn, _, i)) => Undoing(w.vec(vn), i)
    case _ => Whole
  }

  function StageNow(w: World, s: State): Stage {
    match s.writer
    case None => Whole
    case Some(t) => StageOf(w, At(s, t))
  }

  predicate Taken(table: map<Vec, Eid>, g: Stage, v: Vec, op: Op) {
    Rank(op) < 13
    && match g
       case Building(x, i) => if x == v then Rank(op) < i else v in table
       case Undoing(x, i) => if x == v then Rank(op) >= i else v in table
       case Whole => v in table
  }

  /** Every slot holds the hook or the file system's own function, by how far the writer is. */
  ghost predicate SlotsAt(w: World, s: State, g: Stage) {
    forall v, op :: s.slot(v, op) == if Taken(s.table, g, v, op) then Hook(op) else NativeOf(w, v, op)
  }

  /** An entry never keeps anything but the function its vector came with. */
  ghost predicate OrigKept(w: World, n: Entry) {
    forall op :: op in n.orig ==> Rank(op) < 13 && n.orig[op] == NativeOf(w, n.vec, op)
  }

  ghost predicate OrigsKept(w: World, s: State) {
    forall e :: e in s.entries ==> OrigKept(w, s.entries[e])
  }

  ghost predicate Complete(s: State, e: Eid) {
    e in s.entries && forall op :: Rank(op) < 13 ==> op in s.entries[e].orig
  }

  /** Outside the loops, an entry in the table keeps all the functions. */
  ghost predicate TableComplete(s: State, g: Stage) {
    forall v :: v in s.table && !(g.Building? && g.v == v) ==> Complete(s, s.table[v])
  }

  ghost predicate EntryFor(w: World, s: State, vn: Vnode, e: Eid) {
    e in s.entries && s.entries[e].vec == w.vec(vn)
  }

  /** A new entry, not yet in the table. */
  ghost predicate Unpublished(w: World, s: State, vn: Vnode, e: Eid) {
    EntryFor(w, s, vn, e) && !InTable(s, e) && s.entries[e].orig == map[]
  }

  ghost predicate Published(w: World, s: State, vn: Vnode, e: Eid) {
    EntryFor(w, s, vn, e) && w.vec(vn) in s.table && s.table[w.vec(vn)] == e
  }

  ghost predicate SavedTo(s: State, e: Eid, i: nat) {
    e in s.entries && forall op :: op in s.entries[e].orig <==> Rank(op) < i
  }

  // ----- what a thread knows where it is -----

  ghost predicate GetOk(w: World, s: State, g: GetPc) {
    Rank(g.op) < 13
    && match g
       case Found(vn, op, e) => EntryFor(w, s, vn, e) && Complete(s, e)
       case ReadEntry(vn, op, e) => EntryFor(w, s, vn, e) && Complete(s, e)
       case ReadSlot(vn, op) => w.vec(vn) !in s.table
       case SlotRead(vn, op, f) => f == Some(NativeOf(w, w.vec(vn), op))
       case Drop(vn, op, e, f) => f == Some(NativeOf(w, w.vec(vn), op))
       case Return(vn, op, f) => f == Some(NativeOf(w, w.vec(vn), op))
       case _ => true
  }

  ghost predicate HookOk(w: World, s: State, h: HookPc) {
    match h
    case CountFound(vn, e) => Published(w, s, vn, e)
    case WaitExclusive(vn, n) => Unpublished(w, s, vn, n)
    case CheckAgain(vn, n) => Unpublished(w, s, vn, n)
    case Add(vn, n) => Unpublished(w, s, vn, n) && w.vec(vn) !in s.table
    case CountOld(vn, n, e) => Published(w, s, vn, e)
    case CountNew(vn, n) => Published(w, s, vn, n) && SavedTo(s, n, 0)
    case Save(vn, n, i) => Published(w, s, vn, n) && i <= 13 && SavedTo(s, n, i)
    case Patch(vn, n, i) => Published(w, s, vn, n) && i < 13 && SavedTo(s, n, i + 1)
    case _ => true
  }

  ghost predicate UnhookOk(w: World, s: State, u: UnhookPc) {
    (u.Begin? || w.regular(u.vn))
    && match u
       case Restore(vn, e, i) => EntryFor(w, s, vn, e) && Complete(s, e) && w.vec(vn) !in s.table && i <= 13
       case UnlockSearch(vn, e) => EntryFor(w, s, vn, e)
       case Forget(vn, e) => EntryFor(w, s, vn, e)
       case CountDown(vn, e) => EntryFor(w, s, vn, e)
       case AwaitExclusive(vn, e) => EntryFor(w, s, vn, e)
       case Recheck(vn, e) => EntryFor(w, s, vn, e)
       case Release(vn, e) => EntryFor(w, s, vn, e)
       case _ => true
  }

  ghost predicate PcOk(w: World, s: State, pc: Pc) {
    match pc
    case Idle => true
    case Asking(g) => GetOk(w, s, g)
    case Hooking(h) => HookOk(w, s, h)
    case Unhooking(u) => UnhookOk(w, s, u)
  }

  function FreshOf(pc: Pc): Option<Eid> {
    match pc
    case Hooking(WaitExclusive(_, n)) => Some(n)
    case Hooking(CheckAgain(_, n)) => Some(n)
    case Hooking(Add(_, n)) => Some(n)
    case _ => None
  }

  /** Nobody else holds an entry that has not been published. */
  ghost predicate FreshKept(s: State) {
    forall t: Tid, u: Tid | t != u && FreshOf(At(s, t)).Some? :: HeldBy(At(s, u)) != FreshOf(At(s, t))
  }

  ghost predicate Safe(w: World, s: State) {
    && LockKept(s) && RefsKept(s) && FreshKept(s)
    && SlotsAt(w, s, StageNow(w, s)) && OrigsKept(w, s) && TableComplete(s, StageNow(w, s))
    && forall t: Tid :: PcOk(w, s, At(s, t))
  }

  // ----- a move keeps the reference counts -----

  lemma GetRefs(w: World, s: State, g: GetPc)
    requires TableKept(s)
    ensures RefMove(s, Asking(g), GetMove(w, s, g))
  {
  }

  lemma HookRefs(w: World, s: State, h: HookPc, c: Choice)
    requires TableKept(s) && HookOk(w, s, h)
    ensures RefMove(s, Hooking(h), HookMove(w, s, h, c))
  {
    hide SavedTo;
  }

  lemma UnhookRefs(w: World, s: State, u: UnhookPc)
    requires TableKept(s)
    ensures RefMove(s, Unhooking(u), UnhookMove(w, s, u))
  {
  }

  lemma CallRefs(s: State, call: Call)
    ensures RefMove(s, Idle, CallMove(call))
  {
  }

  lemma MovesRef(w: World, s: State, pc: Pc, c: Choice)
    requires TableKept(s) && PcOk(w, s, pc)
    ensures RefMove(s, pc, MoveOf(w, s, pc, c))
  {
    hide GetMove, HookMove, UnhookMove, CallMove, TableKept, RefMove, GetOk, HookOk, UnhookOk;
    match pc
    case Idle => CallRefs(s, c.call);
    case Asking(g) => GetRefs(w, s, g);
    case Hooking(h) => HookRefs(w, s, h, c);
    case Unhooking(u) => UnhookRefs(w, s, u);
  }

  // ----- a move changes slots as its stage says -----

  ghost predicate SlotMove(w: World, s: State, pc: Pc, m: Move) {
    var g, g' := StageOf(w, pc), StageOf(w, m.next);
    match m.effect
    case Insert(v, e) => g == Whole && g' == Building(v, 0) && v !in s.table
    case Delete(v) => g == Whole && g' == Undoing(v, 0) && v in s.table
    case Keep(e, op, f) =>
      && g.Building? && g' == g && g.i < 13 && op == HOOKS[g.i] && f == s.slot(g.v, op)
      && g.v in s.table && s.table[g.v] == e && e in s.entries && s.entries[e].vec == g.v
    case Put(v, op, f) =>
      && !g.Whole? && g.v == v && g.i < 13 && op == HOOKS[g.i] && !g'.Whole? && g' == g.(i := g.i + 1)
      && f == if g.Building? then Hook(op) else NativeOf(w, v, op)
    case _ =>
      || g' == g
      || (g.Building? && g.i == 13 && g' == Whole && g.v in s.table && SavedTo(s, s.table[g.v], 13))
      || (g.Undoing? && g.i == 13 && g' == Whole && g.v !in s.table)
  }

  lemma GetStages(w: World, s: State, g: GetPc)
    ensures SlotMove(w, s, Asking(g), GetMove(w, s, g))
  {
  }

  lemma HookStages(w: World, s: State, h: HookPc, c: Choice)
    requires HookOk(w, s, h)
    ensures SlotMove(w, s, Hooking(h), HookMove(w, s, h, c))
  {
    hide InTable, SavedTo;
  }

  lemma UnhookStages(w: World, s: State, u: UnhookPc)
    requires UnhookOk(w, s, u) && OrigsKept(w, s)
    ensures SlotMove(w, s, Unhooking(u), UnhookMove(w, s, u))
  {
    hide InTable, SavedTo;
    if u.Restore? && u.i < 13 {
      RankOf(u.i);
    }
  }

  lemma MovesSlot(w: World, s: State, pc: Pc, c: Choice)
    requires OrigsKept(w, s) && PcOk(w, s, pc)
    ensures SlotMove(w, s, pc, MoveOf(w, s, pc, c))
  {
    hide GetMove, HookMove, UnhookMove, OrigsKept, SlotMove, GetOk, HookOk, UnhookOk;
    match pc
    case Idle => CallStages(w, s, c.call);
    case Asking(g) => GetStages(w, s, g);
    case Hooking(h) => HookStages(w, s, h, c);
    case Unhooking(u) => UnhookStages(w, s, u);
  }

  lemma CallStages(w: World, s: State, call: Call)
    ensures SlotMove(w, s, Idle, CallMove(call))
  {
  }

  lemma StageNeedsLock(w: World, pc: Pc)
    ensures StageOf(w, pc) != Whole ==> ModeOf(pc) == Owning
  {
  }

  /** Only the thread that owns the lock is in a loop. */
  lemma StageStep(w: World, s: State, t: Tid, m: Move)
    requires LockKept(s) && LockMove(At(s, t), m) && Enabled(s, m)
    requires m.effect.LockExclusive? ==> StageOf(w, m.next) == StageOf(w, At(s, t))
    ensures if ModeOf(At(s, t)) == Owning
            then StageNow(w, s) == StageOf(w, At(s, t)) && StageNow(w, Moved(s, t, m)) == StageOf(w, m.next)
            else StageNow(w, Moved(s, t, m)) == StageNow(w, s)
  {
    hide At, ModeOf, StageOf, TableAfter, EntriesAfter, SlotAfter;
    OthersStay(s, t, m);
    StageNeedsLock(w, m.next);
    StageNeedsLock(w, At(s, t));
    if s.writer.Some? {
      assert At(Moved(s, t, m), s.writer.value) == if s.writer.value == t then m.next else At(s, s.writer.value);
      assert ModeOf(At(s, s.writer.value)) == Owning;
    }
  }

  lemma SlotStep(w: World, s: State, t: Tid, m: Move)
    requires LockKept(s) && LockMove(At(s, t), m) && Enabled(s, m) && SlotMove(w, s, At(s, t), m)
    requires SlotsAt(w, s, StageNow(w, s))
    ensures SlotsAt(w, Moved(s, t, m), StageNow(w, Moved(s, t, m)))
  {
    hide At, ModeOf, StageOf, StageNow, EntriesAfter, LockKept;
    StageNeedsLock(w, At(s, t));
    StageStep(w, s, t, m);
    forall v, op
      ensures Moved(s, t, m).slot(v, op)
           == if Taken(Moved(s, t, m).table, StageNow(w, Moved(s, t, m)), v, op) then Hook(op) else NativeOf(w, v, op)
    {
      HookOf(op);
      if m.effect.Put? {
        HookOf(m.effect.op);
        RankOf(StageOf(w, At(s, t)).i);
      }
    }
  }

  /** The loop saves what the slot had, which is the file system's own function as long as it is not patched. */
  lemma SavesNative(w: World, s: State, t: Tid, m: Move)
    requires LockKept(s) && LockMove(At(s, t), m) && SlotMove(w, s, At(s, t), m) && m.effect.Keep?
    requires SlotsAt(w, s, StageNow(w, s))
    ensures m.effect.e in s.entries && Rank(m.effect.op) < 13
    ensures m.effect.f == NativeOf(w, s.entries[m.effect.e].vec, m.effect.op)
  {
    hide At, ModeOf, StageOf;
    RankOf(StageOf(w, At(s, t)).i);
  }

  lemma OrigStep(w: World, s: State, t: Tid, m: Move)
    requires LockKept(s) && LockMove(At(s, t), m) && Enabled(s, m) && SlotMove(w, s, At(s, t), m)
    requires SlotsAt(w, s, StageNow(w, s)) && OrigsKept(w, s)
    ensures OrigsKept(w, Moved(s, t, m))
  {
    hide At, Moved, ModeOf, StageOf, StageNow, LockKept, SlotsAt, SlotMove, LockMove, Rank, NativeOf;
    var s' := Moved(s, t, m);
    EntriesStay(s, t, m);
    if m.effect.Keep? {
      SavesNative(w, s, t, m);
    }
    forall e | e in s'.entries ensures OrigKept(w, s'.entries[e]) {
      if e in s.entries {
        assert OrigKept(w, s.entries[e]);
      }
    }
  }

  lemma EntriesGrow(s: State, t: Tid, m: Move, e: Eid)
    requires Enabled(s, m) && e in s.entries
    ensures var s' := Moved(s, t, m);
            e in s'.entries && s'.entries[e].vec == s.entries[e].vec
            && (Complete(s, e) ==> Complete(s', e))
            && ((m.effect.Keep? && m.effect.e == e) || s'.entries[e].orig == s.entries[e].orig)
  {
    hide At, EntriesAfter, LockKept, TableAfter, SlotAfter;
    EntriesStay(s, t, m);
  }

  lemma TableCompleteStep(w: World, s: State, t: Tid, m: Move)
    requires LockKept(s) && LockMove(At(s, t), m) && Enabled(s, m) && SlotMove(w, s, At(s, t), m)
    requires TableKept(s) && TableComplete(s, StageNow(w, s))
    ensures TableComplete(Moved(s, t, m), StageNow(w, Moved(s, t, m)))
  {
    hide At, ModeOf, StageOf, StageNow, EntriesAfter, LockKept, SlotAfter, Complete, SavedTo;
    var s' := Moved(s, t, m);
    StageNeedsLock(w, At(s, t));
    StageStep(w, s, t, m);
    forall v | v in s'.table && !(StageNow(w, s').Building? && StageNow(w, s').v == v) ensures Complete(s', s'.table[v]) {
      EntriesGrow(s, t, m, s'.table[v]);
      if !Complete(s, s'.table[v]) {
        SavedAll(s, s'.table[v]);
      }
    }
  }

  lemma SavedAll(s: State, e: Eid)
    ensures SavedTo(s, e, 13) ==> Complete(s, e)
  {
  }

  /** An unpublished entry comes from an allocation, and cannot be found. */
  lemma FreshMove(w: World, s: State, pc: Pc, c: Choice)
    ensures var m := MoveOf(w, s, pc, c);
            FreshOf(m.next).Some? && FreshOf(m.next) != FreshOf(pc) ==> m.effect.New? && FreshOf(m.next) == Some(m.effect.e)
  {
  }

  lemma FreshUnpublished(w: World, s: State, pc: Pc)
    requires PcOk(w, s, pc) && FreshOf(pc).Some?
    ensures FreshOf(pc).value in s.entries && !InTable(s, FreshOf(pc).value)
  {
  }

  lemma FreshStep(w: World, s: State, t: Tid, m: Move)
    requires FreshKept(s) && RefsKept(s) && RefMove(s, At(s, t), m) && Enabled(s, m)
    requires FreshOf(m.next).Some? && FreshOf(m.next) != FreshOf(At(s, t)) ==>
               m.effect.New? && FreshOf(m.next) == Some(m.effect.e)
    requires forall u: Tid | FreshOf(At(s, u)).Some? ::
               FreshOf(At(s, u)).value in s.entries && !InTable(s, FreshOf(At(s, u)).value)
    ensures FreshKept(Moved(s, t, m))
  {
    hide At, HeldBy, FreshOf, EntriesAfter, TableAfter, SlotAfter, Holders;
    OthersStay(s, t, m);
  }

  // ----- what one thread knows survives the moves of the others -----

  lemma GetUndisturbed(w: World, s: State, t: Tid, m: Move, g: GetPc)
    requires Enabled(s, m) && GetOk(w, s, g)
    requires ModeOf(Asking(g)) != Free ==> Moved(s, t, m).table == s.table
    ensures GetOk(w, Moved(s, t, m), g)
  {
    hide Moved, Complete;
    if g.Found? || g.ReadEntry? {
      EntriesGrow(s, t, m, g.e);
    }
  }

  lemma HookUndisturbed(w: World, s: State, t: Tid, m: Move, h: HookPc)
    requires Enabled(s, m) && HookOk(w, s, h)
    requires ModeOf(Hooking(h)) != Free ==> Moved(s, t, m).table == s.table && !m.effect.Keep?
    requires FreshOf(Hooking(h)).Some? ==>
               !(m.effect.Keep? && m.effect.e == h.n) && !(m.effect.Insert? && m.effect.e == h.n)
    ensures HookOk(w, Moved(s, t, m), h)
  {
    hide EntriesAfter, SlotAfter, Complete;
    if h.CountFound? || h.CountOld? {
      EntriesGrow(s, t, m, h.e);
    } else if h.WaitExclusive? || h.CheckAgain? || h.Add? || h.CountNew? || h.Save? || h.Patch? {
      EntriesGrow(s, t, m, h.n);
    }
  }

  lemma UnhookUndisturbed(w: World, s: State, t: Tid, m: Move, u: UnhookPc)
    requires Enabled(s, m) && UnhookOk(w, s, u)
    requires ModeOf(Unhooking(u)) != Free ==> Moved(s, t, m).table == s.table
    ensures UnhookOk(w, Moved(s, t, m), u)
  {
    hide Moved, Complete;
    if u.Restore? || u.UnlockSearch? || u.Forget? || u.CountDown? || u.AwaitExclusive? || u.Recheck? || u.Release? {
      EntriesGrow(s, t, m, u.e);
    }
  }

  lemma Undisturbed(w: World, s: State, t: Tid, m: Move, pc: Pc)
    requires Enabled(s, m) && PcOk(w, s, pc)
    requires ModeOf(pc) != Free ==> Moved(s, t, m).table == s.table && !m.effect.Keep?
    requires FreshOf(pc).Some? ==> !(m.effect.Keep? && Some(m.effect.e) == FreshOf(pc))
                                   && !(m.effect.Insert? && Some(m.effect.e) == FreshOf(pc))
    ensures PcOk(w, Moved(s, t, m), pc)
  {
    hide Moved, GetOk, HookOk, UnhookOk, ModeOf;
    match pc
    case Idle =>
    case Asking(g) => GetUndisturbed(w, s, t, m, g);
    case Hooking(h) => HookUndisturbed(w, s, t, m, h);
    case Unhooking(u) => UnhookUndisturbed(w, s, t, m, u);
  }

  // ----- what a thread knows after its own move -----

  lemma GetKnows(w: World, s: State, t: Tid, g: GetPc)
    requires GetOk(w, s, g) && TableKept(s) && OrigsKept(w, s)
    requires ModeOf(Asking(g)) == Sharing ==> SlotsAt(w, s, Whole) && TableComplete(s, Whole)
    requires Enabled(s, GetMove(w, s, g))
    ensures PcOk(w, Moved(s, t, GetMove(w, s, g)), GetMove(w, s, g).next)
  {
    hide EntriesAfter, SlotAfter;
    var m := GetMove(w, s, g);
    if m.next.Asking? && (m.next.g.Found? || m.next.g.ReadEntry?) {
      EntriesGrow(s, t, m, m.next.g.e);
    }
  }

  lemma SavesOne(s: State, t: Tid, m: Move, e: Eid, i: nat)
    requires SavedTo(s, e, i) && i < 13 && m.effect.Keep? && m.effect.e == e && m.effect.op == HOOKS[i]
    ensures SavedTo(Moved(s, t, m), e, i + 1)
  {
    RankOf(i);
    forall op ensures Rank(op) == i <==> op == HOOKS[i] {
      HookOf(op);
    }
  }

  lemma SaveKnows(w: World, s: State, t: Tid, h: HookPc, c: Choice)
    requires h.Save? && HookOk(w, s, h)
    ensures PcOk(w, Moved(s, t, HookMove(w, s, h, c)), HookMove(w, s, h, c).next)
  {
    hide EntriesAfter, SlotAfter, SavedTo;
    var m := HookMove(w, s, h, c);
    EntriesStay(s, t, m);
    if h.i < 13 {
      SavesOne(s, t, m, h.n, h.i);
    }
  }

  lemma PatchKnows(w: World, s: State, t: Tid, h: HookPc, c: Choice)
    requires h.Patch? && HookOk(w, s, h)
    ensures PcOk(w, Moved(s, t, HookMove(w, s, h, c)), HookMove(w, s, h, c).next)
  {
    hide EntriesAfter, SlotAfter, SavedTo;
    var m := HookMove(w, s, h, c);
    EntriesStay(s, t, m);
    SameSaved(s, Moved(s, t, m), h.n, h.i + 1);
  }

  lemma SameSaved(s: State, s': State, e: Eid, i: nat)
    requires e in s.entries && e in s'.entries && s.entries[e].orig == s'.entries[e].orig && SavedTo(s, e, i)
    ensures SavedTo(s', e, i)
  {
  }

  lemma PublishKnows(w: World, s: State, t: Tid, h: HookPc, c: Choice)
    requires (h.Allocate? || h.WaitExclusive? || h.CheckAgain? || h.Add?) && HookOk(w, s, h) && TableKept(s)
    requires Enabled(s, HookMove(w, s, h, c))
    ensures PcOk(w, Moved(s, t, HookMove(w, s, h, c)), HookMove(w, s, h, c).next)
  {
    hide EntriesAfter, SlotAfter, ReadersAfter, WriterAfter, RecordedAfter;
    EntriesStay(s, t, HookMove(w, s, h, c));
  }

  lemma HookKnows(w: World, s: State, t: Tid, h: HookPc, c: Choice)
    requires HookOk(w, s, h) && TableKept(s)
    requires Enabled(s, HookMove(w, s, h, c))
    ensures PcOk(w, Moved(s, t, HookMove(w, s, h, c)), HookMove(w, s, h, c).next)
  {
    hide EntriesAfter, SlotAfter, ReadersAfter, WriterAfter, RecordedAfter;
    if h.Save? {
      SaveKnows(w, s, t, h, c);
    } else if h.Patch? {
      PatchKnows(w, s, t, h, c);
    } else if h.Allocate? || h.WaitExclusive? || h.CheckAgain? || h.Add? {
      PublishKnows(w, s, t, h, c);
    } else {
      EntriesStay(s, t, HookMove(w, s, h, c));
    }
  }

  lemma RestoreKnows(w: World, s: State, t: Tid, u: UnhookPc)
    requires (u.Remove? || u.Restore?) && UnhookOk(w, s, u) && TableKept(s)
    requires u.Remove? ==> TableComplete(s, Whole)
    ensures PcOk(w, Moved(s, t, UnhookMove(w, s, u)), UnhookMove(w, s, u).next)
  {
    hide EntriesAfter, SlotAfter, Complete, ReadersAfter, WriterAfter, RecordedAfter;
    var m := UnhookMove(w, s, u);
    if u.Restore? {
      EntriesGrow(s, t, m, u.e);
    } else if w.vec(u.vn) in s.table {
      EntriesGrow(s, t, m, s.table[w.vec(u.vn)]);
    }
  }

  lemma UnhookKnows(w: World, s: State, t: Tid, u: UnhookPc)
    requires UnhookOk(w, s, u) && TableKept(s)
    requires u.Remove? ==> TableComplete(s, Whole)
    requires Enabled(s, UnhookMove(w, s, u))
    ensures PcOk(w, Moved(s, t, UnhookMove(w, s, u)), UnhookMove(w, s, u).next)
  {
    hide EntriesAfter, SlotAfter, Complete, ReadersAfter, WriterAfter, RecordedAfter;
    if u.Remove? || u.Restore? {
      RestoreKnows(w, s, t, u);
    } else {
      EntriesStay(s, t, UnhookMove(w, s, u));
    }
  }

  // ----- every step, and every run -----

  lemma SafeStep(w: World, s: State, t: Tid, c: Choice, s': State)
    requires Safe(w, s) && Step(w, s, t, c, s')
    ensures Safe(w, s')
  {
    hide *;
    var pc := At(s, t);
    var m := MoveOf(w, s, pc, c);
    StepIsMove(w, s, t, c, s');
    SafeParts(w, s, t);
    MovesLock(w, s, pc, c);
    MovesRef(w, s, pc, c);
    MovesSlot(w, s, pc, c);
    LockStep(s, t, m);
    RefsStep(s, t, m);
    SlotStep(w, s, t, m);
    OrigStep(w, s, t, m);
    TableCompleteStep(w, s, t, m);
    FreshIsKept(w, s, t, c);
    forall u: Tid ensures PcOk(w, s', At(s', u)) {
      Knows(w, s, t, c, u);
    }
    SafeWhole(w, s');
  }

  lemma StepIsMove(w: World, s: State, t: Tid, c: Choice, s': State)
    requires Step(w, s, t, c, s')
    ensures var m := MoveOf(w, s, At(s, t), c); Enabled(s, m) && s' == Moved(s, t, m)
    ensures At(s, t).Idle? && c.call.Original? ==> c.call.op in HOOKS
  {
  }

  lemma SafeParts(w: World, s: State, t: Tid)
    requires Safe(w, s)
    ensures LockKept(s) && RefsKept(s) && TableKept(s) && FreshKept(s) && SlotsAt(w, s, StageNow(w, s))
    ensures OrigsKept(w, s) && TableComplete(s, StageNow(w, s)) && PcOk(w, s, At(s, t))
  {
    hide At, PcOk, LockKept, FreshKept, SlotsAt, OrigsKept, TableComplete, StageNow, TableKept, HeldBy, InTable, Holders;
  }

  lemma SafeWhole(w: World, s: State)
    requires LockKept(s) && RefsKept(s) && FreshKept(s) && SlotsAt(w, s, StageNow(w, s))
    requires OrigsKept(w, s) && TableComplete(s, StageNow(w, s)) && forall t: Tid :: PcOk(w, s, At(s, t))
    ensures Safe(w, s)
  {
    hide At, PcOk, LockKept, FreshKept, SlotsAt, OrigsKept, TableComplete, StageNow, RefsKept;
  }

  lemma FreshIsKept(w: World, s: State, t: Tid, c: Choice)
    requires Safe(w, s) && Enabled(s, MoveOf(w, s, At(s, t), c))
    ensures FreshKept(Moved(s, t, MoveOf(w, s, At(s, t), c)))
  {
    hide At, MoveOf, FreshOf, PcOk, LockKept, SlotsAt, OrigsKept, TableComplete, StageNow, HeldBy, InTable, Holders, Moved,
         RefMove, Enabled, FreshKept, TableKept, RefsKept;
    SafeParts(w, s, t);
    MovesRef(w, s, At(s, t), c);
    FreshMove(w, s, At(s, t), c);
    forall u: Tid | FreshOf(At(s, u)).Some?
      ensures FreshOf(At(s, u)).value in s.entries && !InTable(s, FreshOf(At(s, u)).value)
    {
      FreshUnpublished(w, s, At(s, u));
    }
    FreshStep(w, s, t, MoveOf(w, s, At(s, t), c));
  }

  lemma Knows(w: World, s: State, t: Tid, c: Choice, u: Tid)
    requires Safe(w, s) && Enabled(s, MoveOf(w, s, At(s, t), c))
    requires At(s, t).Idle? && c.call.Original? ==> c.call.op in HOOKS
    ensures var s' := Moved(s, t, MoveOf(w, s, At(s, t), c)); PcOk(w, s', At(s', u))
  {
    hide *;
    var m := MoveOf(w, s, At(s, t), c);
    OthersStay(s, t, m);
    if u == t {
      KnowsItself(w, s, t, c);
    } else {
      SafeParts(w, s, u);
      Apart(w, s, t, c, u);
      Undisturbed(w, s, t, m, At(s, u));
    }
  }

  /** A thread in a locked section is not disturbed in it, and nobody touches an entry it has not published. */
  lemma Apart(w: World, s: State, t: Tid, c: Choice, u: Tid)
    requires Safe(w, s) && Enabled(s, MoveOf(w, s, At(s, t), c)) && u != t
    ensures var m, pc := MoveOf(w, s, At(s, t), c), At(s, u);
            && (ModeOf(pc) != Free ==> Moved(s, t, m).table == s.table && !m.effect.Keep?)
            && (FreshOf(pc).Some? ==>
                  && !(m.effect.Keep? && Some(m.effect.e) == FreshOf(pc))
                  && !(m.effect.Insert? && Some(m.effect.e) == FreshOf(pc)))
  {
    hide At, MoveOf, PcOk, FreshOf, ModeOf, SlotsAt, OrigsKept, TableComplete, StageNow, StageOf, HeldBy, Holders, Enabled,
         EntriesAfter, SlotAfter;
    var pc := At(s, u);
    SafeParts(w, s, t);
    SafeParts(w, s, u);
    MovesLock(w, s, At(s, t), c);
    MovesRef(w, s, At(s, t), c);
    MovesSlot(w, s, At(s, t), c);
    if FreshOf(pc).Some? {
      FreshUnpublished(w, s, pc);
    }
  }

  lemma KnowsItself(w: World, s: State, t: Tid, c: Choice)
    requires Safe(w, s) && Enabled(s, MoveOf(w, s, At(s, t), c))
    requires At(s, t).Idle? && c.call.Original? ==> c.call.op in HOOKS
    ensures var m := MoveOf(w, s, At(s, t), c); PcOk(w, Moved(s, t, m), m.next)
  {
    hide At, ModeOf, StageNow, SlotsAt, OrigsKept, TableComplete, GetOk, HookOk, UnhookOk, GetMove, HookMove, UnhookMove,
         TableKept, RefsKept, FreshKept, Moved, Enabled, Safe, LockKept;
    SafeParts(w, s, t);
    OutsideLoops(w, s, t);
    match At(s, t)
    case Idle => CallKnows(w, Moved(s, t, CallMove(c.call)), c.call);
    case Asking(g) => GetKnows(w, s, t, g);
    case Hooking(h) => HookKnows(w, s, t, h, c);
    case Unhooking(u) =>
      BeforeRemoval(w, u);
      UnhookKnows(w, s, t, u);
  }

  lemma BeforeRemoval(w: World, u: UnhookPc)
    ensures u.Remove? ==> ModeOf(Unhooking(u)) == Owning && StageOf(w, Unhooking(u)) == Whole
  {
  }

  lemma CallKnows(w: World, s: State, call: Call)
    requires call.Original? ==> call.op in HOOKS
    ensures PcOk(w, s, CallMove(call).next)
  {
    if call.Original? {
      HookOf(call.op);
    }
  }

  /** A thread inside a locked section, other than in the loops, sees whole vectors. */
  lemma OutsideLoops(w: World, s: State, t: Tid)
    requires LockKept(s)
    ensures ModeOf(At(s, t)) == Sharing ==> StageNow(w, s) == Whole
    ensures ModeOf(At(s, t)) == Owning && StageOf(w, At(s, t)) == Whole ==> StageNow(w, s) == Whole
  {
    hide At, ModeOf, StageOf;
  }

  lemma InitialIsSafe(w: World, s: State)
    requires Initial(w, s)
    ensures Safe(w, s)
  {
    assert forall e :: Holders(s, e) == {};
  }

  lemma {:induction false} RunsAreSafe(w: World, states: seq<State>, i: nat)
    requires Run(w, states) && i < |states|
    ensures Safe(w, states[i])
  {
    hide Safe, Step, Initial;
    if i == 0 {
      InitialIsSafe(w, states[0]);
    } else {
      RunsAreSafe(w, states, i - 1);
      assert Next(w, states[i - 1], states[i - 1 + 1]);
      var t, c :| Step(w, states[i - 1], t, c, states[i]);
      SafeStep(w, states[i - 1], t, c, states[i]);
    }
  }

  // ----- what this means -----

  /** While nobody owns the lock, a slot holds the hook exactly when its operation is hooked and its vector is in the
      table, whose entry then keeps the file system's own function; every other slot holds that function. */
  lemma SlotsOfFreeLock(w: World, states: seq<State>, i: nat, v: Vec, op: Op)
    requires Run(w, states) && i < |states| && states[i].writer.None?
    ensures var s := states[i];
            if v in s.table && op in HOOKS
            then s.slot(v, op) == Hook(op) && s.table[v] in s.entries
                 && op in s.entries[s.table[v]].orig && s.entries[s.table[v]].orig[op] == Native(w.native(v, op))
            else s.slot(v, op) == Native(w.native(v, op))
  {
    hide Run, HeldBy, Holders, InTable, PcOk, LockKept;
    RunsAreSafe(w, states, i);
    HookOf(op);
  }

  /** A vector that is hooked and fully unhooked again is as it was. */
  lemma UnhookingRestores(w: World, states: seq<State>, i: nat, v: Vec)
    requires Run(w, states) && i < |states| && states[i].writer.None? && v !in states[i].table
    ensures forall op :: states[i].slot(v, op) == states[0].slot(v, op)
  {
    hide Next;
    forall op ensures states[i].slot(v, op) == states[0].slot(v, op) {
      SlotsOfFreeLock(w, states, i, v, op);
    }
  }

  /** The look-up gives back the file system's own function, whatever the other threads did meanwhile. */
  lemma OriginalIsNative(w: World, states: seq<State>, i: nat, t: Tid)
    requires Run(w, states) && i < |states|
    requires At(states[i], t).Asking? && At(states[i], t).g.Return?
    ensures var g := At(states[i], t).g; g.f == Some(Native(w.native(w.vec(g.vn), g.op)))
  {
    hide Run, At, HeldBy, Holders, InTable, LockKept;
    RunsAreSafe(w, states, i);
    assert PcOk(w, states[i], At(states[i], t));
  }

  /** The entry a thread is about to use. */
  function Uses(pc: Pc): Option<Eid> {
    match pc
    case Hooking(CountOld(_, _, e)) => Some(e)
    case _ => HeldBy(pc)
  }

  lemma HasOne<T>(s: set<T>, x: T)
    requires x in s
    ensures |s| >= 1
  {
    assert s == s - {x} + {x};
  }

  /** No thread uses an entry that has been freed, and the table never points to one. */
  lemma UsedEntriesLive(w: World, states: seq<State>, i: nat, e: Eid)
    requires Run(w, states) && i < |states|
    requires (exists t: Tid :: Uses(At(states[i], t)) == Some(e)) || (exists v :: v in states[i].table && states[i].table[v] == e)
    ensures e in states[i].entries && states[i].entries[e].retain >= 1
  {
    hide Run, At, HeldBy, Holders, LockKept, SlotsAt, OrigsKept, TableComplete, FreshKept, StageNow;
    var s := states[i];
    RunsAreSafe(w, states, i);
    if t: Tid :| Uses(At(s, t)) == Some(e) {
      assert PcOk(w, s, At(s, t));
      if HeldBy(At(s, t)) == Some(e) {
        IsHolder(s, t, e);
        HasOne(Holders(s, e), t);
      }
    }
  }
}
