/** What every step keeps: the lock, the reference counts, and the slots of every vector. */
module HookSafety {
  import opened Options
  import opened VopVector
  import opened HookProtocol

  // ----- the lock -----

  datatype Mode = Free | Sharing | Owning

  function ModeOf(pc: Pc): Mode {
    match pc
    case Idle => Free
    case Asking(g) =>
      if g.Look? || g.Found? || g.Missing? || g.LookAgain? || g.ReadSlot? || g.SlotRead? then Sharing else Free
    case Hooking(h) =>
      if h.LookUp? || h.CountFound? || h.UnlockFound? || h.UnlockMissing? then Sharing
      else if h.CheckAgain? || h.CountOld? || h.Add? || h.CountNew? || h.Save? || h.Patch? || h.Unlock? then Owning
      else Free
    case Unhooking(u) =>
      if u.Search? || u.NotFound? || u.UnlockSearch? then Sharing
      else if u.Recheck? || u.Release? || u.Remove? || u.Restore? || u.Finish? then Owning
      else Free
  }

  /** Readers and the writer are exactly the threads inside a locked section, and they exclude each other. */
  ghost predicate LockKept(s: State) {
    && (s.writer.Some? ==> s.readers == {})
    && (forall t: Tid :: s.writer == Some(t) <==> ModeOf(At(s, t)) == Owning)
    && (forall t: Tid :: t in s.readers <==> ModeOf(At(s, t)) == Sharing)
  }

  ghost predicate LockMove(pc: Pc, m: Move) {
    match m.effect
    case LockShared => ModeOf(pc) == Free && ModeOf(m.next) == Sharing
    case UnlockShared => ModeOf(pc) == Sharing && ModeOf(m.next) == Free
    case LockExclusive => ModeOf(pc) == Free && ModeOf(m.next) == Owning
    case UnlockExclusive => ModeOf(pc) == Owning && ModeOf(m.next) == Free
    case Keep(_, _, _) => ModeOf(pc) == Owning == ModeOf(m.next)
    case Put(_, _, _) => ModeOf(pc) == Owning == ModeOf(m.next)
    case Insert(_, _) => ModeOf(pc) == Owning == ModeOf(m.next)
    case Delete(_) => ModeOf(pc) == Owning == ModeOf(m.next)
    case _ => ModeOf(pc) == ModeOf(m.next)
  }

  lemma GetLocks(w: World, s: State, g: GetPc)
    ensures LockMove(Asking(g), GetMove(w, s, g))
  {
  }

  lemma HookLocks(w: World, s: State, h: HookPc, c: Choice)
    ensures LockMove(Hooking(h), HookMove(w, s, h, c))
  {
  }

  lemma UnhookLocks(w: World, s: State, u: UnhookPc)
    ensures LockMove(Unhooking(u), UnhookMove(w, s, u))
  {
  }

  lemma MovesLock(w: World, s: State, pc: Pc, c: Choice)
    ensures LockMove(pc, MoveOf(w, s, pc, c))
  {
    hide GetMove, HookMove, UnhookMove, ModeOf, LockMove;
    match pc
    case Idle => CallLocks(c.call);
    case Asking(g) => GetLocks(w, s, g);
    case Hooking(h) => HookLocks(w, s, h, c);
    case Unhooking(u) => UnhookLocks(w, s, u);
  }

  lemma CallLocks(call: Call)
    ensures LockMove(Idle, CallMove(call))
  {
  }

  lemma OthersStay(s: State, t: Tid, m: Move)
    ensures At(Moved(s, t, m), t) == m.next
    ensures forall u: Tid :: u != t ==> At(Moved(s, t, m), u) == At(s, u)
  {
  }

  lemma LockStep(s: State, t: Tid, m: Move)
    requires LockKept(s) && LockMove(At(s, t), m) && Enabled(s, m)
    ensures LockKept(Moved(s, t, m))
  {
    hide At, ModeOf, EntriesAfter, TableAfter, SlotAfter;
    OthersStay(s, t, m);
  }

  // ----- reference counts -----

  /** A reference a thread holds. */
  function HeldBy(pc: Pc): Option<Eid> {
    match pc
    case Idle => None
    case Asking(g) => if g.Found? || g.ReadEntry? || g.Drop? then Some(g.e) else None
    case Hooking(h) =>
      if h.CountFound? || h.UnlockFound? || h.DropFound? then Some(h.e)
      else if h.WaitExclusive? || h.CheckAgain? || h.CountOld? || h.Add? || h.CountNew? || h.Save? || h.Patch?
              || h.Unlock? || h.DropNew? then Some(h.n)
      else None
    case Unhooking(u) =>
      if u.UnlockSearch? || u.Forget? || u.CountDown? || u.DropLast? || u.AwaitExclusive? || u.Recheck? || u.Release?
         || u.Restore? then Some(u.e)
      else if u.Finish? then u.last
      else None
  }

  ghost function Holders(s: State, e: Eid): set<Tid> {
    set t | t in s.threads && HeldBy(s.threads[t]) == Some(e)
  }

  ghost predicate InTable(s: State, e: Eid) {
    e in s.entries && s.entries[e].vec in s.table && s.table[s.entries[e].vec] == e
  }

  /** The table holds an entry of the vector itself. */
  ghost predicate TableKept(s: State) {
    forall v :: v in s.table ==> s.table[v] in s.entries && s.entries[s.table[v]].vec == v
  }

  /** A reference count is the number of threads holding the entry, and one more while the table holds it. */
  ghost predicate RefsKept(s: State) {
    && TableKept(s)
    && (forall t: Tid :: HeldBy(At(s, t)).Some? ==> HeldBy(At(s, t)).value in s.entries)
    && (forall e :: e in s.entries ==> s.entries[e].retain == |Holders(s, e)| + if InTable(s, e) then 1 else 0)
  }

  ghost predicate RefMove(s: State, pc: Pc, m: Move) {
    match m.effect
    case New(e, v) => HeldBy(pc) == None && HeldBy(m.next) == Some(e)
    case Retain(e) => HeldBy(pc) == None && HeldBy(m.next) == Some(e) && InTable(s, e)
    case Let(e) => HeldBy(pc) == Some(e) && HeldBy(m.next) == None
    case Insert(v, e) =>
      HeldBy(pc) == HeldBy(m.next) == Some(e) && e in s.entries && s.entries[e].vec == v && v !in s.table
    case Delete(v) => HeldBy(pc) == None && v in s.table && HeldBy(m.next) == Some(s.table[v])
    case _ => HeldBy(pc) == HeldBy(m.next)
  }

  lemma IdleHoldsNone()
    ensures HeldBy(Idle) == None
  {
  }

  lemma IsHolder(s: State, t: Tid, e: Eid)
    ensures t in Holders(s, e) <==> HeldBy(At(s, t)) == Some(e)
  {
    hide HeldBy;
    IdleHoldsNone();
  }

  lemma HoldersMove(s: State, t: Tid, m: Move, e: Eid)
    ensures Holders(Moved(s, t, m), e) == if HeldBy(m.next) == Some(e) then Holders(s, e) + {t} else Holders(s, e) - {t}
  {
    hide HeldBy, At, Moved, Holders;
    var s' := Moved(s, t, m);
    OthersStay(s, t, m);
    forall u: Tid ensures u in Holders(s', e) <==> if u == t then HeldBy(m.next) == Some(e) else u in Holders(s, e) {
      IsHolder(s, u, e);
      IsHolder(s', u, e);
    }
  }

  lemma EntriesStay(s: State, t: Tid, m: Move)
    requires Enabled(s, m)
    ensures var s' := Moved(s, t, m);
            forall e | e in s.entries :: (
              e in s'.entries && s'.entries[e].vec == s.entries[e].vec
              && s'.entries[e] == EntryAfter(s.entries[e], e, m.effect))
    ensures forall e | e in Moved(s, t, m).entries && e !in s.entries :: (
              m.effect.New? && e == m.effect.e && Moved(s, t, m).entries[e] == Entry(m.effect.v, 1, 0, map[]))
    ensures m.effect.New? ==> m.effect.e in Moved(s, t, m).entries
  {
    hide At, ReadersAfter, WriterAfter, RecordedAfter, TableAfter, SlotAfter;
  }

  lemma TableStep(s: State, t: Tid, m: Move)
    requires TableKept(s) && RefMove(s, At(s, t), m) && Enabled(s, m)
    ensures TableKept(Moved(s, t, m))
  {
    hide At, HeldBy, EntriesAfter, ReadersAfter, WriterAfter, RecordedAfter, SlotAfter;
    EntriesStay(s, t, m);
  }

  /** The change of one entry's count. */
  lemma RefStep(s: State, t: Tid, m: Move, e: Eid)
    requires RefsKept(s) && RefMove(s, At(s, t), m) && Enabled(s, m) && e in s.entries && e in Moved(s, t, m).entries
    ensures Moved(s, t, m).entries[e].retain - s.entries[e].retain
         == (if HeldBy(m.next) == Some(e) then 1 else 0) - (if HeldBy(At(s, t)) == Some(e) then 1 else 0)
          + (if InTable(Moved(s, t, m), e) then 1 else 0) - (if InTable(s, e) then 1 else 0)
  {
    hide At, HeldBy, Holders, EntriesAfter, ReadersAfter, WriterAfter, RecordedAfter, SlotAfter;
    EntriesStay(s, t, m);
  }

  lemma NobodyHolds(s: State, e: Eid)
    requires RefsKept(s) && e !in s.entries
    ensures Holders(s, e) == {}
  {
    hide HeldBy, Holders, At;
    forall t: Tid ensures t !in Holders(s, e) {
      IsHolder(s, t, e);
    }
  }

  lemma HeldStep(s: State, t: Tid, m: Move)
    requires RefsKept(s) && RefMove(s, At(s, t), m) && Enabled(s, m)
    ensures forall u: Tid :: HeldBy(At(Moved(s, t, m), u)).Some? ==>
              HeldBy(At(Moved(s, t, m), u)).value in Moved(s, t, m).entries
  {
    hide HeldBy, Holders, At;
    EntriesStay(s, t, m);
    OthersStay(s, t, m);
  }

  lemma RefsStep(s: State, t: Tid, m: Move)
    requires RefsKept(s) && RefMove(s, At(s, t), m) && Enabled(s, m)
    ensures RefsKept(Moved(s, t, m))
  {
    hide HeldBy, Holders, InTable, Moved, At;
    var s' := Moved(s, t, m);
    TableStep(s, t, m);
    HeldStep(s, t, m);
    EntriesStay(s, t, m);
    OthersStay(s, t, m);
    forall e | e in s'.entries ensures s'.entries[e].retain == |Holders(s', e)| + if InTable(s', e) then 1 else 0 {
      HoldersMove(s, t, m, e);
      IsHolder(s, t, e);
      if e in s.entries {
        RefStep(s, t, m, e);
      } else {
        NobodyHolds(s, e);
        NewIsOutside(s, t, m);
      }
    }
  }

  lemma NewIsOutside(s: State, t: Tid, m: Move)
    requires TableKept(s) && Enabled(s, m) && m.effect.New?
    ensures !InTable(Moved(s, t, m), m.effect.e)
  {
  }
}
