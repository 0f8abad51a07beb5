/** Hooking, unhooking and looking up a file system's functions, as interleaved steps of any number of threads. */
module HookProtocol {
  import opened Options
  import opened VopVector

  type Tid = nat
  type Vec = nat
  type Vnode = nat
  type Eid = nat

  /** What does not change: the functions each vector came with, each vnode's vector, which vnodes are regular files. */
  datatype World = World(native: (Vec, Op) -> nat, vec: Vnode -> Vec, regular: Vnode -> bool)

  /** An entry of the table of hooked vectors. retain is its reference count: at 0 the entry is gone. */
  datatype Entry = Entry(vec: Vec, retain: int, counter: int, orig: map<Op, Func>)

  /** Where a thread is in the function that gives back the file system's own operation. */
  datatype GetPc =
    | Ask(vn: Vnode, op: Op)
    | Look(vn: Vnode, op: Op)
    | Found(vn: Vnode, op: Op, e: Eid)
    | Missing(vn: Vnode, op: Op)
    | AskAgain(vn: Vnode, op: Op)
    | LookAgain(vn: Vnode, op: Op)
    | ReadSlot(vn: Vnode, op: Op)
    | SlotRead(vn: Vnode, op: Op, f: Option<Func>)
    | ReadEntry(vn: Vnode, op: Op, e: Eid)
    | Drop(vn: Vnode, op: Op, e: Eid, f: Option<Func>)
    | Return(vn: Vnode, op: Op, f: Option<Func>)

  /** Where a thread is in hooking; n is the entry it has allocated. */
  datatype HookPc =
    | Enter(vn: Vnode)
    | Wait(vn: Vnode)
    | LookUp(vn: Vnode)
    | CountFound(vn: Vnode, e: Eid)
    | UnlockFound(vn: Vnode, e: Eid)
    | DropFound(vn: Vnode, e: Eid)
    | UnlockMissing(vn: Vnode)
    | Allocate(vn: Vnode)
    | WaitExclusive(vn: Vnode, n: Eid)
    | CheckAgain(vn: Vnode, n: Eid)
    | CountOld(vn: Vnode, n: Eid, e: Eid)
    | Add(vn: Vnode, n: Eid)
    | CountNew(vn: Vnode, n: Eid)
    | Save(vn: Vnode, n: Eid, i: nat)
    | Patch(vn: Vnode, n: Eid, i: nat)
    | Unlock(vn: Vnode, n: Eid, ok: bool)
    | DropNew(vn: Vnode, n: Eid, ok: bool)
    | Record(vn: Vnode)

  /** Where a thread is in unhooking. */
  datatype UnhookPc =
    | Begin(vn: Vnode)
    | Await(vn: Vnode)
    | Search(vn: Vnode)
    | NotFound(vn: Vnode)
    | UnlockSearch(vn: Vnode, e: Eid)
    | Forget(vn: Vnode, e: Eid)
    | CountDown(vn: Vnode, e: Eid)
    | DropLast(vn: Vnode, e: Eid)
    | AwaitExclusive(vn: Vnode, e: Eid)
    | Recheck(vn: Vnode, e: Eid)
    | Release(vn: Vnode, e: Eid)
    | Remove(vn: Vnode)
    | Restore(vn: Vnode, e: Eid, i: nat)
    | Finish(vn: Vnode, last: Option<Eid>)

  datatype Pc = Idle | Asking(g: GetPc) | Hooking(h: HookPc) | Unhooking(u: UnhookPc)

  datatype State = State(
    slot: (Vec, Op) -> Func,
    table: map<Vec, Eid>,
    entries: map<Eid, Entry>,
    recorded: set<Vnode>,
    writer: Option<Tid>,
    readers: set<Tid>,
    threads: map<Tid, Pc>)

  function At(s: State, t: Tid): Pc {
    if t in s.threads then s.threads[t] else Idle
  }

  // ----- the moves of one thread -----

  /** What a move does to the shared state. */
  datatype Effect =
    | Nothing
    | LockShared | UnlockShared | LockExclusive | UnlockExclusive
    | New(e: Eid, v: Vec)
    | Retain(e: Eid) | Let(e: Eid)
    | Count(e: Eid, d: int)
    | Keep(e: Eid, op: Op, f: Func)
    | Put(v: Vec, op: Op, f: Func)
    | Insert(v: Vec, e: Eid) | Delete(v: Vec)
    | Mark(vn: Vnode) | Unmark(vn: Vnode)

  datatype Move = Move(next: Pc, effect: Effect)

  datatype Call = Original(vn: Vnode, op: Op) | HookIt(vn: Vnode) | UnhookIt(vn: Vnode)

  /** What the code does not decide: the next call, whether an allocation or insertion succeeds (and whether a vnode
      is being recycled), and the address of a new entry. */
  datatype Choice = Choice(call: Call, ok: bool, unused: Eid)

  function GetMove(w: World, s: State, g: GetPc): Move {
    match g
    case Ask(vn, op) => Move(Asking(Look(vn, op)), LockShared)
    case Look(vn, op) =>
      if w.vec(vn) in s.table then Move(Asking(Found(vn, op, s.table[w.vec(vn)])), Retain(s.table[w.vec(vn)]))
      else Move(Asking(Missing(vn, op)), Nothing)
    case Found(vn, op, e) => Move(Asking(ReadEntry(vn, op, e)), UnlockShared)
    case Missing(vn, op) => Move(Asking(AskAgain(vn, op)), UnlockShared)
    case AskAgain(vn, op) => Move(Asking(LookAgain(vn, op)), LockShared)
    case LookAgain(vn, op) =>
      if w.vec(vn) in s.table then Move(Asking(Found(vn, op, s.table[w.vec(vn)])), Retain(s.table[w.vec(vn)]))
      else Move(Asking(ReadSlot(vn, op)), Nothing)
    case ReadSlot(vn, op) => Move(Asking(SlotRead(vn, op, Some(s.slot(w.vec(vn), op)))), Nothing)
    case SlotRead(vn, op, f) => Move(Asking(Return(vn, op, f)), UnlockShared)
    case ReadEntry(vn, op, e) => Move(Asking(Drop(vn, op, e, OriginalOf(s, e, op))), Nothing)
    case Drop(vn, op, e, f) => Move(Asking(Return(vn, op, f)), Let(e))
    case Return(vn, op, f) => Move(Idle, Nothing)
  }

  function OriginalOf(s: State, e: Eid, op: Op): Option<Func> {
    if e in s.entries && op in s.entries[e].orig then Some(s.entries[e].orig[op]) else None
  }

  function CounterOf(s: State, e: Eid): int {
    if e in s.entries then s.entries[e].counter else 0
  }

  function HookMove(w: World, s: State, h: HookPc, c: Choice): Move {
    match h
    case Enter(vn) => Move(if c.ok && w.regular(vn) then Hooking(Wait(vn)) else Idle, Nothing)
    case Wait(vn) => Move(Hooking(LookUp(vn)), LockShared)
    case LookUp(vn) =>
      if w.vec(vn) in s.table then Move(Hooking(CountFound(vn, s.table[w.vec(vn)])), Retain(s.table[w.vec(vn)]))
      else Move(Hooking(UnlockMissing(vn)), Nothing)
    case CountFound(vn, e) => Move(Hooking(UnlockFound(vn, e)), Count(e, 1))
    case UnlockFound(vn, e) => Move(Hooking(DropFound(vn, e)), UnlockShared)
    case DropFound(vn, e) => Move(Idle, Let(e))
    case UnlockMissing(vn) => Move(Hooking(Allocate(vn)), UnlockShared)
    case Allocate(vn) =>
      if c.ok then Move(Hooking(WaitExclusive(vn, c.unused)), New(c.unused, w.vec(vn))) else Move(Idle, Nothing)
    case WaitExclusive(vn, n) => Move(Hooking(CheckAgain(vn, n)), LockExclusive)
    case CheckAgain(vn, n) =>
      Move(Hooking(if w.vec(vn) in s.table then CountOld(vn, n, s.table[w.vec(vn)]) else Add(vn, n)), Nothing)
    case CountOld(vn, n, e) => Move(Hooking(Unlock(vn, n, true)), Count(e, 1))
    case Add(vn, n) =>
      if c.ok then Move(Hooking(CountNew(vn, n)), Insert(w.vec(vn), n)) else Move(Hooking(Unlock(vn, n, false)), Nothing)
    case CountNew(vn, n) => Move(Hooking(Save(vn, n, 0)), Count(n, 1))
    case Save(vn, n, i) =>
      if i < |HOOKS| then Move(Hooking(Patch(vn, n, i)), Keep(n, HOOKS[i], s.slot(w.vec(vn), HOOKS[i])))
      else Move(Hooking(Unlock(vn, n, true)), Nothing)
    case Patch(vn, n, i) =>
      if i < |HOOKS| then Move(Hooking(Save(vn, n, i + 1)), Put(w.vec(vn), HOOKS[i], Hook(HOOKS[i])))
      else Move(Hooking(Unlock(vn, n, true)), Nothing)
    case Unlock(vn, n, ok) => Move(Hooking(DropNew(vn, n, ok)), UnlockExclusive)
    case DropNew(vn, n, ok) => Move(if ok then Hooking(Record(vn)) else Idle, Let(n))
    case Record(vn) => Move(Idle, if c.ok then Mark(vn) else Nothing)
  }

  function UnhookMove(w: World, s: State, u: UnhookPc): Move {
    match u
    case Begin(vn) => Move(if w.regular(vn) && vn in s.recorded then Unhooking(Await(vn)) else Idle, Nothing)
    case Await(vn) => Move(Unhooking(Search(vn)), LockShared)
    case Search(vn) =>
      if w.vec(vn) in s.table then Move(Unhooking(UnlockSearch(vn, s.table[w.vec(vn)])), Retain(s.table[w.vec(vn)]))
      else Move(Unhooking(NotFound(vn)), Nothing)
    case NotFound(vn) => Move(Idle, UnlockShared)
    case UnlockSearch(vn, e) => Move(Unhooking(Forget(vn, e)), UnlockShared)
    case Forget(vn, e) => Move(Unhooking(CountDown(vn, e)), Unmark(vn))
    case CountDown(vn, e) =>
      Move(Unhooking(if CounterOf(s, e) != 1 then DropLast(vn, e) else AwaitExclusive(vn, e)), Count(e, -1))
    case DropLast(vn, e) => Move(Idle, Let(e))
    case AwaitExclusive(vn, e) => Move(Unhooking(Recheck(vn, e)), LockExclusive)
    case Recheck(vn, e) => Move(Unhooking(if CounterOf(s, e) != 0 then Finish(vn, Some(e)) else Release(vn, e)), Nothing)
    case Release(vn, e) => Move(Unhooking(Remove(vn)), Let(e))
    case Remove(vn) =>
      if w.vec(vn) in s.table then Move(Unhooking(Restore(vn, s.table[w.vec(vn)], 0)), Delete(w.vec(vn)))
      else Move(Unhooking(Finish(vn, None)), Nothing)
    case Restore(vn, e, i) =>
      if i < |HOOKS| then
        match OriginalOf(s, e, HOOKS[i]) {
          case Some(f) => Move(Unhooking(Restore(vn, e, i + 1)), Put(w.vec(vn), HOOKS[i], f))
          case None => Move(Unhooking(Restore(vn, e, i + 1)), Nothing)
        }
      else Move(Unhooking(Finish(vn, Some(e))), Nothing)
    case Finish(vn, e) => Move(if e.Some? then Unhooking(DropLast(vn, e.value)) else Idle, UnlockExclusive)
  }

  /** A call of the look-up names a hooked operation. */
  function CallMove(call: Call): Move {
    match call
    case Original(vn, op) => Move(Asking(Ask(vn, op)), Nothing)
    case HookIt(vn) => Move(Hooking(Enter(vn)), Nothing)
    case UnhookIt(vn) => Move(Unhooking(Begin(vn)), Nothing)
  }

  function MoveOf(w: World, s: State, pc: Pc, c: Choice): Move {
    match pc
    case Idle => CallMove(c.call)
    case Asking(g) => GetMove(w, s, g)
    case Hooking(h) => HookMove(w, s, h, c)
    case Unhooking(u) => UnhookMove(w, s, u)
  }

  /** The lock is taken only when it is free for that use, and an allocated entry is a new one. */
  predicate Enabled(s: State, m: Move) {
    match m.effect
    case LockShared => s.writer.None?
    case LockExclusive => s.writer.None? && s.readers == {}
    case New(e, _) => e !in s.entries
    case _ => true
  }

  function EntryAfter(n: Entry, e: Eid, f: Effect): Entry {
    match f
    case Retain(x) => if x == e then n.(retain := n.retain + 1) else n
    case Insert(_, x) => if x == e then n.(retain := n.retain + 1) else n
    case Let(x) => if x == e then n.(retain := n.retain - 1) else n
    case Count(x, d) => if x == e then n.(counter := n.counter + d) else n
    case Keep(x, op, g) => if x == e then n.(orig := n.orig[op := g]) else n
    case _ => n
  }

  function EntriesAfter(entries: map<Eid, Entry>, f: Effect): map<Eid, Entry> {
    var changed := map e | e in entries :: EntryAfter(entries[e], e, f);
    if f.New? then changed[f.e := Entry(f.v, 1, 0, map[])] else changed
  }

  function TableAfter(table: map<Vec, Eid>, f: Effect): map<Vec, Eid> {
    if f.Insert? then table[f.v := f.e] else if f.Delete? then table - {f.v} else table
  }

  function SlotAfter(slot: (Vec, Op) -> Func, f: Effect): (Vec, Op) -> Func {
    if f.Put? then (v: Vec, op: Op) => if v == f.v && op == f.op then f.f else slot(v, op) else slot
  }

  function RecordedAfter(recorded: set<Vnode>, f: Effect): set<Vnode> {
    if f.Mark? then recorded + {f.vn} else if f.Unmark? then recorded - {f.vn} else recorded
  }

  function WriterAfter(writer: Option<Tid>, t: Tid, f: Effect): Option<Tid> {
    if f.LockExclusive? then Some(t) else if f.UnlockExclusive? then None else writer
  }

  function ReadersAfter(readers: set<Tid>, t: Tid, f: Effect): set<Tid> {
    if f.LockShared? then readers + {t} else if f.UnlockShared? then readers - {t} else readers
  }

  function Moved(s: State, t: Tid, m: Move): State {
    State(
      SlotAfter(s.slot, m.effect),
      TableAfter(s.table, m.effect),
      EntriesAfter(s.entries, m.effect),
      RecordedAfter(s.recorded, m.effect),
      WriterAfter(s.writer, t, m.effect),
      ReadersAfter(s.readers, t, m.effect),
      s.threads[t := m.next])
  }

  /** One step of thread t. */
  ghost predicate Step(w: World, s: State, t: Tid, c: Choice, s': State) {
    var m := MoveOf(w, s, At(s, t), c);
    (At(s, t).Idle? && c.call.Original? ==> c.call.op in HOOKS) && Enabled(s, m) && s' == Moved(s, t, m)
  }

  ghost predicate Initial(w: World, s: State) {
    && (forall v, op :: s.slot(v, op) == Native(w.native(v, op)))
    && s.table == map[] && s.entries == map[] && s.recorded == {}
    && s.writer == None && s.readers == {} && s.threads == map[]
  }

  /** A run: a state, and after each step another. */
  ghost predicate Run(w: World, states: seq<State>) {
    && |states| > 0
    && Initial(w, states[0])
    && forall i :: 0 <= i < |states| - 1 ==> Next(w, states[i], states[i + 1])
  }

  ghost predicate Next(w: World, s: State, s': State) {
    exists t, c :: Step(w, s, t, c, s')
  }
}
