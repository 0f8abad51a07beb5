/** What two overlapping unhooks lead to: wherever one takes out a vector that another waits to take out, the vector can end
    unhooked although one of its vnodes is recorded. */
module HookOverlap {
  import opened Options
  import opened VopVector
  import opened HookProtocol
  import opened HookSafety
  import opened HookSlots
  import opened HookCounting

  /** s0 leads to s in n steps. */
  ghost predicate Leads(w: World, s0: State, s: State, n: nat)
    decreases n
  {
    if n == 0 then s0 == s else exists u :: Leads(w, s0, u, n - 1) && Next(w, u, s)
  }

  lemma LeadsOn(w: World, s0: State, u: State, s: State, n: nat)
    requires Leads(w, s0, u, n) && Next(w, u, s)
    ensures Leads(w, s0, s, n + 1)
  {
    hide Next;
    assert Leads(w, s0, u, (n + 1) - 1);
  }

  /** What a run has come to. */
  datatype Point = Point(start: State, s: State, n: nat)

  ghost predicate Reached(w: World, a: Point) {
    Leads(w, a.start, a.s, a.n)
  }

  /** The choices by which every call and allocation succeeds. */
  function Choosing(call: Call, e: Eid): Choice {
    Choice(call, true, e)
  }

  ghost function Counters(s: State): map<Eid, int> {
    map e | e in s.entries :: s.entries[e].counter
  }

  function CountersAfter(counters: map<Eid, int>, f: Effect): map<Eid, int> {
    if f.New? then counters[f.e := 0]
    else if f.Count? && f.e in counters then counters[f.e := counters[f.e] + f.d]
    else counters
  }

  /** Nobody is in a locked section, and the table, counters, recorded vnodes and threads are these. */
  ghost predicate Shows(s: State, table: map<Vec, Eid>, counters: map<Eid, int>, recorded: set<Vnode>, threads: map<Tid, Pc>) {
    s.writer == None && s.readers == {} && s.table == table && Counters(s) == counters && s.recorded == recorded
    && s.threads == threads
  }

  /** One step of t, named by where it leads and what it does; base are the threads before the call. */
  lemma Do(w: World, a: Point, base: map<Tid, Pc>, t: Tid, c: Choice, next: Pc, f: Effect) returns (b: Point)
    requires Reached(w, a) && MoveOf(w, a.s, At(a.s, t), c) == Move(next, f) && Enabled(a.s, Move(next, f))
    requires c.call.HookIt? || c.call.UnhookIt?
    requires a.s.threads == base || a.s.threads == base[t := At(a.s, t)]
    ensures Reached(w, b) && b.start == a.start
    ensures b.s.threads == base[t := next] && At(b.s, t) == next
    ensures Counters(b.s) == CountersAfter(Counters(a.s), f)
    ensures b.s.table == TableAfter(a.s.table, f) && b.s.recorded == RecordedAfter(a.s.recorded, f)
    ensures b.s.writer == WriterAfter(a.s.writer, t, f) && b.s.readers == ReadersAfter(a.s.readers, t, f)
  {
    hide MoveOf, Enabled, Leads, SlotAfter, EntriesAfter;
    b := Point(a.start, Moved(a.s, t, Move(next, f)), a.n + 1);
    assert Step(w, a.s, t, c, b.s);
    LeadsOn(w, a.start, a.s, b.s, a.n);
    CountersMove(a.s.entries, f);
  }

  lemma CountersMove(entries: map<Eid, Entry>, f: Effect)
    ensures (map e | e in EntriesAfter(entries, f) :: EntriesAfter(entries, f)[e].counter)
         == CountersAfter(map e | e in entries :: entries[e].counter, f)
  {
  }

  lemma CounterIs(s: State, e: Eid)
    ensures e in Counters(s) <==> e in s.entries
    ensures e in Counters(s) ==> CounterOf(s, e) == Counters(s)[e]
  {
  }

  // ----- a call at a time -----

  lemma HookLooks(w: World, a: Point, t: Tid, vn: Vnode, e: Eid) returns (b: Point)
    requires w.regular(vn)
    requires Reached(w, a) && At(a.s, t) == Idle && a.s.writer == None && a.s.readers == {}
    ensures Reached(w, b) && b.start == a.start && At(b.s, t) == Hooking(LookUp(vn))
    ensures b.s.threads == a.s.threads[t := At(b.s, t)] && Counters(b.s) == Counters(a.s)
    ensures b.s.table == a.s.table && b.s.recorded == a.s.recorded && b.s.writer == None && b.s.readers == {t}
  {
    hide Leads, Reached, At, Counters, CounterOf, OriginalOf, GetMove, UnhookMove;
    var base := a.s.threads;
    var c := Choosing(HookIt(vn), e);
    b := Do(w, a, base, t, c, Hooking(Enter(vn)), Nothing);
    b := Do(w, b, base, t, c, Hooking(Wait(vn)), Nothing);
    b := Do(w, b, base, t, c, Hooking(LookUp(vn)), LockShared);
  }

  /** A hook that does not find the vector, up to waiting for the lock with a new entry. */
  lemma HookMisses(w: World, a: Point, t: Tid, vn: Vnode, e: Eid) returns (b: Point)
    requires w.regular(vn)
    requires Reached(w, a) && At(a.s, t) == Idle && a.s.writer == None && a.s.readers == {}
    requires w.vec(vn) !in a.s.table && e !in Counters(a.s)
    ensures Reached(w, b) && b.start == a.start
    ensures Shows(b.s, a.s.table, Counters(a.s)[e := 0], a.s.recorded, a.s.threads[t := Hooking(WaitExclusive(vn, e))])
  {
    hide Leads, Reached, At, Counters, CounterOf, OriginalOf, GetMove, UnhookMove;
    var base := a.s.threads;
    var c := Choosing(HookIt(vn), e);
    b := HookLooks(w, a, t, vn, e);
    b := Do(w, b, base, t, c, Hooking(UnlockMissing(vn)), Nothing);
    b := Do(w, b, base, t, c, Hooking(Allocate(vn)), UnlockShared);
    CounterIs(b.s, e);
    b := Do(w, b, base, t, c, Hooking(WaitExclusive(vn, e)), New(e, w.vec(vn)));
  }

  /** Unlocking, dropping the new entry's reference and recording the vnode. */
  lemma HookEnds(w: World, a: Point, base: map<Tid, Pc>, t: Tid, vn: Vnode, n: Eid) returns (b: Point)
    requires Reached(w, a) && At(a.s, t) == Hooking(Unlock(vn, n, true)) && a.s.threads == base[t := At(a.s, t)]
    requires a.s.writer == Some(t) && a.s.readers == {}
    ensures Reached(w, b) && b.start == a.start
    ensures Shows(b.s, a.s.table, Counters(a.s), a.s.recorded + {vn}, base[t := Idle])
  {
    hide Leads, Reached, At, Counters, CounterOf, OriginalOf, GetMove, UnhookMove;
    var c := Choosing(HookIt(vn), n);
    b := Do(w, a, base, t, c, Hooking(DropNew(vn, n, true)), UnlockExclusive);
    b := Do(w, b, base, t, c, Hooking(Record(vn)), Let(n));
    b := Do(w, b, base, t, c, Idle, Mark(vn));
  }

  /** A hook that finds the vector after all, counts and records its vnode. */
  lemma HookFinds(w: World, a: Point, t: Tid, vn: Vnode, n: Eid, e: Eid) returns (b: Point)
    requires Reached(w, a) && At(a.s, t) == Hooking(WaitExclusive(vn, n)) && a.s.writer == None && a.s.readers == {}
    requires w.vec(vn) in a.s.table && a.s.table[w.vec(vn)] == e && e in Counters(a.s)
    ensures Reached(w, b) && b.start == a.start
    ensures Shows(b.s, a.s.table, Counters(a.s)[e := Counters(a.s)[e] + 1], a.s.recorded + {vn}, a.s.threads[t := Idle])
  {
    hide Leads, Reached, At, Counters, CounterOf, OriginalOf, GetMove, UnhookMove;
    var base := a.s.threads;
    var c := Choosing(HookIt(vn), n);
    b := Do(w, a, base, t, c, Hooking(CheckAgain(vn, n)), LockExclusive);
    b := Do(w, b, base, t, c, Hooking(CountOld(vn, n, e)), Nothing);
    b := Do(w, b, base, t, c, Hooking(Unlock(vn, n, true)), Count(e, 1));
    b := HookEnds(w, b, base, t, vn, n);
  }

  /** The loop that patches the slots. */
  lemma {:induction false} Patches(w: World, a: Point, base: map<Tid, Pc>, t: Tid, vn: Vnode, n: Eid, i: nat) returns (b: Point)
    requires Reached(w, a) && At(a.s, t) == Hooking(Save(vn, n, i)) && i <= 13 && a.s.threads == base[t := At(a.s, t)]
    ensures Reached(w, b) && b.start == a.start
    ensures At(b.s, t) == Hooking(Unlock(vn, n, true)) && b.s.threads == base[t := At(b.s, t)] && Counters(b.s) == Counters(a.s)
    ensures b.s.table == a.s.table && b.s.recorded == a.s.recorded && b.s.writer == a.s.writer && b.s.readers == a.s.readers
    decreases 13 - i
  {
    hide Leads, Reached, At, Counters, CounterOf, OriginalOf, GetMove, UnhookMove;
    var c := Choosing(HookIt(vn), n);
    if i == 13 {
      b := Do(w, a, base, t, c, Hooking(Unlock(vn, n, true)), Nothing);
    } else {
      b := Do(w, a, base, t, c, Hooking(Patch(vn, n, i)), Keep(n, HOOKS[i], a.s.slot(w.vec(vn), HOOKS[i])));
      b := Do(w, b, base, t, c, Hooking(Save(vn, n, i + 1)), Put(w.vec(vn), HOOKS[i], Hook(HOOKS[i])));
      b := Patches(w, b, base, t, vn, n, i + 1);
    }
  }

  lemma HookPublishes(w: World, a: Point, t: Tid, vn: Vnode, n: Eid) returns (b: Point)
    requires Reached(w, a) && At(a.s, t) == Hooking(WaitExclusive(vn, n)) && a.s.writer == None && a.s.readers == {}
    requires w.vec(vn) !in a.s.table
    ensures Reached(w, b) && b.start == a.start && At(b.s, t) == Hooking(CountNew(vn, n))
    ensures b.s.threads == a.s.threads[t := At(b.s, t)] && Counters(b.s) == Counters(a.s)
    ensures b.s.table == a.s.table[w.vec(vn) := n] && b.s.recorded == a.s.recorded && b.s.writer == Some(t) && b.s.readers == {}
  {
    hide Leads, Reached, At, Counters, CounterOf, OriginalOf, GetMove, UnhookMove;
    var base := a.s.threads;
    var c := Choosing(HookIt(vn), n);
    b := Do(w, a, base, t, c, Hooking(CheckAgain(vn, n)), LockExclusive);
    b := Do(w, b, base, t, c, Hooking(Add(vn, n)), Nothing);
    b := Do(w, b, base, t, c, Hooking(CountNew(vn, n)), Insert(w.vec(vn), n));
  }

  /** A hook that adds the vector. */
  lemma HookAdds(w: World, a: Point, t: Tid, vn: Vnode, n: Eid) returns (b: Point)
    requires Reached(w, a) && At(a.s, t) == Hooking(WaitExclusive(vn, n)) && a.s.writer == None && a.s.readers == {}
    requires w.vec(vn) !in a.s.table && n in Counters(a.s) && Counters(a.s)[n] == 0
    ensures Reached(w, b) && b.start == a.start
    ensures Shows(b.s, a.s.table[w.vec(vn) := n], Counters(a.s)[n := 1], a.s.recorded + {vn}, a.s.threads[t := Idle])
  {
    hide Leads, Reached, At, Counters, CounterOf, OriginalOf, GetMove, UnhookMove;
    var base := a.s.threads;
    var c := Choosing(HookIt(vn), n);
    b := HookPublishes(w, a, t, vn, n);
    b := Do(w, b, base, t, c, Hooking(Save(vn, n, 0)), Count(n, 1));
    b := Patches(w, b, base, t, vn, n, 0);
    b := HookEnds(w, b, base, t, vn, n);
  }

  lemma UnhookSearches(w: World, a: Point, t: Tid, vn: Vnode) returns (b: Point)
    requires w.regular(vn) && vn in a.s.recorded
    requires Reached(w, a) && At(a.s, t) == Idle && a.s.writer == None && a.s.readers == {}
    ensures Reached(w, b) && b.start == a.start && At(b.s, t) == Unhooking(Search(vn))
    ensures b.s.threads == a.s.threads[t := At(b.s, t)] && Counters(b.s) == Counters(a.s)
    ensures b.s.table == a.s.table && b.s.recorded == a.s.recorded && b.s.writer == None && b.s.readers == {t}
  {
    hide Leads, Reached, At, Counters, CounterOf, OriginalOf, GetMove, HookMove;
    var base := a.s.threads;
    var c := Choosing(UnhookIt(vn), 0);
    b := Do(w, a, base, t, c, Unhooking(Begin(vn)), Nothing);
    b := Do(w, b, base, t, c, Unhooking(Await(vn)), Nothing);
    b := Do(w, b, base, t, c, Unhooking(Search(vn)), LockShared);
  }

  /** An unhook up to the count. */
  lemma UnhookForgets(w: World, a: Point, t: Tid, vn: Vnode, e: Eid) returns (b: Point)
    requires w.regular(vn)
    requires Reached(w, a) && At(a.s, t) == Idle && a.s.writer == None && a.s.readers == {}
    requires vn in a.s.recorded && w.vec(vn) in a.s.table && a.s.table[w.vec(vn)] == e
    ensures Reached(w, b) && b.start == a.start && At(b.s, t) == Unhooking(Forget(vn, e))
    ensures Shows(b.s, a.s.table, Counters(a.s), a.s.recorded, a.s.threads[t := Unhooking(Forget(vn, e))])
  {
    hide Leads, Reached, At, Counters, CounterOf, OriginalOf, GetMove, HookMove;
    var base := a.s.threads;
    var c := Choosing(UnhookIt(vn), e);
    b := UnhookSearches(w, a, t, vn);
    b := Do(w, b, base, t, c, Unhooking(UnlockSearch(vn, e)), Retain(e));
    b := Do(w, b, base, t, c, Unhooking(Forget(vn, e)), UnlockShared);
  }

  /** An unhook that counts down to zero, up to waiting for the lock. */
  lemma UnhookCountsDown(w: World, a: Point, t: Tid, vn: Vnode, e: Eid) returns (b: Point)
    requires w.regular(vn)
    requires Reached(w, a) && At(a.s, t) == Idle && a.s.writer == None && a.s.readers == {}
    requires vn in a.s.recorded && w.vec(vn) in a.s.table && a.s.table[w.vec(vn)] == e && e in Counters(a.s) && Counters(a.s)[e] == 1
    ensures Reached(w, b) && b.start == a.start
    ensures Shows(b.s, a.s.table, Counters(a.s)[e := 0], a.s.recorded - {vn}, a.s.threads[t := Unhooking(AwaitExclusive(vn, e))])
  {
    hide Leads, Reached, At, Counters, CounterOf, OriginalOf, GetMove, HookMove;
    var base := a.s.threads;
    var c := Choosing(UnhookIt(vn), e);
    b := UnhookForgets(w, a, t, vn, e);
    b := Do(w, b, base, t, c, Unhooking(CountDown(vn, e)), Unmark(vn));
    CounterIs(b.s, e);
    b := Do(w, b, base, t, c, Unhooking(AwaitExclusive(vn, e)), Count(e, -1));
  }

  lemma UnhookRechecks(w: World, a: Point, t: Tid, vn: Vnode, e: Eid) returns (b: Point)
    requires Reached(w, a) && At(a.s, t) == Unhooking(AwaitExclusive(vn, e)) && a.s.writer == None && a.s.readers == {}
    requires e in Counters(a.s) && Counters(a.s)[e] == 0
    ensures Reached(w, b) && b.start == a.start && At(b.s, t) == Unhooking(Remove(vn))
    ensures b.s.threads == a.s.threads[t := At(b.s, t)] && Counters(b.s) == Counters(a.s)
    ensures b.s.table == a.s.table && b.s.recorded == a.s.recorded && b.s.writer == Some(t) && b.s.readers == {}
  {
    hide Leads, Reached, At, Counters, CounterOf, OriginalOf, GetMove, HookMove;
    var base := a.s.threads;
    var c := Choosing(UnhookIt(vn), e);
    b := Do(w, a, base, t, c, Unhooking(Recheck(vn, e)), LockExclusive);
    CounterIs(b.s, e);
    b := Do(w, b, base, t, c, Unhooking(Release(vn, e)), Nothing);
    b := Do(w, b, base, t, c, Unhooking(Remove(vn)), Let(e));
  }

  /** It takes out whatever entry the vector has. */
  lemma UnhookTakesOut(w: World, a: Point, base: map<Tid, Pc>, t: Tid, vn: Vnode) returns (b: Point)
    requires Reached(w, a) && At(a.s, t) == Unhooking(Remove(vn)) && a.s.threads == base[t := At(a.s, t)]
    requires a.s.writer == Some(t) && a.s.readers == {} && w.vec(vn) in a.s.table
    ensures Reached(w, b) && b.start == a.start
    ensures Shows(b.s, a.s.table - {w.vec(vn)}, Counters(a.s), a.s.recorded, base[t := Idle])
  {
    hide Leads, Reached, At, Counters, CounterOf, OriginalOf, GetMove, HookMove;
    var f := a.s.table[w.vec(vn)];
    b := Do(w, a, base, t, Choosing(UnhookIt(vn), f), Unhooking(Restore(vn, f, 0)), Delete(w.vec(vn)));
    b := Restores(w, b, base, t, vn, f, 0);
    b := UnhookEnds(w, b, base, t, vn, f);
  }

  /** It finds the counter of its entry at zero, and takes out whatever entry the vector has by then. */
  lemma UnhookRemoves(w: World, a: Point, t: Tid, vn: Vnode, e: Eid) returns (b: Point)
    requires Reached(w, a) && At(a.s, t) == Unhooking(AwaitExclusive(vn, e)) && a.s.writer == None && a.s.readers == {}
    requires e in Counters(a.s) && Counters(a.s)[e] == 0 && w.vec(vn) in a.s.table
    ensures Reached(w, b) && b.start == a.start
    ensures Shows(b.s, a.s.table - {w.vec(vn)}, Counters(a.s), a.s.recorded, a.s.threads[t := Idle])
  {
    hide *;
    b := UnhookRechecks(w, a, t, vn, e);
    b := UnhookTakesOut(w, b, a.s.threads, t, vn);
  }

  lemma UnhookEnds(w: World, a: Point, base: map<Tid, Pc>, t: Tid, vn: Vnode, e: Eid) returns (b: Point)
    requires Reached(w, a) && At(a.s, t) == Unhooking(Finish(vn, Some(e))) && a.s.threads == base[t := At(a.s, t)]
    requires a.s.writer == Some(t) && a.s.readers == {}
    ensures Reached(w, b) && b.start == a.start
    ensures Shows(b.s, a.s.table, Counters(a.s), a.s.recorded, base[t := Idle])
  {
    hide Leads, Reached, At, Counters, CounterOf, OriginalOf, GetMove, HookMove;
    var c := Choosing(UnhookIt(vn), e);
    b := Do(w, a, base, t, c, Unhooking(DropLast(vn, e)), UnlockExclusive);
    b := Do(w, b, base, t, c, Idle, Let(e));
  }

  /** The loop that restores the slots. */
  lemma {:induction false} Restores(w: World, a: Point, base: map<Tid, Pc>, t: Tid, vn: Vnode, e: Eid, i: nat) returns (b: Point)
    requires Reached(w, a) && At(a.s, t) == Unhooking(Restore(vn, e, i)) && i <= 13 && a.s.threads == base[t := At(a.s, t)]
    ensures Reached(w, b) && b.start == a.start
    ensures At(b.s, t) == Unhooking(Finish(vn, Some(e))) && b.s.threads == base[t := At(b.s, t)] && Counters(b.s) == Counters(a.s)
    ensures b.s.table == a.s.table && b.s.recorded == a.s.recorded && b.s.writer == a.s.writer && b.s.readers == a.s.readers
    decreases 13 - i
  {
    hide Leads, Reached, At, Counters, CounterOf, OriginalOf, GetMove, HookMove;
    var c := Choosing(UnhookIt(vn), e);
    if i == 13 {
      b := Do(w, a, base, t, c, Unhooking(Finish(vn, Some(e))), Nothing);
    } else {
      var f := OriginalOf(a.s, e, HOOKS[i]);
      b := Do(w, a, base, t, c, Unhooking(Restore(vn, e, i + 1)), if f.Some? then Put(w.vec(vn), HOOKS[i], f.value) else Nothing);
      b := Restores(w, b, base, t, vn, e, i + 1);
    }
  }

  // ----- where an overlap leads -----

  /** The state a vnode's hooking must never be in: nobody is at work in the lock, the vnode is recorded, and its vector is
      not hooked. */
  ghost predicate Unhooked(w: World, s: State, vn: Vnode) {
    s.writer == None && s.readers == {} && vn in s.recorded && w.vec(vn) !in s.table
  }

  /** Wherever a thread takes out a vector that another waits to take out, steps of these two threads lead to a recorded
      vnode whose vector is not hooked. */
  lemma OverlapUnhooks(w: World, s: State, t: Tid, u: Tid)
    requires Safe(w, s) && Counted(w, s) && Overlaps(w, s, t, u) && At(s, t).Unhooking? && At(s, t).u.Remove?
    ensures exists s', n :: Leads(w, s, s', n) && Unhooked(w, s', At(s, t).u.vn)
  {
    hide At, Leads, Reached, Counters, Safe, Counted, Overlaps, Unhooked, Shows;
    var vn, x, e := OverlapParts(w, s, t, u);
    var a := Start(w, s);
    SamePlace(s, t);
    a := UnhookTakesOut(w, a, s.threads, t, vn);
    AfterShows(a.s, s, s.table - {w.vec(vn)}, t, u);
    a := HooksAgain(w, a, t, vn, u);
    var b := UnhookRemoves(w, a, u, x, e);
    Ends(w, b, a.s.table - {w.vec(vn)}, Counters(a.s), a.s.recorded, a.s.threads[u := Idle], vn);
  }

  lemma SamePlace(s: State, t: Tid)
    requires At(s, t) != Idle
    ensures s.threads == s.threads[t := At(s, t)]
  {
  }

  lemma AfterShows(s: State, s0: State, table: map<Vec, Eid>, t: Tid, u: Tid)
    requires Shows(s, table, Counters(s0), s0.recorded, s0.threads[t := Idle]) && u != t
    ensures At(s, t) == Idle && At(s, u) == At(s0, u)
    ensures s.writer == None && s.readers == {} && s.table == table && Counters(s) == Counters(s0)
  {
    hide Counters;
  }

  /** In such a state the second thread waits for the lock, holding the entry the first is about to take out. */
  lemma OverlapParts(w: World, s: State, t: Tid, u: Tid) returns (vn: Vnode, x: Vnode, e: Eid)
    requires Safe(w, s) && Counted(w, s) && Overlaps(w, s, t, u) && At(s, t).Unhooking? && At(s, t).u.Remove?
    ensures At(s, t) == Unhooking(Remove(vn)) && At(s, u) == Unhooking(AwaitExclusive(x, e)) && t != u
    ensures w.regular(vn) && w.vec(x) == w.vec(vn) && s.writer == Some(t) && s.readers == {}
    ensures w.vec(vn) in s.table && e in Counters(s) && Counters(s)[e] == 0
  {
    hide At, CountsKept, RefsKept, FreshKept, SlotsAt, OrigsKept, TableComplete, StageNow, Counters;
    CountedParts(w, s, t);
    CountedParts(w, s, u);
    SafeParts(w, s, t);
    vn := At(s, t).u.vn;
    assert ModeOf(At(s, t)) == Owning;
    OnlyOne(s, t, u);
    assert At(s, u).u.AwaitExclusive?;
    x, e := At(s, u).u.vn, At(s, u).u.e;
    CounterIs(s, e);
  }

  /** The first thread, back from unhooking, hooks the vector again for its vnode. */
  lemma HooksAgain(w: World, a: Point, t: Tid, vn: Vnode, u: Tid) returns (b: Point)
    requires Reached(w, a) && At(a.s, t) == Idle && a.s.writer == None && a.s.readers == {} && u != t
    requires w.regular(vn) && w.vec(vn) !in a.s.table
    ensures Reached(w, b) && b.start == a.start && b.s.writer == None && b.s.readers == {}
    ensures At(b.s, u) == At(a.s, u) && vn in b.s.recorded && w.vec(vn) in b.s.table
    ensures forall e :: e in Counters(a.s) ==> e in Counters(b.s) && Counters(b.s)[e] == Counters(a.s)[e]
  {
    hide Leads, Reached, Counters;
    var n := Unused(Counters(a.s).Keys);
    b := HookMisses(w, a, t, vn, n);
    b := HookAdds(w, b, t, vn, n);
  }

  /** There is always a new address for an entry. */
  lemma {:induction false} Unused(used: set<Eid>) returns (n: Eid)
    ensures forall e :: e in used ==> e < n
  {
    n := 0;
    if used != {} {
      var x :| x in used;
      assert used == used - {x} + {x};
      n := Unused(used - {x});
      n := if x < n then n else x + 1;
    }
  }

  // ----- a run that overlaps -----

  /** One vector, whose vnodes are all regular files. */
  const ONE := World((v: Vec, op: Op) => 0, (vn: Vnode) => 0, (vn: Vnode) => true)

  /** Two threads and two vnodes are enough to get from the start to a recorded vnode whose vector is not hooked. */
  lemma RecordedVnodeUnhooked()
    ensures exists s0, s, n :: Initial(ONE, s0) && Leads(ONE, s0, s, n) && Unhooked(ONE, s, 1)
  {
    hide Leads, Reached, Counters;
    var s0 := State((v: Vec, op: Op) => Native(0), map[], map[], {}, None, {}, map[]);
    var a := Start(ONE, s0);
    assert Counters(s0) == map[] by {
      NoCounters(s0);
    }
    a := HookMisses(ONE, a, 1, 1, 10);
    a := HookMisses(ONE, a, 2, 2, 20);
    a := HookAdds(ONE, a, 1, 1, 10);
    a := UnhookCountsDown(ONE, a, 1, 1, 10);
    a := HookFinds(ONE, a, 2, 2, 20, 10);
    a := UnhookCountsDown(ONE, a, 2, 2, 10);
    a := UnhookRemoves(ONE, a, 1, 1, 10);
    a := HookMisses(ONE, a, 1, 1, 30);
    a := HookAdds(ONE, a, 1, 1, 30);
    a := UnhookRemoves(ONE, a, 2, 2, 10);
    assert Initial(ONE, s0) && Leads(ONE, s0, a.s, a.n) by {
      IsReached(ONE, a);
    }
  }

  lemma IsReached(w: World, a: Point)
    requires Reached(w, a)
    ensures Leads(w, a.start, a.s, a.n)
  {
  }

  lemma Ends(w: World, a: Point, table: map<Vec, Eid>, counters: map<Eid, int>, recorded: set<Vnode>, base: map<Tid, Pc>, vn: Vnode)
    requires Reached(w, a) && Shows(a.s, table, counters, recorded, base) && vn in recorded && w.vec(vn) !in table
    ensures Leads(w, a.start, a.s, a.n) && Unhooked(w, a.s, vn)
  {
    hide Leads;
  }

  lemma NoCounters(s: State)
    requires s.entries == map[]
    ensures Counters(s) == map[]
  {
  }

  lemma Start(w: World, s0: State) returns (a: Point)
    ensures a == Point(s0, s0, 0) && Reached(w, a)
  {
    a := Point(s0, s0, 0);
  }
}
