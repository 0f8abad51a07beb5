/** The vnode counter told by the calls: how many hook calls have counted a vector up, and how many unhook calls down. */
module HookTally {
  import opened Options
  import opened VopVector
  import opened HookProtocol
  import opened HookSafety
  import opened HookSlots
  import opened HookCounting

  /** Who makes a step, and what is chosen in it. */
  datatype Label = Label(t: Tid, c: Choice)

  /** A run with its steps. */
  ghost predicate Trace(w: World, states: seq<State>, steps: seq<Label>) {
    && |states| == |steps| + 1 && Initial(w, states[0])
    && forall i :: 0 <= i < |steps| ==> Step(w, states[i], steps[i].t, steps[i].c, states[i + 1])
  }

  lemma TraceIsRun(w: World, states: seq<State>, steps: seq<Label>)
    requires Trace(w, states, steps)
    ensures Run(w, states)
  {
    hide Initial, Step;
    forall i | 0 <= i < |states| - 1 ensures Next(w, states[i], states[i + 1]) {
      assert Step(w, states[i], steps[i].t, steps[i].c, states[i + 1]);
    }
  }

  /** Every run has such steps. */
  lemma {:induction false} RunIsTrace(w: World, states: seq<State>) returns (steps: seq<Label>)
    requires Run(w, states)
    ensures Trace(w, states, steps)
    decreases |states|
  {
    hide Initial, Step;
    var n := |states| - 1;
    if n == 0 {
      steps := [];
    } else {
      var before := states[..n];
      forall i | 0 <= i < |before| - 1 ensures Next(w, before[i], before[i + 1]) {
        assert Next(w, states[i], states[i + 1]);
      }
      steps := RunIsTrace(w, before);
      assert Next(w, states[n - 1], states[n - 1 + 1]);
      var t, c :| Step(w, states[n - 1], t, c, states[n]);
      steps := steps + [Label(t, c)];
    }
  }

  lemma TraceStep(w: World, states: seq<State>, steps: seq<Label>, j: nat)
    requires Trace(w, states, steps) && j < |steps|
    ensures |states| == |steps| + 1 && Run(w, states) && Safe(w, states[j])
    ensures Step(w, states[j], steps[j].t, steps[j].c, states[j + 1])
  {
    hide Initial, Step, Safe;
    TraceIsRun(w, states, steps);
    RunsAreSafe(w, states, j);
    assert Step(w, states[j], steps[j].t, steps[j].c, states[j + 1]);
  }

  lemma LastIndex(w: World, states: seq<State>, steps: seq<Label>)
    requires Trace(w, states, steps)
    ensures |states| == |steps| + 1
  {
  }

  // ----- the calls -----

  /** A hook call past its count: it is going to tell its caller that the vnode's vector is hooked. */
  predicate HookDone(pc: Pc) {
    pc.Hooking?
    && (pc.h.UnlockFound? || pc.h.DropFound? || pc.h.Save? || pc.h.Patch? || (pc.h.Unlock? && pc.h.ok)
        || (pc.h.DropNew? && pc.h.ok) || pc.h.Record?)
  }

  /** An unhook call past its count-down. */
  predicate UnhookDone(pc: Pc) {
    pc.Unhooking?
    && (pc.u.DropLast? || pc.u.AwaitExclusive? || pc.u.Recheck? || pc.u.Release? || pc.u.Remove? || pc.u.Restore? || pc.u.Finish?)
  }

  /** A hook call on a vector gets past its count. */
  predicate Hooks(w: World, pc: Pc, next: Pc, v: Vec) {
    !HookDone(pc) && HookDone(next) && w.vec(next.h.vn) == v
  }

  /** An unhook call that holds an entry gets past its count-down. */
  predicate Unhooks(pc: Pc, next: Pc, e: Eid) {
    !UnhookDone(pc) && UnhookDone(next) && HeldBy(next) == Some(e)
  }

  /** How many hook calls on v have got past their count between states a and b. */
  ghost function HookCalls(w: World, states: seq<State>, steps: seq<Label>, a: nat, b: nat, v: Vec): nat
    requires a <= b < |states| == |steps| + 1
  {
    if a == b then 0
    else HookCalls(w, states, steps, a, b - 1, v)
         + if Hooks(w, At(states[b - 1], steps[b - 1].t), At(states[b], steps[b - 1].t), v) then 1 else 0
  }

  /** How many unhook calls that hold e have got past their count-down between states a and b. */
  ghost function UnhookCalls(states: seq<State>, steps: seq<Label>, a: nat, b: nat, e: Eid): nat
    requires a <= b < |states| == |steps| + 1
  {
    if a == b then 0
    else UnhookCalls(states, steps, a, b - 1, e)
         + if Unhooks(At(states[b - 1], steps[b - 1].t), At(states[b], steps[b - 1].t), e) then 1 else 0
  }

  // ----- a step counts as its call says -----

  /** What a move should do to the counter of the entry e of vector v. */
  ghost predicate TallyMove(w: World, s: State, pc: Pc, m: Move) {
    forall v | v in s.table ::
      (if m.effect.Count? && m.effect.e == s.table[v] then m.effect.d else 0)
      == (if Hooks(w, pc, m.next, v) then 1 else 0) - (if Unhooks(pc, m.next, s.table[v]) then 1 else 0)
  }

  lemma GetTallies(w: World, s: State, g: GetPc)
    ensures TallyMove(w, s, Asking(g), GetMove(w, s, g))
  {
  }

  lemma HookCountTallies(w: World, s: State, h: HookPc, c: Choice)
    requires HookOk(w, s, h) && TableKept(s) && (h.CountFound? || h.CountOld? || h.CountNew?)
    ensures TallyMove(w, s, Hooking(h), HookMove(w, s, h, c))
  {
    hide SavedTo;
  }

  lemma HookOtherTallies(w: World, s: State, h: HookPc, c: Choice)
    requires !(h.CountFound? || h.CountOld? || h.CountNew?)
    ensures TallyMove(w, s, Hooking(h), HookMove(w, s, h, c))
  {
  }

  lemma HookTallies(w: World, s: State, h: HookPc, c: Choice)
    requires HookOk(w, s, h) && TableKept(s)
    ensures TallyMove(w, s, Hooking(h), HookMove(w, s, h, c))
  {
    hide TallyMove, HookOk, HookMove, TableKept;
    if h.CountFound? || h.CountOld? || h.CountNew? {
      HookCountTallies(w, s, h, c);
    } else {
      HookOtherTallies(w, s, h, c);
    }
  }

  lemma UnhookTallies(w: World, s: State, u: UnhookPc)
    requires UnhookOk(w, s, u) && TableKept(s)
    ensures TallyMove(w, s, Unhooking(u), UnhookMove(w, s, u))
  {
    hide Complete;
  }

  lemma CallTallies(w: World, s: State, call: Call)
    ensures TallyMove(w, s, Idle, CallMove(call))
  {
  }

  lemma MovesTally(w: World, s: State, pc: Pc, c: Choice)
    requires PcOk(w, s, pc) && TableKept(s)
    ensures TallyMove(w, s, pc, MoveOf(w, s, pc, c))
  {
    hide GetMove, HookMove, UnhookMove, CallMove, TableKept, TallyMove, GetOk, HookOk, UnhookOk;
    match pc
    case Idle => CallTallies(w, s, c.call);
    case Asking(g) => GetTallies(w, s, g);
    case Hooking(h) => HookTallies(w, s, h, c);
    case Unhooking(u) => UnhookTallies(w, s, u);
  }

  lemma CounterMoves(s: State, t: Tid, m: Move, e: Eid)
    requires Enabled(s, m) && e in s.entries
    ensures e in Moved(s, t, m).entries
    ensures CounterOf(Moved(s, t, m), e) == CounterOf(s, e) + if m.effect.Count? && m.effect.e == e then m.effect.d else 0
  {
    hide EntriesAfter, TableAfter, SlotAfter;
    EntriesStay(s, t, m);
  }

  lemma CounterStep(w: World, s: State, l: Label, s': State, v: Vec)
    requires Safe(w, s) && Step(w, s, l.t, l.c, s') && v in s.table
    ensures CounterOf(s', s.table[v]) - CounterOf(s, s.table[v])
         == (if Hooks(w, At(s, l.t), At(s', l.t), v) then 1 else 0) - (if Unhooks(At(s, l.t), At(s', l.t), s.table[v]) then 1 else 0)
  {
    hide Safe, Step, MoveOf, Moved, CounterOf, PcOk, At, Hooks, Unhooks, Enabled;
    var m := MoveOf(w, s, At(s, l.t), l.c);
    StepIsMove(w, s, l.t, l.c, s');
    SafeParts(w, s, l.t);
    MovesTally(w, s, At(s, l.t), l.c);
    CounterMoves(s, l.t, m, s.table[v]);
    OthersStay(s, l.t, m);
  }

  /** While an entry stays in the table, its counter changes by the hook calls on its vector that have got past their count,
      less the unhook calls with that entry that have got past their count-down. */
  lemma {:induction false} CounterIsTally(w: World, states: seq<State>, steps: seq<Label>, a: nat, b: nat, v: Vec, e: Eid)
    requires Trace(w, states, steps) && a <= b < |states|
    requires forall j :: a <= j <= b ==> v in states[j].table && states[j].table[v] == e
    ensures CounterOf(states[b], e)
         == CounterOf(states[a], e) + HookCalls(w, states, steps, a, b, v) - UnhookCalls(states, steps, a, b, e)
    decreases b - a
  {
    hide Trace, Step, Safe, CounterOf, Hooks, Unhooks, At;
    LastIndex(w, states, steps);
    if a < b {
      CounterIsTally(w, states, steps, a, b - 1, v, e);
      TraceStep(w, states, steps, b - 1);
      CounterStep(w, states[b - 1], steps[b - 1], states[b], v);
    }
  }

  // ----- an entry enters the table with its counter at zero -----

  ghost predicate FreshUncounted(s: State) {
    forall t: Tid :: FreshOf(At(s, t)).Some? ==> CounterOf(s, FreshOf(At(s, t)).value) == 0
  }

  /** Counting is done on entries of the table, or on one the thread holds, and never on one it has not published. */
  lemma CountsKnown(w: World, s: State, pc: Pc, c: Choice)
    requires PcOk(w, s, pc)
    ensures var m := MoveOf(w, s, pc, c); m.effect.Count? ==> FreshOf(pc) == None && (InTable(s, m.effect.e) || HeldBy(pc) == Some(m.effect.e))
  {
    hide SavedTo, Complete;
  }

  lemma FreshUncountedStep(w: World, s: State, l: Label, s': State)
    requires Safe(w, s) && Step(w, s, l.t, l.c, s') && FreshUncounted(s)
    ensures FreshUncounted(s')
  {
    hide Safe, Step, MoveOf, Moved, CounterOf, PcOk, At, FreshOf, HeldBy, InTable, RefsKept, TableKept, LockKept, SlotsAt, OrigsKept,
         TableComplete, StageNow;
    var m := MoveOf(w, s, At(s, l.t), l.c);
    StepIsMove(w, s, l.t, l.c, s');
    SafeParts(w, s, l.t);
    CountsKnown(w, s, At(s, l.t), l.c);
    FreshMove(w, s, At(s, l.t), l.c);
    OthersStay(s, l.t, m);
    forall t: Tid | FreshOf(At(s', t)).Some? ensures CounterOf(s', FreshOf(At(s', t)).value) == 0 {
      if FreshOf(At(s', t)) == FreshOf(At(s, t)) {
        SafeParts(w, s, t);
        FreshUnpublished(w, s, At(s, t));
        CounterMoves(s, l.t, m, FreshOf(At(s, t)).value);
      } else {
        NewIsUncounted(s, l.t, m);
      }
    }
  }

  lemma NewIsUncounted(s: State, t: Tid, m: Move)
    requires Enabled(s, m) && m.effect.New?
    ensures CounterOf(Moved(s, t, m), m.effect.e) == 0
  {
  }

  lemma {:induction false} FreshIsUncounted(w: World, states: seq<State>, steps: seq<Label>, i: nat)
    requires Trace(w, states, steps) && i < |states|
    ensures FreshUncounted(states[i])
  {
    hide Initial, Step, FreshUncounted;
    if i == 0 {
      NothingFresh(w, states[0]);
    } else {
      FreshIsUncounted(w, states, steps, i - 1);
      TraceIsRun(w, states, steps);
      RunsAreSafe(w, states, i - 1);
      assert Step(w, states[i - 1], steps[i - 1].t, steps[i - 1].c, states[i - 1 + 1]);
      FreshUncountedStep(w, states[i - 1], steps[i - 1], states[i]);
    }
  }

  lemma NothingFresh(w: World, s: State)
    requires Initial(w, s)
    ensures FreshUncounted(s)
  {
  }

  /** What enters the table is an entry that was not published. */
  lemma InsertsFresh(w: World, s: State, pc: Pc, c: Choice)
    ensures var m := MoveOf(w, s, pc, c); m.effect.Insert? ==> FreshOf(pc) == Some(m.effect.e)
  {
  }

  lemma OnlyInsertAdds(s: State, t: Tid, m: Move, v: Vec)
    ensures var s' := Moved(s, t, m);
            v in s'.table && !(v in s.table && s.table[v] == s'.table[v]) ==>
              m.effect.Insert? && v == m.effect.v && s'.table[v] == m.effect.e
  {
    hide EntriesAfter, SlotAfter;
  }

  /** An entry's counter is zero when it enters the table. */
  lemma EntersAtZero(w: World, s: State, l: Label, s': State, v: Vec)
    requires Safe(w, s) && Step(w, s, l.t, l.c, s') && FreshUncounted(s)
    requires v in s'.table && !(v in s.table && s.table[v] == s'.table[v])
    ensures CounterOf(s', s'.table[v]) == 0
  {
    hide Safe, Step, MoveOf, Moved, CounterOf, PcOk, At, FreshOf;
    var m := MoveOf(w, s, At(s, l.t), l.c);
    StepIsMove(w, s, l.t, l.c, s');
    SafeParts(w, s, l.t);
    OnlyInsertAdds(s, l.t, m, v);
    InsertsFresh(w, s, At(s, l.t), l.c);
    FreshUnpublished(w, s, At(s, l.t));
    CounterMoves(s, l.t, m, m.effect.e);
  }

  /** An entry of v is in the table from state a on, where it has just entered. */
  ghost predicate EnteredAt(states: seq<State>, a: nat, b: nat, v: Vec, e: Eid) {
    && 0 < a <= b < |states| && !(v in states[a - 1].table && states[a - 1].table[v] == e)
    && forall j :: a <= j <= b ==> v in states[j].table && states[j].table[v] == e
  }

  /** Every entry of the table entered it at some state. */
  lemma {:induction false} Entered(w: World, states: seq<State>, i: nat, v: Vec) returns (a: nat)
    requires Run(w, states) && i < |states| && v in states[i].table
    ensures EnteredAt(states, a, i, v, states[i].table[v])
  {
    hide Next;
    if v in states[i - 1].table && states[i - 1].table[v] == states[i].table[v] {
      a := Entered(w, states, i - 1, v);
    } else {
      a := i;
    }
  }

  /** The counter of an entry in the table is the number of hook calls on its vector that have got past their count since it
      entered the table, less the unhook calls with that entry that have got past their count-down. */
  lemma CounterOfEntry(w: World, states: seq<State>, steps: seq<Label>, a: nat, i: nat, v: Vec, e: Eid)
    requires Trace(w, states, steps) && EnteredAt(states, a, i, v, e)
    ensures CounterOf(states[i], e) == HookCalls(w, states, steps, a, i, v) - UnhookCalls(states, steps, a, i, e)
  {
    hide Initial, Step, Safe, FreshUncounted, CounterOf, HookCalls, UnhookCalls;
    TraceIsRun(w, states, steps);
    RunsAreSafe(w, states, a - 1);
    FreshIsUncounted(w, states, steps, a - 1);
    assert Step(w, states[a - 1], steps[a - 1].t, steps[a - 1].c, states[a - 1 + 1]);
    EntersAtZero(w, states[a - 1], steps[a - 1], states[a], v);
    CounterIsTally(w, states, steps, a, i, v, e);
  }

  // ----- a vector found hooked stays hooked -----

  lemma LeavesAtZero(w: World, s: State, l: Label, s': State, v: Vec)
    requires Safe(w, s) && Step(w, s, l.t, l.c, s') && Fits(w, s, At(s, l.t)) && v in s.table
    requires !(v in s'.table && s'.table[v] == s.table[v])
    ensures CounterOf(s, s.table[v]) == 0
  {
    hide *;
    StepIsMove(w, s, l.t, l.c, s');
    SafeParts(w, s, l.t);
    OnlyDeleteTakes(w, s, l.t, At(s, l.t), l.c, v);
    RemovesAtZero(w, s, At(s, l.t), v);
  }

  lemma RemovesAtZero(w: World, s: State, pc: Pc, v: Vec)
    requires Fits(w, s, pc) && v in s.table && pc.Unhooking? && pc.u.Remove? && w.vec(pc.u.vn) == v
    ensures CounterOf(s, s.table[v]) == 0
  {
    hide CounterOf;
  }

  lemma OnlyDeleteTakes(w: World, s: State, t: Tid, pc: Pc, c: Choice, v: Vec)
    requires PcOk(w, s, pc) && v in s.table
    ensures var s' := Moved(s, t, MoveOf(w, s, pc, c));
            !(v in s'.table && s'.table[v] == s.table[v]) ==> pc.Unhooking? && pc.u.Remove? && w.vec(pc.u.vn) == v
  {
    hide EntriesAfter, SlotAfter, SavedTo, Complete;
  }

  /** As long as every step fits, a vector with counter k stays in the table, with the same entry, until k more unhook calls
      have counted it down. */
  lemma {:induction false} StaysUntilCountedDown(w: World, states: seq<State>, steps: seq<Label>, a: nat, b: nat, v: Vec)
    requires Trace(w, states, steps) && a <= b < |states| && v in states[a].table && AllFit(w, states, b)
    requires UnhookCalls(states, steps, a, b, states[a].table[v]) < CounterOf(states[a], states[a].table[v])
    ensures forall j :: a <= j <= b ==> v in states[j].table && states[j].table[v] == states[a].table[v]
    decreases b - a
  {
    hide Initial, Step, Safe, CounterOf, Fits, At, Unhooks, Hooks;
    if a < b {
      StaysUntilCountedDown(w, states, steps, a, b - 1, v);
      CounterIsTally(w, states, steps, a, b - 1, v, states[a].table[v]);
      TraceIsRun(w, states, steps);
      RunsAreSafe(w, states, b - 1);
      assert Step(w, states[b - 1], steps[b - 1].t, steps[b - 1].c, states[b - 1 + 1]);
      assert StepFits(w, states[b - 1], states[b - 1 + 1]);
      if !(v in states[b].table && states[b].table[v] == states[a].table[v]) {
        LeavesAtZero(w, states[b - 1], steps[b - 1], states[b], v);
      }
    }
  }

  lemma HooksInTable(w: World, s: State, l: Label, s': State, v: Vec)
    requires Safe(w, s) && Step(w, s, l.t, l.c, s') && Hooks(w, At(s, l.t), At(s', l.t), v)
    ensures v in s.table && v in s'.table && s'.table[v] == s.table[v]
  {
    hide *;
    var m := MoveOf(w, s, At(s, l.t), l.c);
    StepIsMove(w, s, l.t, l.c, s');
    SafeParts(w, s, l.t);
    OthersStay(s, l.t, m);
    HooksOnTable(w, s, At(s, l.t), l.c, v);
    TableStays(s, l.t, m);
  }

  lemma HooksOnTable(w: World, s: State, pc: Pc, c: Choice, v: Vec)
    requires PcOk(w, s, pc) && Hooks(w, pc, MoveOf(w, s, pc, c).next, v)
    ensures v in s.table && !MoveOf(w, s, pc, c).effect.Insert? && !MoveOf(w, s, pc, c).effect.Delete?
  {
    hide SavedTo, Complete;
  }

  lemma TableStays(s: State, t: Tid, m: Move)
    requires !m.effect.Insert? && !m.effect.Delete?
    ensures Moved(s, t, m).table == s.table
  {
    hide EntriesAfter, SlotAfter;
  }

  /** A hook call that gets past its count, by which its caller is told that the vector is hooked, leaves it hooked: as long
      as every step fits, it stays so until as many unhook calls have counted it down as had hooked it. */
  lemma ToldHookedStaysHooked(w: World, states: seq<State>, steps: seq<Label>, a: nat, b: nat, v: Vec)
    requires Trace(w, states, steps) && 0 < a <= b < |states| && AllFit(w, states, b)
    requires Hooks(w, At(states[a - 1], steps[a - 1].t), At(states[a], steps[a - 1].t), v)
    ensures v in states[a].table && CounterOf(states[a], states[a].table[v]) >= 1
    ensures UnhookCalls(states, steps, a, b, states[a].table[v]) < CounterOf(states[a], states[a].table[v]) ==>
              v in states[b].table && states[b].table[v] == states[a].table[v]
  {
    hide Initial, Step, Safe, At, Hooks, Unhooks, CountsKept, UnhookCalls, StepFits;
    TraceIsRun(w, states, steps);
    RunsAreSafe(w, states, a - 1);
    assert Step(w, states[a - 1], steps[a - 1].t, steps[a - 1].c, states[a - 1 + 1]);
    HooksInTable(w, states[a - 1], steps[a - 1], states[a], v);
    CounterStep(w, states[a - 1], steps[a - 1], states[a], v);
    CountsKeptIffStepsFit(w, states, b);
    NeverNegative(w, states[a - 1], v);
    HooksOnly(w, At(states[a - 1], steps[a - 1].t), At(states[a], steps[a - 1].t), v, states[a].table[v]);
    if UnhookCalls(states, steps, a, b, states[a].table[v]) < CounterOf(states[a], states[a].table[v]) {
      StaysUntilCountedDown(w, states, steps, a, b, v);
    }
  }

  lemma NeverNegative(w: World, s: State, v: Vec)
    requires CountsKept(w, s) && v in s.table
    ensures CounterOf(s, s.table[v]) >= 0
  {
    hide Claims, InTable;
  }

  lemma HooksOnly(w: World, pc: Pc, next: Pc, v: Vec, e: Eid)
    ensures Hooks(w, pc, next, v) ==> !Unhooks(pc, next, e)
  {
  }
}
