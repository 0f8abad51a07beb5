/** The slot of the one user client: registered and unregistered by compare-and-swap, protected by a count of calls. */
module ClientRegistration {
  import opened Options

  type Tid = nat
  type Client = nat

  datatype Pc =
    | Idle
    // registering c
    | CheckPending(c: Client)
    | SwapIn(c: Client)
    | Retain(c: Client)
    // unregistering c
    | CheckCurrent(c: Client)
    | SetPending(c: Client)
    | SwapOut(c: Client)
    | AwaitCalls(c: Client)
    | Release(c: Client)
    | ClearPending(c: Client)
    // getting the client
    | PeekSlot
    | PeekPending
    | CountUp
    | ReadSlot
    | SwapSame(c: Client)
    | SwapNull(c: Client)
    | CountDown
    // using it, and putting it back
    | Using(c: Client)
    | Put(c: Client)

  /** slot, pending and calls are the object's fields. used, gone, retained and released record which clients a
      registration was called for, which were swapped out and by which thread, and which references were taken and dropped. */
  datatype State = State(
    threads: seq<Pc>,
    slot: Option<Client>,
    pending: bool,
    calls: int,
    used: set<Client>,
    gone: map<Client, Tid>,
    retained: multiset<Client>,
    released: multiset<Client>)

  datatype Call = Register(c: Client) | Unregister(c: Client) | GetClient

  /** The call a thread makes when idle. */
  datatype Choice = Choice(call: Call)

  /** Each client is registered once. */
  predicate CanMove(s: State, t: Tid, c: Choice)
    requires t < |s.threads|
  {
    s.threads[t].Idle? && c.call.Register? ==> c.call.c !in s.used
  }

  function Called(call: Call): Pc {
    match call
    case Register(c) => CheckPending(c)
    case Unregister(c) => CheckCurrent(c)
    case GetClient => PeekSlot
  }

  /** The next place in the code. */
  function NextPc(s: State, pc: Pc, c: Choice): Pc {
    match pc
    case Idle => Called(c.call)
    case CheckPending(x) => if s.pending then Idle else SwapIn(x)
    case SwapIn(x) => if s.slot.None? then Retain(x) else Idle
    case Retain(_) => Idle
    case CheckCurrent(x) => if s.slot == Some(x) then SetPending(x) else Idle
    case SetPending(x) => SwapOut(x)
    case SwapOut(x) => if s.slot == Some(x) then AwaitCalls(x) else ClearPending(x)
    case AwaitCalls(x) => if s.calls != 0 then AwaitCalls(x) else Release(x)
    case Release(x) => ClearPending(x)
    case ClearPending(_) => Idle
    case PeekSlot => if s.slot.None? then Idle else PeekPending
    case PeekPending => if s.pending then Idle else CountUp
    case CountUp => ReadSlot
    case ReadSlot => if s.slot.Some? then SwapSame(s.slot.value) else CountDown
    case SwapSame(x) => if s.slot == Some(x) then SwapNull(x) else CountDown
    case SwapNull(x) => if s.slot.None? then CountDown else Using(x)
    case CountDown => Idle
    case Using(x) => Put(x)
    case Put(_) => Idle
  }

  /** One step of a thread. */
  function Moved(s: State, t: Tid, c: Choice): State
    requires t < |s.threads|
  {
    var pc := s.threads[t];
    s.(threads := s.threads[t := NextPc(s, pc, c)],
       slot := if pc.SwapIn? && s.slot.None? then Some(pc.c)
               else if pc.SwapOut? && s.slot == Some(pc.c) then None else s.slot,
       pending := if pc.SetPending? then true else if pc.ClearPending? then false else s.pending,
       calls := if pc.CountUp? then s.calls + 1 else if pc.CountDown? || pc.Put? then s.calls - 1 else s.calls,
       used := if pc.Idle? && c.call.Register? then s.used + {c.call.c} else s.used,
       gone := if pc.SwapOut? && s.slot == Some(pc.c) then s.gone[pc.c := t] else s.gone,
       retained := if pc.Retain? then s.retained + multiset{pc.c} else s.retained,
       released := if pc.Release? then s.released + multiset{pc.c} else s.released)
  }

  ghost predicate Step(s: State, s': State) {
    exists t, c :: 0 <= t < |s.threads| && CanMove(s, t, c) && s' == Moved(s, t, c)
  }

  ghost predicate Initial(s: State) {
    && (forall t :: 0 <= t < |s.threads| ==> s.threads[t] == Idle)
    && s.slot == None && !s.pending && s.calls == 0 && s.used == {} && s.gone == map[]
    && s.retained == multiset{} && s.released == multiset{}
  }

  ghost predicate Run(states: seq<State>) {
    && |states| > 0 && Initial(states[0])
    && forall i :: 0 <= i < |states| - 1 ==> Step(states[i], states[i + 1])
  }

  // ----- the count of calls -----

  /** Between its increment and its decrement. */
  predicate Counted(pc: Pc) {
    pc.ReadSlot? || pc.SwapSame? || pc.SwapNull? || pc.CountDown? || pc.Using? || pc.Put?
  }

  function InFlight(threads: seq<Pc>): nat {
    if threads == [] then 0 else (if Counted(threads[0]) then 1 else 0) + InFlight(threads[1..])
  }

  lemma {:induction false} InFlightUpdate(threads: seq<Pc>, t: nat, pc: Pc)
    requires t < |threads|
    ensures InFlight(threads[t := pc])
         == InFlight(threads) - (if Counted(threads[t]) then 1 else 0) + (if Counted(pc) then 1 else 0)
  {
    if t == 0 {
      assert threads[0 := pc][1..] == threads[1..];
    } else {
      assert threads[t := pc][1..] == threads[1..][t - 1 := pc];
      InFlightUpdate(threads[1..], t - 1, pc);
    }
  }

  lemma {:induction false} NoneInFlight(threads: seq<Pc>, t: nat)
    requires t < |threads| && Counted(threads[t])
    ensures InFlight(threads) >= 1
  {
    if t > 0 {
      NoneInFlight(threads[1..], t - 1);
    }
  }

  // ----- what every step keeps -----

  /** The client a thread has made sure of. */
  function Holds(pc: Pc): Option<Client> {
    match pc
    case SwapNull(c) => Some(c)
    case Using(c) => Some(c)
    case Put(c) => Some(c)
    case _ => None
  }

  /** A client in use is still registered, or the thread that took it out of the slot still waits for the calls. */
  ghost predicate Kept(s: State, c: Client) {
    s.slot == Some(c)
    || (c in s.gone && s.gone[c] < |s.threads| && s.threads[s.gone[c]] == AwaitCalls(c))
  }

  ghost predicate PcOk(s: State, t: Tid)
    requires t < |s.threads|
  {
    match s.threads[t]
    case CheckPending(c) => c in s.used && c !in s.gone && s.slot != Some(c)
    case SwapIn(c) => c in s.used && c !in s.gone && s.slot != Some(c)
    case Retain(c) => (c in s.gone || s.slot == Some(c)) && c !in s.retained
    case AwaitCalls(c) => c in s.gone && s.gone[c] == t && c !in s.released
    case Release(c) => c in s.gone && s.gone[c] == t && c !in s.released
    case SwapNull(c) => Kept(s, c)
    case Using(c) => Kept(s, c)
    case Put(c) => Kept(s, c)
    case _ => true
  }

  /** The client a thread is registering. */
  function Registers(pc: Pc): Option<Client> {
    match pc
    case CheckPending(c) => Some(c)
    case SwapIn(c) => Some(c)
    case Retain(c) => Some(c)
    case _ => None
  }

  ghost predicate Safe(s: State) {
    && s.calls == InFlight(s.threads)
    && (s.slot.Some? ==> s.slot.value in s.used && s.slot.value !in s.gone)
    && (forall c | c in s.gone :: c in s.used)
    && (forall c | c in s.released :: c in s.gone && s.released[c] == 1)
    && (forall c | c in s.retained :: (c in s.gone || s.slot == Some(c)) && s.retained[c] == 1)
    && (forall t, u | 0 <= t < u < |s.threads| && Registers(s.threads[t]).Some? ::
          Registers(s.threads[t]) != Registers(s.threads[u]))
    && forall t | 0 <= t < |s.threads| :: PcOk(s, t)
  }

  lemma OwnHold(s: State, t: Tid, c: Choice)
    requires t < |s.threads| && PcOk(s, t) && (s.threads[t].SwapSame? || s.threads[t].SwapNull? || s.threads[t].Using?)
    ensures PcOk(Moved(s, t, c), t)
  {
  }

  lemma OwnPc(s: State, t: Tid, c: Choice)
    requires Safe(s) && t < |s.threads| && CanMove(s, t, c)
    ensures PcOk(Moved(s, t, c), t)
  {
    hide InFlight, Kept;
    assert PcOk(s, t);
    if s.threads[t].SwapSame? || s.threads[t].SwapNull? || s.threads[t].Using? {
      OwnHold(s, t, c);
    }
  }

  lemma StillAwaits(s: State, t: Tid, c: Choice)
    requires t < |s.threads| && s.threads[t].AwaitCalls? && s.calls != 0
    ensures Moved(s, t, c).threads[t] == s.threads[t]
  {
  }

  /** What a user of a client has made sure of outlasts the moves of the others: they wait for it. */
  lemma StillKept(s: State, t: Tid, c: Choice, x: Client)
    requires Safe(s) && t < |s.threads| && Kept(s, x) && s.calls >= 1
    ensures Kept(Moved(s, t, c), x)
  {
    hide InFlight, NextPc, PcOk;
    if s.threads[t].AwaitCalls? {
      StillAwaits(s, t, c);
    } else if s.threads[t] == SwapOut(x) && s.slot == Some(x) {
      assert Moved(s, t, c).threads[t] == AwaitCalls(x) by {
        SwapsOut(s, t, c);
      }
    }
  }

  lemma SwapsOut(s: State, t: Tid, c: Choice)
    requires t < |s.threads| && s.threads[t].SwapOut? && s.slot == Some(s.threads[t].c)
    ensures Moved(s, t, c).threads[t] == AwaitCalls(s.threads[t].c)
  {
  }

  lemma OtherRegisters(s: State, t: Tid, c: Choice, u: Tid)
    requires Safe(s) && t < |s.threads| && CanMove(s, t, c) && u < |s.threads| && u != t && Registers(s.threads[u]).Some?
    ensures PcOk(Moved(s, t, c), u)
  {
    hide InFlight, NextPc, Kept;
    assert PcOk(s, u);
    assert Registers(s.threads[t]) != Registers(s.threads[u]);
  }

  lemma OtherPc(s: State, t: Tid, c: Choice, u: Tid)
    requires Safe(s) && t < |s.threads| && CanMove(s, t, c) && u < |s.threads| && u != t
    ensures PcOk(Moved(s, t, c), u)
  {
    hide InFlight, NextPc, Kept;
    assert PcOk(s, u);
    if Registers(s.threads[u]).Some? {
      OtherRegisters(s, t, c, u);
    } else if Holds(s.threads[u]).Some? {
      NoneInFlight(s.threads, u);
      StillKept(s, t, c, Holds(s.threads[u]).value);
    } else {
      assert PcOk(s, t);
    }
  }

  lemma RegistersMove(s: State, t: Tid, c: Choice)
    requires t < |s.threads| && CanMove(s, t, c)
    ensures var r := Registers(Moved(s, t, c).threads[t]);
            r.Some? && r != Registers(s.threads[t]) ==> r.value !in s.used
  {
  }

  lemma RegistersUsed(s: State, u: Tid)
    requires Safe(s) && u < |s.threads| && Registers(s.threads[u]).Some?
    ensures Registers(s.threads[u]).value in s.used
  {
    hide InFlight, Kept;
    assert PcOk(s, u);
  }

  /** Two threads never register the same client. */
  lemma StillApart(s: State, t: Tid, c: Choice, u: Tid)
    requires Safe(s) && t < |s.threads| && CanMove(s, t, c) && u < |s.threads| && u != t
    ensures var s' := Moved(s, t, c);
            Registers(s'.threads[t]).Some? ==> Registers(s'.threads[t]) != Registers(s'.threads[u])
  {
    hide InFlight, Kept, NextPc, PcOk, Registers;
    RegistersMove(s, t, c);
    if Registers(s.threads[u]).Some? {
      RegistersUsed(s, u);
    }
  }

  lemma ClientsStep(s: State, t: Tid, c: Choice)
    requires Safe(s) && t < |s.threads| && CanMove(s, t, c)
    ensures var s' := Moved(s, t, c);
            && (s'.slot.Some? ==> s'.slot.value in s'.used && s'.slot.value !in s'.gone)
            && (forall x | x in s'.gone :: x in s'.used)
            && (forall x | x in s'.released :: x in s'.gone && s'.released[x] == 1)
            && (forall x | x in s'.retained :: (x in s'.gone || s'.slot == Some(x)) && s'.retained[x] == 1)
  {
    hide InFlight, NextPc, Kept;
    assert PcOk(s, t);
  }

  lemma CallsStep(s: State, t: Tid, c: Choice)
    requires s.calls == InFlight(s.threads) && t < |s.threads|
    ensures Moved(s, t, c).calls == InFlight(Moved(s, t, c).threads)
  {
    hide InFlight;
    InFlightUpdate(s.threads, t, Moved(s, t, c).threads[t]);
  }

  lemma SafeMove(s: State, t: Tid, c: Choice)
    requires Safe(s) && t < |s.threads| && CanMove(s, t, c)
    ensures Safe(Moved(s, t, c))
  {
    hide InFlight, NextPc, PcOk, CanMove, Registers;
    var s' := Moved(s, t, c);
    CallsStep(s, t, c);
    ClientsStep(s, t, c);
    forall u: Tid | u < |s.threads| ensures PcOk(s', u) {
      if u == t {
        OwnPc(s, t, c);
      } else {
        OtherPc(s, t, c, u);
      }
    }
    forall u: Tid, v: Tid | u < v < |s.threads| && Registers(s'.threads[u]).Some?
      ensures Registers(s'.threads[u]) != Registers(s'.threads[v])
    {
      if u == t {
        StillApart(s, t, c, v);
      } else if v == t {
        StillApart(s, t, c, u);
      }
    }
  }

  lemma {:induction false} RunsAreSafe(states: seq<State>, i: nat)
    requires Run(states) && i < |states|
    ensures Safe(states[i])
  {
    hide Safe, Initial, Step;
    if i == 0 {
      InitialIsSafe(states[0]);
    } else {
      RunsAreSafe(states, i - 1);
      assert Step(states[i - 1], states[i - 1 + 1]);
      StepIsSafe(states[i - 1], states[i]);
    }
  }

  lemma StepIsSafe(s: State, s': State)
    requires Safe(s) && Step(s, s')
    ensures Safe(s')
  {
    hide Safe, Moved, CanMove;
    var t, c :| 0 <= t < |s.threads| && CanMove(s, t, c) && s' == Moved(s, t, c);
    SafeMove(s, t, c);
  }

  lemma {:induction false} IdleInFlight(threads: seq<Pc>)
    requires forall t :: 0 <= t < |threads| ==> threads[t] == Idle
    ensures InFlight(threads) == 0
  {
    if threads != [] {
      IdleInFlight(threads[1..]);
    }
  }

  lemma InitialIsSafe(s: State)
    requires Initial(s)
    ensures Safe(s)
  {
    IdleInFlight(s.threads);
  }

  // ----- what this means -----

  /** The count is the number of threads between their increment and their decrement. */
  lemma CallsAreCounted(states: seq<State>, i: nat)
    requires Run(states) && i < |states|
    ensures states[i].calls == InFlight(states[i].threads) >= 0
  {
    hide Run, InFlight;
    RunsAreSafe(states, i);
  }

  /** A client that a thread has got and not yet put back was registered and has not been released. */
  lemma UsedIsNotReleased(states: seq<State>, i: nat, t: Tid)
    requires Run(states) && i < |states| && t < |states[i].threads|
    requires states[i].threads[t].Using? || states[i].threads[t].Put?
    ensures states[i].threads[t].c in states[i].used && states[i].threads[t].c !in states[i].released
  {
    hide Run, InFlight;
    RunsAreSafe(states, i);
    var s := states[i];
    var c := s.threads[t].c;
    assert PcOk(s, t);
    if s.slot != Some(c) {
      assert PcOk(s, s.gone[c]);
    }
  }

  /** A client is retained at most once, and released at most once, after it has left the slot for good. */
  lemma ReleasedOnce(states: seq<State>, i: nat, c: Client)
    requires Run(states) && i < |states|
    ensures states[i].released[c] <= 1 && states[i].retained[c] <= 1
    ensures c in states[i].released ==> states[i].slot != Some(c) && c in states[i].gone
  {
    hide Run, InFlight, PcOk;
    RunsAreSafe(states, i);
  }
}
