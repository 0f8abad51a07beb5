/** What the calls on the slot answer: when getting the client gives one, when registering and unregistering succeed. */
module ClientAnswers {
  import opened Options
  import opened ClientRegistration

  lemma RunSteps(states: seq<State>, j: nat)
    requires Run(states) && j + 1 < |states|
    ensures Step(states[j], states[j + 1])
  {
    hide Initial, Step;
    assert Step(states[j], states[j + 1]);
  }

  /** A step moves one thread; seen from t, it is its own or leaves it where it is. */
  lemma OwnOrOther(s: State, s': State, t: Tid) returns (own: bool, c: Choice)
    requires Step(s, s') && t < |s.threads|
    ensures |s'.threads| == |s.threads|
    ensures if own then CanMove(s, t, c) && s' == Moved(s, t, c) else s'.threads[t] == s.threads[t]
  {
    hide NextPc, CanMove;
    var u: Tid, d :| u < |s.threads| && CanMove(s, u, d) && s' == Moved(s, u, d);
    own, c := u == t, d;
  }

  /** Thread t makes a call in the step to state a, in a run that has got to state b. */
  ghost predicate Calls(states: seq<State>, a: nat, b: nat, t: Tid, call: Call) {
    && Run(states) && 0 < a <= b < |states| && (forall j :: a - 1 <= j <= b ==> t < |states[j].threads|)
    && states[a - 1].threads[t] == Idle && CanMove(states[a - 1], t, Choice(call))
    && states[a] == Moved(states[a - 1], t, Choice(call))
  }

  // ----- getting the client -----

  /** Inside a call for the client, which has not answered yet. */
  predicate Getting(pc: Pc) {
    pc.PeekSlot? || pc.PeekPending? || pc.CountUp? || pc.ReadSlot? || pc.SwapSame? || pc.SwapNull? || pc.CountDown?
  }

  /** The call of t for the client that starts at state a has not answered before state b. */
  ghost predicate GettingFrom(states: seq<State>, a: nat, b: nat, t: Tid) {
    && Calls(states, a, b, t, GetClient)
    && forall j :: a <= j < b ==> Getting(states[j].threads[t])
  }

  /** A registered client that nobody is unregistering. */
  predicate Available(s: State, c: Client) {
    s.slot == Some(c) && !s.pending
  }

  predicate OnTheWayTo(pc: Pc, c: Client) {
    pc.PeekSlot? || pc.PeekPending? || pc.CountUp? || pc.ReadSlot? || pc == SwapSame(c) || pc == SwapNull(c) || pc == Using(c)
  }

  lemma GivesAvailable(s: State, s': State, t: Tid, c: Client)
    requires Step(s, s') && t < |s.threads| && Getting(s.threads[t]) && Available(s, c) && OnTheWayTo(s.threads[t], c)
    ensures t < |s'.threads| && OnTheWayTo(s'.threads[t], c)
  {
    hide Step;
    var own, d := OwnOrOther(s, s', t);
  }

  /** While the same client is registered and nobody unregisters it, the call goes on to give it. */
  lemma {:induction false} GoesOnToGive(states: seq<State>, a: nat, b: nat, t: Tid, c: Client)
    requires GettingFrom(states, a, b, t) && forall j :: a <= j < b ==> Available(states[j], c)
    ensures OnTheWayTo(states[b].threads[t], c)
    decreases b - a
  {
    hide Run, Step, Available;
    if b > a {
      GoesOnToGive(states, a, b - 1, t, c);
      RunSteps(states, b - 1);
      GivesAvailable(states[b - 1], states[b], t, c);
    }
  }

  predicate Has(pc: Pc, c: Client) {
    pc == SwapSame(c) || pc == SwapNull(c) || pc == Using(c)
  }

  lemma ReadsSlot(s: State, s': State, t: Tid, c: Client)
    requires Step(s, s') && t < |s.threads| <= |s'.threads| && Getting(s.threads[t]) && Has(s'.threads[t], c)
    ensures s.slot == Some(c) || Has(s.threads[t], c)
  {
    hide Step;
    var own, d := OwnOrOther(s, s', t);
  }

  /** What a call has read was in the slot at some state of the call. */
  lemma {:induction false} ReadFromSlot(states: seq<State>, a: nat, b: nat, t: Tid, c: Client)
    requires GettingFrom(states, a, b, t) && Has(states[b].threads[t], c)
    ensures exists j :: a <= j < b && states[j].slot == Some(c)
    decreases b - a
  {
    hide Run, Step;
    RunSteps(states, b - 1);
    SameThreads(states[b - 1], states[b], t);
    ReadsSlot(states[b - 1], states[b], t, c);
    if states[b - 1].slot != Some(c) {
      ReadFromSlot(states, a, b - 1, t, c);
    }
  }

  lemma SameThreads(s: State, s': State, t: Tid)
    requires Step(s, s') && t < |s.threads|
    ensures |s'.threads| == |s.threads|
  {
    hide Step;
    var own, d := OwnOrOther(s, s', t);
  }

  lemma GettingEnds(s: State, s': State, t: Tid)
    requires Step(s, s') && t < |s.threads| && Getting(s.threads[t])
    ensures t < |s'.threads| && (Getting(s'.threads[t]) || s'.threads[t].Using? || s'.threads[t].Idle?)
  {
    hide Step;
    var own, d := OwnOrOther(s, s', t);
  }

  /** What getting the client answers: a client registered throughout the call, with nobody unregistering it, is given; no
      client is given only if at some state of the call there was none, one was being unregistered or the slot had changed;
      and a client that is given was registered during the call. */
  lemma GetAnswers(states: seq<State>, a: nat, b: nat, t: Tid)
    requires GettingFrom(states, a, b, t) && !Getting(states[b].threads[t])
    ensures states[b].threads[t].Using? || states[b].threads[t].Idle?
    ensures forall c :: (forall j :: a <= j < b ==> Available(states[j], c)) ==> states[b].threads[t] == Using(c)
    ensures states[b].threads[t].Idle? ==>
              exists j :: a <= j < b && (states[j].slot == None || states[j].pending || states[j].slot != states[a].slot)
    ensures states[b].threads[t].Using? ==> exists j :: a <= j < b && states[j].slot == Some(states[b].threads[t].c)
  {
    hide Run, Step;
    RunSteps(states, b - 1);
    GettingEnds(states[b - 1], states[b], t);
    forall c | forall j :: a <= j < b ==> Available(states[j], c) ensures states[b].threads[t] == Using(c) {
      GoesOnToGive(states, a, b, t, c);
    }
    if states[b].threads[t].Using? {
      ReadFromSlot(states, a, b, t, states[b].threads[t].c);
    } else if !exists j :: a <= j < b && (states[j].slot == None || states[j].pending || states[j].slot != states[a].slot) {
      GoesOnToGive(states, a, b, t, states[a].slot.value);
    }
  }

  ghost predicate SawSome(states: seq<State>, a: nat, b: nat)
    requires b <= |states|
  {
    exists j :: a <= j < b && states[j].slot != None
  }

  ghost predicate SawUnflagged(states: seq<State>, a: nat, b: nat)
    requires b <= |states|
  {
    exists j :: a <= j < b && !states[j].pending
  }

  /** Before state b, the client was in the slot. */
  ghost predicate Saw(states: seq<State>, a: nat, b: nat, c: Client)
    requires b <= |states|
  {
    exists j :: a <= j < b && states[j].slot == Some(c)
  }

  ghost predicate SawTwice(states: seq<State>, a: nat, b: nat, c: Client)
    requires b <= |states|
  {
    exists j :: a <= j < b && states[j].slot == Some(c) && Saw(states, a, j, c)
  }

  /** Before state b, the client was in the slot at two states, and the slot not empty at a later one. */
  ghost predicate SawAll(states: seq<State>, a: nat, b: nat, c: Client)
    requires b <= |states|
  {
    exists j :: a <= j < b && states[j].slot != None && SawTwice(states, a, j, c)
  }

  /** What a call for the client has seen where it is. */
  ghost predicate Seen(states: seq<State>, a: nat, b: nat, pc: Pc)
    requires b <= |states|
  {
    && (pc.PeekSlot? || pc.Idle? || SawSome(states, a, b))
    && (pc.PeekSlot? || pc.PeekPending? || pc.Idle? || SawUnflagged(states, a, b))
    && (pc.SwapSame? ==> Saw(states, a, b, pc.c))
    && (pc.SwapNull? ==> SawTwice(states, a, b, pc.c))
    && (pc.Using? ==> SawAll(states, a, b, pc.c))
  }

  lemma SeenMove(states: seq<State>, a: nat, b: nat, pc: Pc, c: Choice)
    requires a <= b < |states| && Getting(pc) && Seen(states, a, b, pc)
    ensures Seen(states, a, b + 1, NextPc(states[b], pc, c))
  {
  }

  lemma SeenStays(states: seq<State>, a: nat, b: nat, pc: Pc)
    requires a <= b < |states| && Getting(pc) && Seen(states, a, b, pc)
    ensures Seen(states, a, b + 1, pc)
  {
  }

  /** A call for the client counts itself only if it has seen a client in the slot, and the flag not set; it gives a client only
      if that was in the slot at two states of the call and the slot was not empty at a later one. */
  lemma {:induction false} GetChecks(states: seq<State>, a: nat, b: nat, t: Tid)
    requires GettingFrom(states, a, b, t)
    ensures Seen(states, a, b, states[b].threads[t])
    decreases b - a
  {
    hide Run, Step, Seen, Getting, NextPc;
    if a == b {
      StartsUnseeing(states, a, t);
    } else {
      GetChecks(states, a, b - 1, t);
      RunSteps(states, b - 1);
      var own, d := OwnOrOther(states[b - 1], states[b], t);
      if own {
        SeenMove(states, a, b - 1, states[b - 1].threads[t], d);
      } else {
        SeenStays(states, a, b - 1, states[b - 1].threads[t]);
      }
    }
  }

  lemma StartsUnseeing(states: seq<State>, a: nat, t: Tid)
    requires Calls(states, a, a, t, GetClient)
    ensures Seen(states, a, a, states[a].threads[t])
  {
    hide Run;
  }

  // ----- registering -----

  ghost predicate RegisteringFrom(states: seq<State>, a: nat, b: nat, t: Tid, c: Client) {
    && Calls(states, a, b, t, Register(c))
    && forall j :: a <= j < b ==> Registers(states[j].threads[t]) == Some(c)
  }

  /** The client enters the empty slot in a step. */
  predicate Enters(s: State, s': State, c: Client) {
    s.slot == None && s'.slot == Some(c)
  }

  lemma RetainsNext(s: State, s': State, t: Tid, c: Client)
    requires Step(s, s') && t < |s.threads| <= |s'.threads| && s'.threads[t] == Retain(c) && Registers(s.threads[t]) == Some(c)
    ensures Enters(s, s', c) || s.threads[t] == Retain(c)
  {
    hide Step;
    var own, d := OwnOrOther(s, s', t);
  }

  lemma {:induction false} RetainsEntered(states: seq<State>, a: nat, b: nat, t: Tid, c: Client)
    requires RegisteringFrom(states, a, b, t, c) && states[b].threads[t] == Retain(c)
    ensures exists j :: a <= j < b && Enters(states[j], states[j + 1], c)
    decreases b - a
  {
    hide Run, Step, Enters, Registers;
    RunSteps(states, b - 1);
    SameThreads(states[b - 1], states[b], t);
    RetainsNext(states[b - 1], states[b], t, c);
    if !Enters(states[b - 1], states[b - 1 + 1], c) {
      RetainsEntered(states, a, b - 1, t, c);
    }
  }

  /** Registering gets past its first check only if it has seen the flag not set. */
  lemma {:induction false} RegisterChecks(states: seq<State>, a: nat, b: nat, t: Tid, c: Client)
    requires RegisteringFrom(states, a, b, t, c)
    ensures states[b].threads[t] == CheckPending(c) || states[b].threads[t].Idle? || SawUnflagged(states, a, b)
    decreases b - a
  {
    hide Run, Step;
    if b > a {
      RegisterChecks(states, a, b - 1, t, c);
      RunSteps(states, b - 1);
      var own, d := OwnOrOther(states[b - 1], states[b], t);
    }
  }

  /** An unregistration is pending, or another client is registered. */
  predicate Obstructed(s: State, c: Client) {
    s.pending || (s.slot != None && s.slot != Some(c))
  }

  lemma RegisterEnds(s: State, s': State, t: Tid, c: Client)
    requires Safe(s) && Step(s, s') && t < |s.threads| <= |s'.threads|
    requires Registers(s.threads[t]) == Some(c) && Registers(s'.threads[t]) != Some(c)
    ensures s'.threads[t] == Idle
    ensures if s.threads[t] == Retain(c) then c in s'.retained else Obstructed(s, c) && c !in s'.retained
  {
    hide Step, InFlight, Kept;
    assert PcOk(s, t);
    var own, d := OwnOrOther(s, s', t);
  }

  lemma NotRetainedYet(s: State, t: Tid, c: Client)
    requires Safe(s) && t < |s.threads| && s.threads[t] == CheckPending(c)
    ensures c !in s.retained
  {
    hide InFlight, Kept;
    assert PcOk(s, t);
  }

  /** Registering succeeds, which puts the client into the empty slot and retains it, unless at some state of the call an
      unregistration was pending or another client was registered; and only if at some state of it none was pending. */
  lemma RegisterAnswers(states: seq<State>, a: nat, b: nat, t: Tid, c: Client)
    requires RegisteringFrom(states, a, b, t, c) && Registers(states[b].threads[t]) != Some(c)
    ensures states[b].threads[t] == Idle && c !in states[a].retained
    ensures c in states[b].retained ==>
              SawUnflagged(states, a, b) && exists j :: a <= j < b && Enters(states[j], states[j + 1], c)
    ensures c !in states[b].retained ==> exists j :: a <= j < b && Obstructed(states[j], c)
  {
    hide Run, Step, Safe, Enters, Obstructed;
    RunSteps(states, b - 1);
    RunsAreSafe(states, a);
    RunsAreSafe(states, b - 1);
    NotRetainedYet(states[a], t, c);
    SameThreads(states[b - 1], states[b], t);
    RegisterEnds(states[b - 1], states[b], t, c);
    if states[b - 1].threads[t] == Retain(c) {
      RetainsEntered(states, a, b - 1, t, c);
      RegisterChecks(states, a, b - 1, t, c);
    }
  }

  // ----- unregistering -----

  /** The client a thread is unregistering. */
  function Unregisters(pc: Pc): Option<Client> {
    match pc
    case CheckCurrent(c) => Some(c)
    case SetPending(c) => Some(c)
    case SwapOut(c) => Some(c)
    case AwaitCalls(c) => Some(c)
    case Release(c) => Some(c)
    case ClearPending(c) => Some(c)
    case _ => None
  }

  ghost predicate UnregisteringFrom(states: seq<State>, a: nat, b: nat, t: Tid, c: Client) {
    && Calls(states, a, b, t, Unregister(c))
    && forall j :: a <= j < b ==> Unregisters(states[j].threads[t]) == Some(c)
  }

  /** At the two places where it looks for the client in the slot, the client is not there. */
  predicate MissedAt(s: State, t: Tid, c: Client)
    requires t < |s.threads|
  {
    (s.threads[t] == CheckCurrent(c) || s.threads[t] == SwapOut(c)) && s.slot != Some(c)
  }

  /** Where an unregistration is when it has not missed its client. */
  predicate OnItsWay(s: State, t: Tid, c: Client)
    requires t < |s.threads|
  {
    match s.threads[t]
    case CheckCurrent(x) => x == c
    case SetPending(x) => x == c
    case SwapOut(x) => x == c
    case AwaitCalls(x) => x == c
    case Release(x) => x == c
    case ClearPending(x) => x == c && c in s.released
    case Idle => c in s.released
    case _ => false
  }

  lemma WayStep(s: State, s': State, t: Tid, c: Client)
    requires Step(s, s') && t < |s.threads| <= |s'.threads| && Unregisters(s.threads[t]) == Some(c)
    ensures Unregisters(s'.threads[t]) == Some(c) || s'.threads[t] == Idle
    ensures OnItsWay(s, t, c) ==> MissedAt(s, t, c) || OnItsWay(s', t, c)
  {
    hide Step;
    var own, d := OwnOrOther(s, s', t);
    ReleasedStays(s, s', c);
  }

  lemma ReleasedStays(s: State, s': State, c: Client)
    requires Step(s, s')
    ensures c in s.released ==> c in s'.released
  {
    hide NextPc, CanMove;
  }

  lemma {:induction false} GoesOnToRelease(states: seq<State>, a: nat, b: nat, t: Tid, c: Client)
    requires UnregisteringFrom(states, a, b, t, c) && forall j :: a <= j < b ==> !MissedAt(states[j], t, c)
    ensures OnItsWay(states[b], t, c)
    decreases b - a
  {
    hide Run, Step, MissedAt;
    if b > a {
      GoesOnToRelease(states, a, b - 1, t, c);
      RunSteps(states, b - 1);
      SameThreads(states[b - 1], states[b], t);
      WayStep(states[b - 1], states[b], t, c);
    }
  }

  lemma NotReleasedYet(s: State, c: Client)
    requires Safe(s) && s.slot == Some(c)
    ensures c !in s.released
  {
    hide InFlight, PcOk;
  }

  /** Unregistering succeeds, and has released its client by its end, unless it found the slot without it. */
  lemma UnregisterAnswers(states: seq<State>, a: nat, b: nat, t: Tid, c: Client)
    requires UnregisteringFrom(states, a, b, t, c) && Unregisters(states[b].threads[t]) != Some(c)
    ensures states[b].threads[t] == Idle
    ensures (forall j :: a <= j < b ==> !MissedAt(states[j], t, c)) ==> c in states[b].released && c !in states[a].released
  {
    hide Run, Step, Safe, MissedAt;
    RunSteps(states, b - 1);
    SameThreads(states[b - 1], states[b], t);
    WayStep(states[b - 1], states[b], t, c);
    RunsAreSafe(states, a);
    if forall j :: a <= j < b ==> !MissedAt(states[j], t, c) {
      GoesOnToRelease(states, a, b, t, c);
      InSlot(states[a], t, c);
      NotReleasedYet(states[a], c);
    }
  }

  lemma InSlot(s: State, t: Tid, c: Client)
    requires t < |s.threads| && s.threads[t] == CheckCurrent(c) && !MissedAt(s, t, c)
    ensures s.slot == Some(c)
  {
  }

  /** Unregistering gets past its first check, and so to setting the flag, only if it has seen its client in the slot. */
  lemma {:induction false} UnregisterChecks(states: seq<State>, a: nat, b: nat, t: Tid, c: Client)
    requires UnregisteringFrom(states, a, b, t, c)
    ensures states[b].threads[t] == CheckCurrent(c) || states[b].threads[t].Idle? || Saw(states, a, b, c)
    decreases b - a
  {
    hide Run, Step;
    if b > a {
      UnregisterChecks(states, a, b - 1, t, c);
      RunSteps(states, b - 1);
      var own, d := OwnOrOther(states[b - 1], states[b], t);
    }
  }

  // ----- the flag -----

  /** Between setting and clearing the flag. */
  predicate Flagging(pc: Pc) {
    pc.SwapOut? || pc.AwaitCalls? || pc.Release? || pc.ClearPending?
  }

  ghost predicate FlagOwned(s: State) {
    s.pending ==> exists t: Tid :: t < |s.threads| && Flagging(s.threads[t])
  }

  lemma FlagStep(s: State, t: Tid, c: Choice)
    requires FlagOwned(s) && t < |s.threads|
    ensures FlagOwned(Moved(s, t, c))
  {
    var s' := Moved(s, t, c);
    if s'.pending {
      if Flagging(s'.threads[t]) {
      } else {
        var u: Tid :| u < |s.threads| && Flagging(s.threads[u]);
        assert Flagging(s'.threads[u]);
      }
    }
  }

  /** The flag is set only while some thread is unregistering, so it never stays set. */
  lemma {:induction false} PendingIsOwned(states: seq<State>, i: nat)
    requires Run(states) && i < |states|
    ensures FlagOwned(states[i])
  {
    hide FlagOwned, Step, Initial, Moved, CanMove;
    if i == 0 {
      StartsUnflagged(states[0]);
    } else {
      PendingIsOwned(states, i - 1);
      RunSteps(states, i - 1);
      FlagNext(states[i - 1], states[i]);
    }
  }

  lemma FlagNext(s: State, s': State)
    requires FlagOwned(s) && Step(s, s')
    ensures FlagOwned(s')
  {
    hide FlagOwned, Moved, CanMove;
    var t: Tid, c :| t < |s.threads| && CanMove(s, t, c) && s' == Moved(s, t, c);
    FlagStep(s, t, c);
  }

  lemma StartsUnflagged(s: State)
    requires Initial(s)
    ensures FlagOwned(s)
  {
  }

  /** Thread t sets the flag in the step to state a, and has not cleared it before state b; nobody else clears it. */
  ghost predicate FlagsAlone(states: seq<State>, a: nat, b: nat, t: Tid) {
    && Run(states) && 0 < a <= b < |states| && (forall j :: a - 1 <= j <= b ==> t < |states[j].threads|)
    && states[a - 1].threads[t].SetPending? && states[a].threads[t].SwapOut?
    && (forall j :: a <= j <= b ==> Flagging(states[j].threads[t]))
    && (forall j, u :: a <= j <= b && 0 <= u < |states[j].threads| && u != t ==> !states[j].threads[u].ClearPending?)
  }

  lemma OnlyClears(s: State, s': State, t: Tid)
    requires Step(s, s') && t < |s.threads| <= |s'.threads| && s.pending && Flagging(s.threads[t]) && Flagging(s'.threads[t])
    requires forall u :: 0 <= u < |s.threads| && u != t ==> !s.threads[u].ClearPending?
    ensures s'.pending
  {
    hide CanMove;
    var u: Tid, d :| u < |s.threads| && CanMove(s, u, d) && s' == Moved(s, u, d);
  }

  lemma SetsFlag(s: State, s': State, t: Tid)
    requires Step(s, s') && t < |s.threads| <= |s'.threads| && s.threads[t].SetPending? && s'.threads[t].SwapOut?
    ensures s'.pending
  {
    hide CanMove;
    var u: Tid, d :| u < |s.threads| && CanMove(s, u, d) && s' == Moved(s, u, d);
  }

  /** While only one thread unregisters past its first check, the flag stays set from its setting to its clearing. */
  lemma {:induction false} FlagStaysSet(states: seq<State>, a: nat, b: nat, t: Tid)
    requires FlagsAlone(states, a, b, t)
    ensures states[b].pending
    decreases b - a
  {
    hide Run, Step, Flagging;
    if a == b {
      RunSteps(states, a - 1);
      SameThreads(states[a - 1], states[a], t);
      SetsFlag(states[a - 1], states[a], t);
    } else {
      FlagStaysSet(states, a, b - 1, t);
      RunSteps(states, b - 1);
      SameThreads(states[b - 1], states[b], t);
      OnlyClears(states[b - 1], states[b], t);
    }
  }

  // ----- every call ends -----

  /** The most steps a thread has before its call ends. */
  function StepsLeft(pc: Pc): nat {
    match pc
    case Idle => 0
    case CheckPending(_) => 3
    case SwapIn(_) => 2
    case Retain(_) => 1
    case CheckCurrent(_) => 6
    case SetPending(_) => 5
    case SwapOut(_) => 4
    case AwaitCalls(_) => 3
    case Release(_) => 2
    case ClearPending(_) => 1
    case PeekSlot => 8
    case PeekPending => 7
    case CountUp => 6
    case ReadSlot => 5
    case SwapSame(_) => 4
    case SwapNull(_) => 3
    case CountDown => 1
    case Using(_) => 2
    case Put(_) => 1
  }

  /** No call takes more than eight steps of its own, but that unregistering waits while calls are in flight. */
  lemma CallsEnd(s: State, pc: Pc, c: Choice)
    requires !pc.Idle? && !(pc.AwaitCalls? && s.calls != 0)
    ensures StepsLeft(NextPc(s, pc, c)) < StepsLeft(pc) <= 8
  {
  }
}
