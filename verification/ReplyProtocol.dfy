/** Requests to the daemon: kernel threads that send a message and wait, the queue, and the daemon that answers. */
module ReplyProtocol {
  import opened Options

  type Tid = nat
  type Id = nat

  /** A call that waits for a reply. id is the address of its message on the caller's stack, so it may be used again
      after the call; serial numbers the calls and is used only to state properties, as are a message's owner and
      serial, and the recorded answers. */
  datatype Request = Request(id: Id, serial: nat, filter: bool, inserted: bool)

  datatype Message = Message(id: Id, serial: nat, owner: Tid)

  datatype Item = Audit | PreOperation(m: Message)

  /** Where a kernel thread is in its call. */
  datatype Pc =
    | Idle
    | AddToMap(r: Request)
    | EnterList(r: Request)
    | Send(r: Request)
    | Sent(r: Request)
    | AcquireWait(r: Request)
    | CheckList(r: Request)
    | ReleaseWait(r: Request, wait: bool)
    | Block(r: Request)
    | Leave(r: Request, sent: bool)
    | Return(r: Request, sent: bool)

  /** Where the daemon is: reading the queue, or in the reply to a message. */
  datatype DaemonPc =
    | Ready
    | Got(m: Message)
    | Find(m: Message, answer: bool)
    | Write(m: Message, answer: bool, to: Option<Tid>)
    | AcquireSignal(m: Message, answer: bool)
    | LookSignal(m: Message, answer: bool)
    | Wake(m: Message, answer: bool)
    | Unlist(m: Message, answer: bool)
    | ReleaseSignal

  datatype Holder = Nobody | Kernel(t: Tid) | Daemon

  /** controlled is the caller's isControlledFile; listed the waiting list; pending the requests the reply may write to;
      asserted the threads that have declared they will wait and have not been woken; lost the callers whose message the
      queue refused. */
  datatype State = State(
    threads: seq<Pc>,
    controlled: seq<bool>,
    listed: map<Id, Tid>,
    pending: map<Id, Tid>,
    asserted: set<Tid>,
    holder: Holder,
    queue: seq<Item>,
    daemon: DaemonPc,
    answers: map<nat, bool>,
    lost: set<Tid>,
    next: nat)

  /** What the code does not decide: the kind of call and its address, whether an allocation or enqueue succeeds, and
      the daemon's answer. */
  datatype Choice = Choice(audit: bool, filter: bool, id: Id, ok: bool, answer: bool)

  predicate CanMove(s: State, t: Tid, c: Choice)
    requires t < |s.threads|
  {
    match s.threads[t]
    case Idle => c.audit || forall u: Tid | u < |s.threads| && !s.threads[u].Idle? :: s.threads[u].r.id != c.id
    case AcquireWait(_) => s.holder.Nobody?
    case Block(_) => t !in s.asserted
    case _ => true
  }

  /** What a kernel thread's move does to the shared state. */
  datatype Effect =
    | Nothing
    | Begin
    | Map(id: Id) | Unmap(id: Id) | Refuse
    | List(id: Id)
    | Enqueue(item: Item) | Lose
    | Lock | Unlock
    | AssertWait

  datatype Move = Move(next: Pc, effect: Effect)

  /** One step of a kernel thread. */
  function MoveOf(s: State, t: Tid, c: Choice): Move
    requires t < |s.threads|
  {
    match s.threads[t]
    case Idle =>
      if c.audit then Move(Idle, if c.ok then Enqueue(Audit) else Nothing)
      else if c.filter then Move(AddToMap(Request(c.id, s.next, true, false)), Begin)
      else Move(EnterList(Request(c.id, s.next, false, false)), Begin)
    case AddToMap(r) =>
      if c.ok then Move(EnterList(r.(inserted := true)), Map(r.id)) else Move(EnterList(r), Refuse)
    case EnterList(r) => if c.ok then Move(Send(r), List(r.id)) else Move(Leave(r, false), Nothing)
    case Send(r) => Move(Sent(r), if c.ok then Enqueue(PreOperation(Message(r.id, r.serial, t))) else Lose)
    case Sent(r) => Move(AcquireWait(r), Nothing)
    case AcquireWait(r) => Move(CheckList(r), Lock)
    case CheckList(r) =>
      if r.id in s.listed then Move(ReleaseWait(r, true), AssertWait) else Move(ReleaseWait(r, false), Nothing)
    case ReleaseWait(r, wait) => Move(if wait then Block(r) else Leave(r, true), Unlock)
    case Block(r) => Move(Leave(r, true), Nothing)
    case Leave(r, sent) => Move(Return(r, sent), if r.inserted then Unmap(r.id) else Nothing)
    case Return(r, sent) => Move(Idle, Nothing)
  }

  function Moved(s: State, t: Tid, m: Move): State
    requires t < |s.threads| == |s.controlled|
  {
    var f := m.effect;
    s.(threads := s.threads[t := m.next],
       controlled := if f.Begin? || f.Refuse? then s.controlled[t := false] else s.controlled,
       listed := if f.List? then s.listed[f.id := t] else s.listed,
       pending := if f.Map? then s.pending[f.id := t] else if f.Unmap? then s.pending - {f.id} else s.pending,
       asserted := if f.AssertWait? then s.asserted + {t} else s.asserted,
       holder := if f.Lock? then Kernel(t) else if f.Unlock? then Nobody else s.holder,
       queue := if f.Enqueue? then s.queue + [f.item] else s.queue,
       lost := if f.Lose? then s.lost + {t} else s.lost,
       next := if f.Begin? then s.next + 1 else s.next)
  }

  predicate DaemonCanMove(s: State) {
    match s.daemon
    case Ready => s.queue != []
    case AcquireSignal(_, _) => s.holder.Nobody?
    case _ => true
  }

  /** The threads waiting for an event. */
  ghost function Waiters(s: State, id: Id): set<Tid> {
    set t | t in s.asserted && t < |s.threads| && !s.threads[t].Idle? && s.threads[t].r.id == id
  }

  /** Where the daemon goes: it reads the queue, and replies once to every message that is not an audit record. */
  function DaemonNext(s: State, c: Choice): DaemonPc
    requires DaemonCanMove(s)
  {
    match s.daemon
    case Ready => if s.queue[0].Audit? then Ready else Got(s.queue[0].m)
    case Got(m) => Find(m, c.answer)
    case Find(m, a) => Write(m, a, if m.id in s.pending then Some(s.pending[m.id]) else None)
    case Write(m, a, to) => AcquireSignal(m, a)
    case AcquireSignal(m, a) => LookSignal(m, a)
    case LookSignal(m, a) => if m.id in s.listed then Wake(m, a) else ReleaseSignal
    case Wake(m, a) => Unlist(m, a)
    case Unlist(m, a) => ReleaseSignal
    case ReleaseSignal => Ready
  }

  /** One step of the daemon. */
  ghost function DaemonMove(s: State, c: Choice): State
    requires |s.threads| == |s.controlled| && DaemonCanMove(s)
  {
    var d := s.daemon;
    s.(daemon := DaemonNext(s, c),
       queue := if d.Ready? then s.queue[1..] else s.queue,
       answers := if d.Got? then s.answers[d.m.serial := c.answer] else s.answers,
       controlled := if d.Write? && d.to.Some? && d.to.value < |s.controlled| then s.controlled[d.to.value := d.answer]
                     else s.controlled,
       holder := if d.AcquireSignal? then Daemon else if d.ReleaseSignal? then Nobody else s.holder,
       asserted := if d.Wake? then s.asserted - Waiters(s, d.m.id) else s.asserted,
       listed := if d.Unlist? then s.listed - {d.m.id} else s.listed)
  }

  /** The caller does not enter the waiting list under an address that is still in it. */
  predicate Clear(s: State, t: Tid, c: Choice)
    requires t < |s.threads|
  {
    s.threads[t].EnterList? && c.ok ==> s.threads[t].r.id !in s.listed
  }

  ghost predicate ThreadStep(s: State, t: Tid, c: Choice, s': State) {
    t < |s.threads| == |s.controlled| && CanMove(s, t, c) && s' == Moved(s, t, MoveOf(s, t, c))
  }

  ghost predicate DaemonStep(s: State, c: Choice, s': State) {
    |s.threads| == |s.controlled| && DaemonCanMove(s) && s' == DaemonMove(s, c)
  }

  ghost predicate Next(s: State, s': State) {
    (exists t, c :: ThreadStep(s, t, c, s')) || (exists c :: DaemonStep(s, c, s'))
  }

  ghost predicate ClearNext(s: State, s': State) {
    (exists t, c :: ThreadStep(s, t, c, s') && Clear(s, t, c)) || (exists c :: DaemonStep(s, c, s'))
  }

  ghost predicate Initial(s: State) {
    && |s.threads| == |s.controlled| && (forall t :: 0 <= t < |s.threads| ==> s.threads[t] == Idle)
    && s.listed == map[] && s.pending == map[] && s.asserted == {} && s.holder == Nobody
    && s.queue == [] && s.daemon == Ready && s.answers == map[] && s.lost == {}
  }

  ghost predicate Run(states: seq<State>) {
    && |states| > 0 && Initial(states[0])
    && forall i :: 0 <= i < |states| - 1 ==> Next(states[i], states[i + 1])
  }

  ghost predicate ClearRun(states: seq<State>) {
    && |states| > 0 && Initial(states[0])
    && forall i :: 0 <= i < |states| - 1 ==> ClearNext(states[i], states[i + 1])
  }

  // ----- messages on their way -----

  /** The message the daemon has in hand and has not yet signalled, as an item. */
  function InHand(d: DaemonPc): Item {
    if d.Ready? || d.Unlist? || d.ReleaseSignal? then Audit else PreOperation(d.m)
  }

  /** Everything on its way: what the daemon has in hand, then the queue. */
  function Line(s: State): seq<Item> {
    [InHand(s.daemon)] + s.queue
  }

  predicate IsFor(i: Item, t: Tid) {
    i.PreOperation? && i.m.owner == t
  }

  ghost predicate Outstanding(line: seq<Item>, t: Tid) {
    exists k :: 0 <= k < |line| && IsFor(line[k], t)
  }

  /** In the waiting list, and not about to be taken out of it. */
  predicate Listed(s: State, id: Id) {
    id in s.listed && !(s.daemon.Unlist? && s.daemon.m.id == id)
  }

  /** Sent, and not yet known to be answered. */
  predicate Awaiting(pc: Pc) {
    pc.Sent? || pc.AcquireWait? || pc.CheckList? || (pc.ReleaseWait? && pc.wait) || pc.Block?
  }

  ghost predicate Blocked(s: State, t: Tid) {
    t < |s.threads| && s.threads[t].Block? && t in s.asserted
  }
}
