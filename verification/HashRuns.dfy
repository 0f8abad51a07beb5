/** What whole runs of hash table operations guarantee. */
module HashRuns {
  import opened Arithmetic
  import opened Options
  import opened Sequences
  import opened HashModel

  /** The keys in lost are those whose entries find no memory when the operation rehashes. */
  datatype Op =
    | InsertOp(k: Key, d: Datum, memory: bool, lost: set<Key>)
    | GetOp(k: Key)
    | ReplaceOp(k: Key, d: Datum)
    | RemoveOp(k: Key)
    | RehashOp(n: nat, lost: set<Key>)
    | HeuristicOp(h: Heuristic)
    | AutoRehashOp(on: bool)

  datatype Reply =
    | Entered(evicted: Option<(Key, Datum)>)
    | Present
    | NoRoom
    | Found(data: Option<Datum>)
    | Done

  ghost function Apply(t: Table, op: Op): (Table, Reply)
    requires WellFormed(t)
  {
    match op
    case InsertOp(k, d, memory, lost) =>
      if k in t.vals then (t, Present)
      else if !memory then (t, NoRoom)
      else (Insert(t, k, d, lost), Entered(Evicted(t, k, lost)))
    case GetOp(k) => (Touch(t, k, t.heuristic), Found(Lookup(t, k)))
    case ReplaceOp(k, d) => (Replace(t, k, d), Found(Lookup(t, k)))
    case RemoveOp(k) => (Remove(t, k), Found(Lookup(t, k)))
    case RehashOp(n, lost) => (Rehash(t, n, lost), Done)
    case HeuristicOp(h) => (t.(heuristic := h), Done)
    case AutoRehashOp(on) => (t.(autoRehash := on), Done)
  }

  /** Every operation keeps the structure and the relation of mask and size. */
  lemma ApplyKeeps(t: Table, op: Op)
    requires WellFormed(t) && Masked(t)
    ensures WellFormed(Apply(t, op).0) && Masked(Apply(t, op).0)
    ensures Apply(t, op).0.limit == t.limit && Apply(t, op).0.hash == t.hash
  {
    match op
    case InsertOp(k, d, memory, lost) =>
      InsertWellFormed(t, k, d, lost);
      if Crowded(t) {
        RehashKeepsContents(t, 2 * t.size, lost);
        SizeForIsLeastPower(2 * t.size);
      }
    case GetOp(k) => TouchWellFormed(t, k, t.heuristic);
    case ReplaceOp(k, d) => ReplaceWellFormed(t, k, d);
    case RemoveOp(k) => RemoveWellFormed(t, k);
    case RehashOp(n, lost) =>
      RehashKeepsContents(t, n, lost);
      SizeForIsLeastPower(n);
    case HeuristicOp(h) => SettingsIrrelevant(t, h, t.autoRehash, t.limit);
    case AutoRehashOp(on) => SettingsIrrelevant(t, t.heuristic, on, t.limit);
  }

  ghost function Run(t: Table, ops: seq<Op>): (r: (Table, seq<Reply>))
    requires WellFormed(t) && Masked(t)
    ensures WellFormed(r.0) && Masked(r.0)
    decreases |ops|
  {
    if ops == [] then (t, [])
    else
      ApplyKeeps(t, ops[0]);
      var (u, reply) := Apply(t, ops[0]);
      var (v, replies) := Run(u, ops[1..]);
      (v, [reply] + replies)
  }

  // ----- an unbounded table is a finite map with an insertion order -----

  /** The map, its keys from the oldest to the newest, the number of buckets, and whether that grows by itself. */
  datatype Dict = Dict(vals: map<Key, Datum>, order: seq<Key>, size: nat, growing: bool)

  ghost function AsDict(t: Table): Dict {
    Dict(t.vals, t.age, t.size, t.autoRehash)
  }

  /** What a rehash does: the keys that find no memory are lost. */
  function Resized(s: Dict, n: nat, lost: set<Key>): Dict {
    s.(vals := s.vals - lost, order := Minus(s.order, lost), size := SizeFor(n))
  }

  function ApplyDict(s: Dict, op: Op): (Dict, Reply) {
    match op
    case InsertOp(k, d, memory, lost) =>
      if k in s.vals then (s, Present)
      else if !memory then (s, NoRoom)
      else
        var u := if s.growing && |s.order| > 2 * s.size then Resized(s, 2 * s.size, lost) else s;
        (u.(vals := u.vals[k := d], order := u.order + [k]), Entered(None))
    case GetOp(k) => (s, Found(if k in s.vals then Some(s.vals[k]) else None))
    case ReplaceOp(k, d) =>
      if k in s.vals then (s.(vals := s.vals[k := d]), Found(Some(s.vals[k]))) else (s, Found(None))
    case RemoveOp(k) =>
      if k in s.vals then (s.(vals := s.vals - {k}, order := Without(s.order, k)), Found(Some(s.vals[k]))) else (s, Found(None))
    case RehashOp(n, lost) => (Resized(s, n, lost), Done)
    case HeuristicOp(h) => (s, Done)
    case AutoRehashOp(on) => (s.(growing := on), Done)
  }

  function RunDict(s: Dict, ops: seq<Op>): (Dict, seq<Reply>)
    decreases |ops|
  {
    if ops == [] then (s, [])
    else
      var (u, reply) := ApplyDict(s, ops[0]);
      var (v, replies) := RunDict(u, ops[1..]);
      (v, [reply] + replies)
  }

  lemma ApplyAsDict(t: Table, op: Op)
    requires WellFormed(t) && t.limit == 0
    ensures var (u, reply), (s, answer) := Apply(t, op), ApplyDict(AsDict(t), op);
      AsDict(u) == s && reply == answer && u.limit == 0
  {
    match op
    case InsertOp(k, d, memory, lost) =>
      InsertWellFormed(t, k, d, lost);
      if Crowded(t) {
        RehashKeepsContents(t, 2 * t.size, lost);
      }
    case RehashOp(n, lost) => RehashKeepsContents(t, n, lost);
    case _ =>
  }

  /** Whatever the hash function, the size, the heuristics and the rehashing, an unbounded table
      answers as a finite map with an insertion order. Only memory that runs out in a rehash takes keys out of it. */
  lemma {:induction false} RunsAsDictionary(t: Table, ops: seq<Op>)
    requires WellFormed(t) && Masked(t) && t.limit == 0
    ensures var (u, replies), (s, answers) := Run(t, ops), RunDict(AsDict(t), ops);
      AsDict(u) == s && replies == answers
    decreases |ops|
  {
    if ops != [] {
      ApplyAsDict(t, ops[0]);
      ApplyKeeps(t, ops[0]);
      RunsAsDictionary(Apply(t, ops[0]).0, ops[1..]);
    }
  }

  lemma NewTableIsDictionary(hash: HashFn, n: nat, ops: seq<Op>)
    ensures WellFormed(Empty(hash, n)) && Masked(Empty(hash, n))
    ensures var (u, replies), (s, answers) := Run(Empty(hash, n), ops), RunDict(Dict(map[], [], SizeFor(n), false), ops);
      AsDict(u) == s && replies == answers
  {
    EmptyWellFormed(hash, n);
    RunsAsDictionary(Empty(hash, n), ops);
  }

  lemma TouchedPermutes(c: seq<Key>, k: Key, h: Heuristic)
    requires k in c
    ensures multiset(Touched(c, k, h)) == multiset(c) && (h == NoHeuristic ==> Touched(c, k, h) == c)
  {
    FrontPermutes(c, Find(c, k));
    UpPermutes(c, Find(c, k));
  }

  /** A lookup permutes the chain of its key and changes nothing else; without a heuristic, nothing at all. */
  lemma LookupOnlyPermutes(t: Table, k: Key)
    requires WellFormed(t)
    ensures var u, b := Apply(t, GetOp(k)).0, Bucket(t, k);
      && u == t.(chains := u.chains) && |u.chains| == |t.chains|
      && (forall j :: 0 <= j < |t.chains| && j != b ==> u.chains[j] == t.chains[j])
      && multiset(u.chains[b]) == multiset(t.chains[b])
      && (t.heuristic == NoHeuristic ==> u == t)
  {
    hide Touched;
    var b := Bucket(t, k);
    var c := t.chains[b];
    if k in c {
      TouchedPermutes(c, k, t.heuristic);
      assert t.chains[b := c] == t.chains;
    }
  }

  /** What a lookup that finds its key does to the chain: transposing moves the key up by one place, moving to the front
      puts it before all others, and in both cases the others keep their order. */
  lemma LookupRearranges(t: Table, k: Key)
    requires WellFormed(t) && k in t.vals
    ensures var c, d := t.chains[Bucket(t, k)], Apply(t, GetOp(k)).0.chains[Bucket(t, k)];
      && k in c && |d| == |c| && Without(d, k) == Without(c, k)
      && match t.heuristic
         case NoHeuristic => d == c
         case TransposeUp => d[if Find(c, k) > 0 then Find(c, k) - 1 else 0] == k
         case MoveToFront => d[0] == k
  {
    var c := t.chains[Bucket(t, k)];
    assert ChainOk(t, Bucket(t, k));
    OthersInOrder(c, Find(c, k));
  }

  /** A new key is in the bucket its hash selects under the mask now in force, also when its insertion rehashed. */
  lemma InsertedWhereHashed(t: Table, k: Key, d: Datum, lost: set<Key>)
    requires WellFormed(t) && Masked(t) && k !in t.vals
    ensures var u := Insert(t, k, d, lost);
      && Shaped(u) && Masked(u) && u.chains[Bucket(u, k)] != [] && u.chains[Bucket(u, k)][0] == k
      && Bucket(u, k) == t.hash(k) % u.size
      && u.size == if Crowded(t) then SizeFor(2 * t.size) else t.size
  {
    ApplyKeeps(t, InsertOp(k, d, true, lost));
    InsertWellFormed(t, k, d, lost);
    if Crowded(t) {
      RehashKeepsContents(t, 2 * t.size, lost);
    }
    BucketIsModulus(Insert(t, k, d, lost), k);
  }
}
