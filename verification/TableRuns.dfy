/** Runs of operations on the linked table itself: it answers as the model's runs do, and so as a dictionary or a cache. */
module TableRuns {
  import opened Options
  import opened Sequences
  import opened HashModel
  import opened EntryLists
  import opened HashTable
  import opened HashRuns
  import opened HashCache

  /** The number of buckets asked for, if a rehash is due, can be computed without overflow. */
  ghost predicate Sized(t: HashModel.Table, op: Op) {
    match op
    case InsertOp(_, _, _, _) => Crowded(t) ==> 2 * t.size <= MAX_REQUEST
    case RehashOp(n, _) => n <= MAX_REQUEST
    case _ => true
  }

  ghost predicate AllSized(t: HashModel.Table, ops: seq<Op>)
    requires WellFormed(t) && Masked(t)
    decreases |ops|
  {
    ops != [] ==>
      Sized(t, ops[0])
      && (ApplyKeeps(t, ops[0]); AllSized(Apply(t, ops[0]).0, ops[1..]))
  }

  /** Operations that touch no list of the table but the chain they search. */
  predicate Searching(op: Op) {
    op.GetOp? || op.ReplaceOp? || op.HeuristicOp? || op.AutoRehashOp?
  }

  /** One operation on the table. */
  method Perform(table: HashTable.Table, op: Op, ghost t: HashModel.Table) returns (reply: Reply)
    requires WellFormed(t) && Masked(t) && table.Represents(t) && Sized(t, op)
    modifies table, table.heads, table.counts, table.entries
    ensures table.Represents(Apply(t, op).0) && reply == Apply(t, op).1
    ensures (table.heads == old(table.heads) || fresh(table.heads)) && (table.counts == old(table.counts) || fresh(table.counts))
    ensures fresh(table.entries - old(table.entries))
    ensures Searching(op) || op.RemoveOp? ==>
              table.heads == old(table.heads) && table.counts == old(table.counts) && table.entries == old(table.entries)
              && table.node == old(table.node) - if op.RemoveOp? then {op.k} else {}
  {
    hide WellFormed, Masked, HashModel.Insert, HashModel.Replace, HashModel.Remove, HashModel.Rehash, Touch, Evicted, Crowded,
         HashTable.Table.Represents;
    match op
    case InsertOp(k, d, memory, lost) =>
      var r := table.Insert(k, d, memory, lost, t);
      reply := match r case Inserted(out) => Entered(out) case AlreadyInHash => Present case NoMemory => NoRoom;
    case GetOp(k) =>
      var r := table.Get(k, t);
      reply := Found(r);
    case ReplaceOp(k, d) =>
      var r := table.Replace(k, d, t);
      reply := Found(r);
    case RemoveOp(k) =>
      var r := table.Remove(k, t);
      reply := Found(r);
    case RehashOp(n, lost) =>
      table.Rehash(n, lost, t);
      reply := Done;
    case HeuristicOp(h) =>
      table.SetHeuristics(h, t);
      reply := Done;
    case AutoRehashOp(on) =>
      table.SetRehash(on, t);
      reply := Done;
  }

  /** Any operations, one after another. */
  method RunOps(table: HashTable.Table, ops: seq<Op>, ghost t: HashModel.Table) returns (replies: seq<Reply>)
    requires WellFormed(t) && Masked(t) && table.Represents(t) && AllSized(t, ops)
    modifies table, table.heads, table.counts, table.entries
    ensures table.Represents(Run(t, ops).0) && replies == Run(t, ops).1
    ensures (table.heads == old(table.heads) || fresh(table.heads)) && (table.counts == old(table.counts) || fresh(table.counts))
    ensures fresh(table.entries - old(table.entries))
  {
    hide WellFormed, Masked, Sized, Apply, HashTable.Table.Represents;
    replies := [];
    ghost var u := t;
    var i := 0;
    assert ops[0..] == ops;
    while i < |ops|
      invariant i <= |ops| && WellFormed(u) && Masked(u) && table.Represents(u) && AllSized(u, ops[i..])
      invariant Run(t, ops).0 == Run(u, ops[i..]).0 && Run(t, ops).1 == replies + Run(u, ops[i..]).1
      invariant (table.heads == old(table.heads) || fresh(table.heads)) && (table.counts == old(table.counts) || fresh(table.counts))
      invariant fresh(table.entries - old(table.entries))
    {
      ApplyKeeps(u, ops[i]);
      assert ops[i..][1..] == ops[i + 1..];
      var reply := Perform(table, ops[i], u);
      assert replies + ([reply] + Run(Apply(u, ops[i]).0, ops[i + 1..]).1)
          == (replies + [reply]) + Run(Apply(u, ops[i]).0, ops[i + 1..]).1;
      replies := replies + [reply];
      u := Apply(u, ops[i]).0;
      i := i + 1;
    }
    assert ops[i..] == [];
  }

  // ----- runs that are short enough never ask for too many buckets -----

  predicate Moderate(op: Op) {
    op.RehashOp? ==> op.n <= MAX_REQUEST
  }

  lemma AgeGrowsByOne(t: HashModel.Table, op: Op)
    requires WellFormed(t)
    ensures |Apply(t, op).0.age| <= |t.age| + 1
  {
    match op
    case InsertOp(k, d, memory, lost) =>
      InsertWellFormed(t, k, d, lost);
      if Crowded(t) {
        RehashShrinks(t, 2 * t.size, lost);
      }
      if k !in t.vals && memory {
        PlaceGrows(Grown(t, lost), k, d);
      }
    case RehashOp(n, lost) => RehashShrinks(t, n, lost);
    case _ =>
  }

  lemma RehashShrinks(t: HashModel.Table, n: nat, lost: set<Key>)
    requires WellFormed(t)
    ensures |HashModel.Rehash(t, n, lost).age| <= |t.age|
  {
    RehashKeepsContents(t, n, lost);
    MinusIsShorter(t.age, lost);
  }

  lemma PlaceGrows(t: HashModel.Table, k: Key, d: Datum)
    requires Shaped(t)
    ensures |Place(t, k, d).age| <= |t.age| + 1
  {
  }

  lemma {:induction false} ShortRunsAreSized(t: HashModel.Table, ops: seq<Op>)
    requires WellFormed(t) && Masked(t) && |t.age| + |ops| <= MAX_REQUEST
    requires forall op :: op in ops ==> Moderate(op)
    ensures AllSized(t, ops)
    decreases |ops|
  {
    hide WellFormed, Masked, Apply;
    if ops != [] {
      assert Moderate(ops[0]);
      ApplyKeeps(t, ops[0]);
      AgeGrowsByOne(t, ops[0]);
      ShortRunsAreSized(Apply(t, ops[0]).0, ops[1..]);
    }
  }

  // ----- new tables -----

  /** A new linked table, whatever its hash function and size and however it is rehashed, answers as a finite map with an
      insertion order does. */
  method RunAsDictionary(hash: HashFn, n: nat, ops: seq<Op>)
    returns (table: HashTable.Table, replies: seq<Reply>, ghost t: HashModel.Table)
    requires n <= MAX_REQUEST && |ops| <= MAX_REQUEST && forall op :: op in ops ==> Moderate(op)
    ensures fresh(table) && table.Represents(t)
    ensures (AsDict(t), replies) == RunDict(Dict(map[], [], SizeFor(n), false), ops)
  {
    hide WellFormed, Masked, AllSized, Run, RunDict, AsDict, HashTable.Table.Represents;
    NewTableIsDictionary(hash, n, ops);
    ShortRunsAreSized(Empty(hash, n), ops);
    table := new HashTable.Table(hash, n);
    replies := RunOps(table, ops, Empty(hash, n));
    t := Run(Empty(hash, n), ops).0;
  }

  /** A new linked table with bounded buckets and move-to-front answers, and reports evictions, as a cache per bucket that
      gives up what was least recently used. */
  method RunAsCache(hash: HashFn, n: nat, limit: nat, ops: seq<Op>) returns (table: HashTable.Table, replies: seq<Reply>)
    requires n <= MAX_REQUEST && |ops| <= MAX_REQUEST && limit > 0 && forall op :: op in ops ==> CacheOp(op)
    ensures fresh(table) && replies == RunLru(Lru(map[], map[], 0), ops, Mask(hash, SizeFor(n)), limit)
  {
    hide WellFormed, Masked, AllSized, Run, RunLru, HashTable.Table.Represents;
    ghost var t := Empty(hash, n).(limit := limit, heuristic := MoveToFront);
    NewBoundedTableIsLru(hash, n, limit, ops);
    ShortRunsAreSized(t, ops);
    table := new HashTable.Table(hash, n);
    table.SetBoundedBuckets(limit, Empty(hash, n));
    table.SetHeuristics(MoveToFront, Empty(hash, n).(limit := limit));
    assert Empty(hash, n).(limit := limit).(heuristic := MoveToFront) == t;
    replies := RunOps(table, ops, t);
  }
}
