/** Bounded buckets: a least-recently-used cache per bucket, and a limit that growth respects. */
module HashCache {
  import opened Arithmetic
  import opened Options
  import opened Sequences
  import opened HashModel
  import opened HashRuns

  /** used maps each stored key to the last time it was inserted, fetched or replaced. */
  datatype Lru = Lru(vals: map<Key, Datum>, used: map<Key, nat>, now: nat)

  ghost function Bucketful(vals: map<Key, Datum>, slot: HashFn, b: nat): set<Key> {
    set x | x in vals && slot(x) == b
  }

  ghost predicate IsOldest(keys: set<Key>, used: map<Key, nat>, v: Key) {
    v in keys && v in used && forall x :: x in keys && x in used ==> used[v] <= used[x]
  }

  lemma {:induction false} SomeOldest(keys: set<Key>, used: map<Key, nat>)
    requires keys != {} && keys <= used.Keys
    ensures exists v :: IsOldest(keys, used, v)
    decreases |keys|
  {
    var x :| x in keys;
    var rest := keys - {x};
    if rest == {} {
      assert keys == {x};
      assert IsOldest(keys, used, x);
    } else {
      SomeOldest(rest, used);
      var v :| IsOldest(rest, used, v);
      assert IsOldest(keys, used, if used[x] < used[v] then x else v);
    }
  }

  ghost function Oldest(keys: set<Key>, used: map<Key, nat>): (v: Key)
    requires keys != {} && keys <= used.Keys
    ensures IsOldest(keys, used, v)
  {
    SomeOldest(keys, used);
    var v :| IsOldest(keys, used, v);
    v
  }

  ghost predicate Counts(s: Lru) {
    s.used.Keys == s.vals.Keys && forall k :: k in s.used ==> s.used[k] < s.now
  }

  ghost function Use(s: Lru, k: Key): Lru {
    s.(used := s.used[k := s.now], now := s.now + 1)
  }

  /** The cache's own account of an operation: a full bucket gives up its least recently used key. */
  ghost function ApplyLru(s: Lru, op: Op, slot: HashFn, limit: nat): (r: (Lru, Reply))
    requires Counts(s) && limit > 0
    ensures Counts(r.0)
  {
    match op
    case InsertOp(k, d, memory, lost) =>
      var full := Bucketful(s.vals, slot, slot(k));
      if k in s.vals then (s, Present)
      else if !memory then (s, NoRoom)
      else if |full| >= limit then
        var v := Oldest(full, s.used);
        (Use(Lru((s.vals - {v})[k := d], s.used - {v}, s.now), k), Entered(Some((v, s.vals[v]))))
      else
        (Use(s.(vals := s.vals[k := d]), k), Entered(None))
    case GetOp(k) =>
      if k in s.vals then (Use(s, k), Found(Some(s.vals[k]))) else (s, Found(None))
    case ReplaceOp(k, d) =>
      if k in s.vals then (Use(s.(vals := s.vals[k := d]), k), Found(Some(s.vals[k]))) else (s, Found(None))
    case RemoveOp(k) =>
      if k in s.vals then (Lru(s.vals - {k}, s.used - {k}, s.now), Found(Some(s.vals[k]))) else (s, Found(None))
    case _ => (s, Done)
  }

  /** The chain is ordered from the most to the least recently used. */
  ghost predicate ByUse(c: seq<Key>, used: map<Key, nat>) {
    && (forall k :: k in c ==> k in used)
    && forall i, j :: 0 <= i < j < |c| ==> used[c[i]] > used[c[j]]
  }

  ghost predicate Agrees(t: Table, s: Lru) {
    t.vals == s.vals && Counts(s) && forall b :: 0 <= b < |t.chains| ==> ByUse(t.chains[b], s.used)
  }

  ghost predicate IsCache(t: Table, limit: nat) {
    WellFormed(t) && t.limit == limit > 0 && t.heuristic == MoveToFront && !t.autoRehash
  }

  predicate CacheOp(op: Op) {
    op.InsertOp? || op.GetOp? || op.ReplaceOp? || op.RemoveOp?
  }

  lemma BucketfulIsChain(t: Table, b: nat)
    requires WellFormed(t) && b < t.size
    ensures |Bucketful(t.vals, t.slot, b)| == |t.chains[b]|
    ensures forall k :: k in Bucketful(t.vals, t.slot, b) <==> k in t.chains[b]
  {
    assert ChainOk(t, b);
    DistinctSize(t.chains[b]);
    assert Bucketful(t.vals, t.slot, b) == set x | x in t.chains[b];
  }

  lemma OnlyLastIsOldest(c: seq<Key>, keys: set<Key>, used: map<Key, nat>, v: Key)
    requires ByUse(c, used) && c != [] && forall k :: k in keys <==> k in c
    requires IsOldest(keys, used, v)
    ensures v == c[|c| - 1]
  {
    var i := Find(c, v);
    assert c[|c| - 1] in keys;
  }

  lemma LastIsOldest(t: Table, s: Lru, b: nat)
    requires WellFormed(t) && Agrees(t, s) && b < t.size && t.chains[b] != []
    ensures var keys, c := Bucketful(t.vals, t.slot, b), t.chains[b];
      && keys != {} && keys <= s.used.Keys && Oldest(keys, s.used) == c[|c| - 1]
  {
    BucketfulIsChain(t, b);
    hide Bucketful, WellFormed, ByUse, IsOldest;
    var keys, c := Bucketful(t.vals, t.slot, b), t.chains[b];
    assert c[0] in keys;
    OnlyLastIsOldest(c, keys, s.used, Oldest(keys, s.used));
  }

  lemma FrontByUse(c: seq<Key>, i: nat, used: map<Key, nat>, now: nat)
    requires ByUse(c, used) && Distinct(c) && i < |c| && forall k :: k in used ==> used[k] < now
    ensures ByUse(Front(c, i), used[c[i] := now])
  {
    FrontKeeps(c, i);
  }

  lemma WithoutByUse(c: seq<Key>, k: Key, used: map<Key, nat>)
    requires ByUse(c, used) && Distinct(c)
    ensures ByUse(Without(c, k), used - {k})
  {
    WithoutKeeps(c, k);
  }

  lemma OthersByUse(c: seq<Key>, k: Key, used: map<Key, nat>, now: nat)
    requires ByUse(c, used) && k !in c
    ensures ByUse(c, used[k := now]) && ByUse(c, used - {k})
  {
  }

  lemma PushByUse(c: seq<Key>, k: Key, used: map<Key, nat>, now: nat)
    requires ByUse(c, used) && k !in c && forall x :: x in used ==> used[x] < now
    ensures ByUse([k] + c, used[k := now])
  {
  }

  lemma UsedInBucket(t: Table, s: Lru, k: Key)
    requires WellFormed(t) && Agrees(t, s) && k in t.vals
    ensures forall b :: 0 <= b < |t.chains| && b != Bucket(t, k) ==>
      ByUse(t.chains[b], s.used[k := s.now]) && ByUse(t.chains[b], s.used - {k})
  {
    forall b | 0 <= b < |t.chains| && b != Bucket(t, k)
      ensures ByUse(t.chains[b], s.used[k := s.now]) && ByUse(t.chains[b], s.used - {k})
    {
      assert ChainOk(t, b);
      OthersByUse(t.chains[b], k, s.used, s.now);
    }
  }

  lemma HitAgrees(t: Table, s: Lru, k: Key)
    requires IsCache(t, t.limit) && Agrees(t, s) && k in t.vals
    ensures Agrees(Touch(t, k, MoveToFront), Use(s, k))
  {
    var b := Bucket(t, k);
    assert ChainOk(t, b);
    UsedInBucket(t, s, k);
    FrontByUse(t.chains[b], Find(t.chains[b], k), s.used, s.now);
  }

  lemma RemoveAgrees(t: Table, s: Lru, k: Key)
    requires WellFormed(t) && Agrees(t, s) && k in t.vals
    ensures Agrees(Remove(t, k), Lru(s.vals - {k}, s.used - {k}, s.now))
  {
    var b := Bucket(t, k);
    assert ChainOk(t, b);
    UsedInBucket(t, s, k);
    WithoutByUse(t.chains[b], k, s.used);
  }

  lemma EnterAgrees(t: Table, s: Lru, k: Key, d: Datum)
    requires WellFormed(t) && Agrees(t, s) && k !in t.vals && Victim(t, k).None?
    ensures Agrees(Place(t, k, d), Use(s.(vals := s.vals[k := d]), k))
  {
    var u := Place(t, k, d);
    forall b | 0 <= b < |t.chains| ensures ByUse(u.chains[b], s.used[k := s.now]) {
      assert ChainOk(t, b);
      OthersByUse(t.chains[b], k, s.used, s.now);
      PushByUse(t.chains[b], k, s.used, s.now);
    }
  }

  lemma EvictAgrees(t: Table, s: Lru, k: Key, d: Datum, v: Key)
    requires IsCache(t, t.limit) && Agrees(t, s) && k !in t.vals && Victim(t, k) == Some(v)
    ensures v in t.vals && Agrees(Place(t, k, d), Use(Lru((s.vals - {v})[k := d], s.used - {v}, s.now), k))
  {
    PlaceEvicts(t, k, d);
    RemoveWellFormed(t, v);
    RemoveAgrees(t, s, v);
    var u, r := Remove(t, v).(limit := 0), Lru(s.vals - {v}, s.used - {v}, s.now);
    SettingsIrrelevant(Remove(t, v), t.heuristic, t.autoRehash, 0);
    EnterAgrees(u, r, k, d);
    assert Agrees(Place(u, k, d), Use(r.(vals := r.vals[k := d]), k));
  }

  ghost predicate StepAgrees(t: Table, s: Lru, op: Op)
    requires WellFormed(t) && Counts(s) && t.limit > 0
  {
    var (u, reply), (r, answer) := Apply(t, op), ApplyLru(s, op, t.slot, t.limit);
    Agrees(u, r) && reply == answer && u.heuristic == MoveToFront && !u.autoRehash && u.slot == t.slot
  }

  lemma InsertStep(t: Table, s: Lru, k: Key, d: Datum, lost: set<Key>)
    requires IsCache(t, t.limit) && Agrees(t, s) && k !in t.vals
    ensures StepAgrees(t, s, InsertOp(k, d, true, lost))
  {
    BucketfulIsChain(t, Bucket(t, k));
    match Victim(t, k)
    case None =>
      EnterAgrees(t, s, k, d);
    case Some(v) =>
      LastIsOldest(t, s, Bucket(t, k));
      EvictAgrees(t, s, k, d, v);
  }

  lemma ReplaceStep(t: Table, s: Lru, k: Key, d: Datum)
    requires IsCache(t, t.limit) && Agrees(t, s) && k in t.vals
    ensures StepAgrees(t, s, ReplaceOp(k, d))
  {
    HitAgrees(t, s, k);
  }

  lemma CacheStep(t: Table, s: Lru, op: Op)
    requires IsCache(t, t.limit) && Masked(t) && Agrees(t, s) && CacheOp(op)
    ensures StepAgrees(t, s, op) && IsCache(Apply(t, op).0, t.limit) && Masked(Apply(t, op).0)
  {
    hide WellFormed, ByUse;
    ApplyKeeps(t, op);
    match op
    case InsertOp(k, d, memory, lost) =>
      if k !in t.vals && memory {
        InsertStep(t, s, k, d, lost);
      }
    case GetOp(k) =>
      if k in t.vals {
        HitAgrees(t, s, k);
      } else {
        Misses(t, k);
      }
    case ReplaceOp(k, d) =>
      if k in t.vals {
        ReplaceStep(t, s, k, d);
      }
    case RemoveOp(k) =>
      if k in t.vals {
        RemoveAgrees(t, s, k);
      }
  }

  lemma Misses(t: Table, k: Key)
    requires WellFormed(t) && k !in t.vals
    ensures Touch(t, k, t.heuristic) == t
  {
    assert ChainOk(t, Bucket(t, k));
  }

  ghost function RunLru(s: Lru, ops: seq<Op>, slot: HashFn, limit: nat): seq<Reply>
    requires Counts(s) && limit > 0
    decreases |ops|
  {
    if ops == [] then []
    else
      var (r, answer) := ApplyLru(s, ops[0], slot, limit);
      [answer] + RunLru(r, ops[1..], slot, limit)
  }

  /** Every run of a bounded table with move-to-front answers as the per-bucket cache does, and reports
      the evictions of the cache. */
  lemma {:induction false} BoundedTableIsLru(t: Table, s: Lru, ops: seq<Op>)
    requires IsCache(t, t.limit) && Masked(t) && Agrees(t, s) && forall op :: op in ops ==> CacheOp(op)
    ensures Run(t, ops).1 == RunLru(s, ops, t.slot, t.limit)
    decreases |ops|
  {
    if ops != [] {
      CacheStep(t, s, ops[0]);
      BoundedTableIsLru(Apply(t, ops[0]).0, ApplyLru(s, ops[0], t.slot, t.limit).0, ops[1..]);
    }
  }

  lemma NewBoundedTableIsLru(hash: HashFn, n: nat, limit: nat, ops: seq<Op>)
    requires limit > 0 && forall op :: op in ops ==> CacheOp(op)
    ensures var t := Empty(hash, n).(limit := limit, heuristic := MoveToFront);
      && WellFormed(t) && Masked(t)
      && Run(t, ops).1 == RunLru(Lru(map[], map[], 0), ops, t.slot, limit)
  {
    EmptyWellFormed(hash, n);
    SettingsIrrelevant(Empty(hash, n), MoveToFront, false, limit);
    BoundedTableIsLru(Empty(hash, n).(limit := limit, heuristic := MoveToFront), Lru(map[], map[], 0), ops);
  }

  // ----- growth keeps every bucket within the limit -----

  ghost predicate Within(t: Table, limit: nat) {
    forall b :: 0 <= b < |t.chains| ==> |t.chains[b]| <= limit
  }

  /** Every key of a bucket of the doubled table was in one and the same bucket before. */
  lemma DoublingSplits(t: Table, k: Key, lost: set<Key>)
    requires WellFormed(t) && Masked(t)
    ensures var u, b := Rehash(t, 2 * t.size, lost), Bucket(t, k);
      u.size == 2 * t.size && (Bucket(u, k) == b || Bucket(u, k) == b + t.size)
  {
    RehashKeepsContents(t, 2 * t.size, lost);
    var p: nat :| t.size == Pow2(p);
    assert 2 * t.size == Pow2(p + 1);
    LeastPowerIsSize(2 * t.size, p + 1);
    MaskSplits(t.hash(k), p);
  }

  lemma DoublingKeepsLimit(t: Table, limit: nat, lost: set<Key>)
    requires WellFormed(t) && Masked(t) && Within(t, limit)
    ensures Within(Rehash(t, 2 * t.size, lost), limit)
  {
    var u := Rehash(t, 2 * t.size, lost);
    RehashKeepsContents(t, 2 * t.size, lost);
    DoublingSplits(t, Key([]), lost);
    forall b | 0 <= b < |u.chains| ensures |u.chains[b]| <= limit {
      forall k ensures Bucket(u, k) == b ==> Bucket(t, k) == if b < t.size then b else b - t.size {
        DoublingSplits(t, k, lost);
      }
      NoMoreThanParent(t, u, b, if b < t.size then b else b - t.size);
    }
  }

  lemma NoMoreThanParent(t: Table, u: Table, b: nat, a: nat)
    requires WellFormed(t) && WellFormed(u) && u.vals.Keys <= t.vals.Keys && b < u.size && a < t.size
    requires forall k :: Bucket(u, k) == b ==> Bucket(t, k) == a
    ensures |u.chains[b]| <= |t.chains[a]|
  {
    BucketfulIsChain(t, a);
    BucketfulIsChain(u, b);
    var small, large := Bucketful(u.vals, u.slot, b), Bucketful(t.vals, t.slot, a);
    assert small <= large;
    SubsetIsSmaller(small, large);
  }

  lemma {:induction false} SubsetIsSmaller(a: set<Key>, b: set<Key>)
    requires a <= b
    ensures |a| <= |b|
  {
    assert b == a + (b - a);
    assert a !! (b - a);
  }

  lemma PlaceKeepsLimit(t: Table, k: Key, d: Datum)
    requires WellFormed(t) && t.limit > 0 && Within(t, t.limit)
    ensures Within(Place(t, k, d), t.limit)
  {
  }

  lemma ApplyKeepsLimit(t: Table, op: Op)
    requires WellFormed(t) && Masked(t) && t.limit > 0 && Within(t, t.limit) && !op.RehashOp?
    ensures Within(Apply(t, op).0, t.limit)
  {
    match op
    case InsertOp(k, d, memory, lost) =>
      InsertWellFormed(t, k, d, lost);
      if Crowded(t) {
        DoublingKeepsLimit(t, t.limit, lost);
        RehashKeepsContents(t, 2 * t.size, lost);
      }
      if k !in t.vals {
        PlaceKeepsLimit(Grown(t, lost), k, d);
      }
    case RemoveOp(k) =>
      assert ChainOk(t, Bucket(t, k));
      WithoutKeeps(t.chains[Bucket(t, k)], k);
    case _ =>
  }

  /** With a limit set on the empty table, no run with automatic rehashing overfills a bucket. */
  lemma {:induction false} GrowthRespectsLimit(t: Table, ops: seq<Op>)
    requires WellFormed(t) && Masked(t) && t.limit > 0 && Within(t, t.limit)
    requires forall op :: op in ops ==> !op.RehashOp?
    ensures Within(Run(t, ops).0, t.limit)
    decreases |ops|
  {
    if ops != [] {
      ApplyKeeps(t, ops[0]);
      ApplyKeepsLimit(t, ops[0]);
      GrowthRespectsLimit(Apply(t, ops[0]).0, ops[1..]);
    }
  }
}
