/** The chained hash table itself: entries linked in place on two lists, bucket heads and counters in arrays. */
module HashTable {
  import opened Arithmetic
  import opened Options
  import opened Sequences
  import opened HashModel
  import opened EntryLists
  import opened TableFacts

  /** The largest number of buckets that can be asked for. */
  const MAX_REQUEST := 0x4000_0000

  /** What an insertion reports; evicted is what the bucket callback is given. */
  datatype InsertResult = Inserted(evicted: Option<(Key, Datum)>) | AlreadyInHash | NoMemory

  /** The entry an iteration is at and the one it goes to next. */
  datatype Iterator = Iterator(entry: Entry?, next: Entry?)

  /** The number of buckets for a request, and the mask that goes with it. */
  method TableSize(n: nat) returns (size: nat, mask: nat)
    requires n <= MAX_REQUEST
    ensures size == SizeFor(n) && mask == size - 1
  {
    size := 1;
    var i := 1;
    while size < n
      invariant i >= 1 && size == Pow2(i - 1) && (i == 1 || Pow2(i - 2) < n)
      decreases n - size
    {
      size := Pow2(i);
      i := i + 1;
    }
    mask := Pow2(i - 1) - 1;
    LeastPowerIsSize(n, i - 1);
  }

  class Table {
    const hash: HashFn
    var size: nat
    var mask: nat
    var items: nat
    var heads: array<Entry?>
    var counts: array<nat>
    var oldest: Entry?
    var newest: Entry?
    var heuristic: Heuristic
    var autoRehash: bool
    var limit: nat

    ghost var node: Nodes
    ghost var entries: set<Entry>

    constructor (hash: HashFn, n: nat)
      requires n <= MAX_REQUEST
      ensures Represents(Empty(hash, n)) && entries == {} && fresh(heads) && fresh(counts)
    {
      this.hash := hash;
      var sz, msk := TableSize(n);
      size, mask, items := sz, msk, 0;
      heads := new Entry?[sz](_ => null);
      counts := new nat[sz](_ => 0);
      oldest, newest := null, null;
      heuristic, autoRehash, limit := NoHeuristic, false, 0;
      node, entries := map[], {};
    }

    /** Creates a table, or nothing when one of its three allocations fails. */
    static method Create(hash: HashFn, n: nat, memory: bool) returns (table: Table?)
      requires n <= MAX_REQUEST
      ensures table == null <==> !memory
      ensures table != null ==> fresh(table) && fresh(table.heads) && fresh(table.counts)
      ensures table != null ==> table.Represents(Empty(hash, n)) && table.entries == {}
    {
      table := null;
      if memory {
        table := new Table(hash, n);
      }
    }

    ghost predicate Layout(m: HashModel.Table)
      reads `size, `mask, `items, `heads, `counts, `heuristic, `autoRehash, `limit
    {
      && hash == m.hash && size == m.size && mask == size - 1 && items == |m.age|
      && heads.Length == size && counts.Length == size && heads as object != counts as object
      && heuristic == m.heuristic && autoRehash == m.autoRehash && limit == m.limit
    }

    ghost predicate Held()
      reads `node, `entries
    {
      Named(node) && node.Values <= entries
    }

    ghost predicate Stored(vals: map<Key, Datum>)
      reads `node, `entries, node.Values`data
    {
      && node.Keys == vals.Keys && Held()
      && forall k :: k in node ==> node[k].data == vals[k]
    }

    ghost predicate Buckets(chains: seq<seq<Key>>)
      reads `node, `heads, heads, node.Values`next, node.Values`prev
    {
      heads.Length == |chains| && forall b :: 0 <= b < heads.Length ==> BucketOk(heads[b], node, chains[b])
    }

    ghost predicate Counted(chains: seq<seq<Key>>)
      reads `counts, counts
    {
      counts.Length == |chains| && forall b :: 0 <= b < counts.Length ==> counts[b] == |chains[b]|
    }

    ghost predicate Ages(age: seq<Key>)
      reads `node, `oldest, `newest, node.Values`older, node.Values`newer
    {
      && Known(node, age) && Aged(Refs(node, age))
      && oldest == At(Refs(node, age), 0) && newest == At(Refs(node, age), |age| - 1)
    }

    /** The linked structure stands for the table m. */
    ghost predicate Represents(m: HashModel.Table)
      reads this, heads, counts, node.Values
    {
      Layout(m) && Stored(m.vals) && Buckets(m.chains) && Counted(m.chains) && Ages(m.age)
    }

    method SearchInBucket(b: nat, k: Key, h: Heuristic, ghost t: HashModel.Table) returns (p: Entry?)
      requires Represents(t) && Homed(node, t, k, b)
      modifies heads, entries`next, entries`prev
      ensures (p == null <==> k !in t.chains[b]) && (p != null ==> k in node && p == node[k])
      ensures Represents(Touch(t, k, h))
      ensures h == NoHeuristic ==> unchanged(heads) && forall e | e in node.Values :: e.next == old(e.next) && e.prev == old(e.prev)
    {
      ghost var m := Touch(t, k, h);
      assert Layout(m) && Stored(m.vals);
      assert Counted(m.chains);
      assert m.chains == t.chains[b := if k in t.chains[b] then Touched(t.chains[b], k, h) else t.chains[b]];
      p := SearchBuckets(b, k, h, t.chains, m);
    }

    method SearchBuckets(b: nat, k: Key, h: Heuristic, ghost chains: seq<seq<Key>>, ghost m: HashModel.Table) returns (p: Entry?)
      requires Buckets(chains) && Held() && Apart(node, chains, b) && b < heads.Length == |chains|
      requires m.chains == chains[b := if k in chains[b] then Touched(chains[b], k, h) else chains[b]]
      requires Layout(m) && Stored(m.vals) && Counted(m.chains) && Ages(m.age)
      modifies heads, entries`next, entries`prev
      ensures (p == null <==> k !in chains[b]) && (p != null ==> k in node && p == node[k])
      ensures Layout(m) && Stored(m.vals) && Buckets(m.chains) && Counted(m.chains) && Ages(m.age)
      ensures h == NoHeuristic ==> unchanged(heads) && forall e | e in node.Values :: e.next == old(e.next) && e.prev == old(e.prev)
    {
      hide *;
      p := SearchHeads(b, k, h, chains);
    }

    method SearchHeads(b: nat, k: Key, h: Heuristic, ghost chains: seq<seq<Key>>) returns (p: Entry?)
      requires Buckets(chains) && Held() && Apart(node, chains, b) && b < heads.Length == |chains|
      modifies heads, entries`next, entries`prev
      ensures (p == null <==> k !in chains[b]) && (p != null ==> k in node && p == node[k])
      ensures Buckets(chains[b := if k in chains[b] then Touched(chains[b], k, h) else chains[b]])
      ensures h == NoHeuristic ==> unchanged(heads) && forall e | e in node.Values :: e.next == old(e.next) && e.prev == old(e.prev)
    {
      p := SearchChain(heads, b, k, h, node, chains[b]);
      forall j | 0 <= j < heads.Length && j != b ensures BucketOk(heads[j], node, chains[j]) {
        assert old(BucketOk(heads[j], node, chains[j]));
      }
    }

    /** Links p out of its chain and out of the age list. */
    method RemoveFromChain(b: nat, p: Entry, ghost k: Key, ghost chains: seq<seq<Key>>, ghost age: seq<Key>)
      requires Buckets(chains) && Ages(age) && Held() && k in node && p == node[k]
      requires b < heads.Length && Apart(node, chains, b) && k in chains[b]
      requires Distinct(age) && k in age
      modifies `oldest, `newest, heads, entries`next, entries`prev, On(node, age)`older, On(node, age)`newer
      ensures Buckets(chains[b := Without(chains[b], k)]) && Ages(Without(age, k))
    {
      hide *;
      RemoveFromBucket(b, p, k, chains);
      RemoveFromAges(p, k, age);
    }

    method RemoveFromBucket(b: nat, p: Entry, ghost k: Key, ghost chains: seq<seq<Key>>)
      requires Buckets(chains) && Held() && k in node && p == node[k]
      requires b < heads.Length && Apart(node, chains, b) && k in chains[b]
      modifies heads, entries`next, entries`prev
      ensures Buckets(chains[b := Without(chains[b], k)])
    {
      ghost var c := chains[b];
      ghost var i := Find(c, k);
      assert BucketOk(heads[b], node, c);
      RefsDistinct(node, c);
      RefsRemoveAt(node, c, i);
      RefsOn(node, c);
      UnlinkChain(heads, b, p, Refs(node, c), i);
      forall j | 0 <= j < heads.Length && j != b ensures BucketOk(heads[j], node, chains[j]) {
        assert old(BucketOk(heads[j], node, chains[j]));
      }
    }

    method RemoveFromAges(p: Entry, ghost k: Key, ghost age: seq<Key>)
      requires Ages(age) && Held() && k in node && p == node[k] && Distinct(age) && k in age
      modifies `oldest, `newest, On(node, age)`older, On(node, age)`newer
      ensures Ages(Without(age, k))
    {
      RefsDistinct(node, age);
      RefsRemoveAt(node, age, Find(age, k));
      RefsOn(node, age);
      UnlinkAge(p, Refs(node, age), Find(age, k));
    }

    method UnlinkAge(p: Entry, ghost a: seq<Entry>, ghost i: nat)
      requires Aged(a) && Distinct(a) && i < |a| && a[i] == p
      requires oldest == At(a, 0) && newest == At(a, |a| - 1)
      modifies `oldest, `newest, a`older, a`newer
      ensures var d := RemoveAt(a, i);
        Aged(d) && oldest == At(d, 0) && newest == At(d, |d| - 1)
    {
      ghost var pos := PositionsOf(a);
      ghost var d := RemoveAt(a, i);
      assert AgedAt(a, i);
      assert i > 0 ==> AgedAt(a, i - 1);
      assert i + 1 < |a| ==> AgedAt(a, i + 1);
      if p.older != null {
        p.older.newer := p.newer;
      } else {
        oldest := p.newer;
      }
      if p.newer != null {
        p.newer.older := p.older;
      } else {
        newest := p.older;
      }
      forall j | 0 <= j < |d| ensures AgedAt(d, j) {
        ghost var k := if j < i then j else j + 1;
        assert old(AgedAt(a, k)) && pos[a[k]] == k;
      }
    }

    /** Puts a fresh entry at the newest end of the age list. */
    method AppendAge(e: Entry, ghost a: seq<Entry>)
      requires Aged(a) && Distinct(a) && e !in a && e.newer == null
      requires oldest == At(a, 0) && newest == At(a, |a| - 1)
      modifies `oldest, `newest, a`newer, e`older
      ensures var d := a + [e];
        Aged(d) && oldest == At(d, 0) && newest == e
    {
      ghost var pos := PositionsOf(a);
      ghost var d := a + [e];
      assert |a| > 0 ==> AgedAt(a, |a| - 1);
      if oldest == null {
        oldest := e;
      }
      e.older := newest;
      if newest != null {
        newest.newer := e;
      }
      newest := e;
      forall j | 0 <= j < |d| ensures AgedAt(d, j) {
        if j < |a| {
          assert old(AgedAt(a, j)) && pos[a[j]] == j;
        }
      }
    }

    method Get(k: Key, ghost t: HashModel.Table) returns (r: Option<Datum>)
      requires WellFormed(t) && Masked(t) && Represents(t)
      modifies heads, entries`next, entries`prev
      ensures Represents(Touch(t, k, t.heuristic)) && r == Lookup(t, k)
      ensures t.heuristic == NoHeuristic ==> unchanged(heads) && forall e | e in node.Values :: e.next == old(e.next) && e.prev == old(e.prev)
    {
      var b := BitAnd(hash(k), mask);
      ChainsApart(t, node, k);
      var p := SearchInBucket(b, k, heuristic, t);
      r := if p != null then Some(p.data) else None;
    }

    method Replace(k: Key, d: Datum, ghost t: HashModel.Table) returns (r: Option<Datum>)
      requires WellFormed(t) && Masked(t) && Represents(t)
      modifies heads, entries`next, entries`prev, entries`data
      ensures Represents(HashModel.Replace(t, k, d)) && r == Lookup(t, k)
    {
      var b := BitAnd(hash(k), mask);
      ChainsApart(t, node, k);
      r := ReplaceIn(b, k, d, t);
    }

    method ReplaceIn(b: nat, k: Key, d: Datum, ghost t: HashModel.Table) returns (r: Option<Datum>)
      requires Represents(t) && Homed(node, t, k, b)
      modifies heads, entries`next, entries`prev, entries`data
      ensures Represents(HashModel.Replace(t, k, d)) && r == Lookup(t, k)
    {
      var p := SearchInBucket(b, k, heuristic, t);
      r := None;
      if p != null {
        r := Some(p.data);
        SetData(p, k, d, Touch(t, k, t.heuristic));
      }
    }

    method SetData(p: Entry, ghost k: Key, d: Datum, ghost t: HashModel.Table)
      requires Represents(t) && k in node && p == node[k]
      modifies p`data
      ensures Represents(t.(vals := t.vals[k := d]))
    {
      p.data := d;
    }

    /** Gives up an entry that is on no list any more. */
    ghost method Forget(k: Key, chains: seq<seq<Key>>, age: seq<Key>)
      requires Buckets(chains) && Ages(age) && k !in age
      requires forall j :: 0 <= j < |chains| ==> k !in chains[j]
      modifies `node
      ensures node == old(node) - {k} && Buckets(chains) && Ages(age)
    {
      ghost var was := node;
      node := node - {k};
      RefsForget(was, k, age);
      forall j | 0 <= j < heads.Length ensures BucketOk(heads[j], node, chains[j]) {
        assert BucketOk(heads[j], was, chains[j]);
        RefsForget(was, k, chains[j]);
      }
    }

    method Remove(k: Key, ghost t: HashModel.Table) returns (r: Option<Datum>)
      requires WellFormed(t) && Masked(t) && Represents(t)
      modifies this, heads, counts, entries
      ensures Represents(HashModel.Remove(t, k)) && r == Lookup(t, k)
      ensures heads == old(heads) && counts == old(counts) && entries == old(entries) && node == old(node) - {k}
    {
      var b := BitAnd(hash(k), mask);
      ChainsApart(t, node, k);
      if k in t.vals {
        RemoveShape(t, k);
      }
      r := RemoveIn(b, k, t);
    }

    method RemoveIn(b: nat, k: Key, ghost t: HashModel.Table) returns (r: Option<Datum>)
      requires Represents(t) && Homed(node, t, k, b) && (k in t.vals ==> RemovedOnce(t, HashModel.Remove(t, k), k, b))
      modifies this, heads, counts, entries
      ensures Represents(HashModel.Remove(t, k)) && r == Lookup(t, k)
      ensures heads == old(heads) && counts == old(counts) && entries == old(entries) && node == old(node) - {k}
    {
      var p := SearchInBucket(b, k, NoHeuristic, t);
      r := None;
      if p != null {
        assert Touch(t, k, NoHeuristic) == t;
        r := Some(p.data);
        Discard(b, p, k, t, HashModel.Remove(t, k));
      }
    }

    /** Takes an entry off both lists, out of the counters and out of the table. */
    method Discard(b: nat, p: Entry, ghost k: Key, ghost t: HashModel.Table, ghost m: HashModel.Table)
      requires Represents(t) && Apart(node, t.chains, b) && RemovedOnce(t, m, k, b)
      requires k in node && p == node[k] && k in t.chains[b]
      modifies this, heads, counts, entries
      ensures Represents(m)
      ensures heads == old(heads) && counts == old(counts) && entries == old(entries) && node == old(node) - {k}
    {
      ghost var m1 := m.(vals := t.vals);
      Uncouple(b, p, k, t, m1);
      ForgetEntry(k, m1);
    }

    method Uncouple(b: nat, p: Entry, ghost k: Key, ghost t: HashModel.Table, ghost m: HashModel.Table)
      requires Represents(t) && Apart(node, t.chains, b) && RemovedOnce(t, m.(vals := t.vals - {k}), k, b)
      requires k in node && p == node[k] && k in t.chains[b] && m.vals == t.vals
      modifies `items, `oldest, `newest, heads, counts
      modifies entries`next, entries`prev, entries`older, entries`newer
      ensures Represents(m)
    {
      CountDown(b, t.chains, m.chains[b]);
      assert Layout(m);
      assert Stored(m.vals);
      UnlinkBoth(b, p, k, t.chains, t.age, m);
    }

    method UnlinkBoth(b: nat, p: Entry, ghost k: Key, ghost chains: seq<seq<Key>>, ghost age: seq<Key>, ghost m: HashModel.Table)
      requires Layout(m) && Stored(m.vals) && Counted(m.chains) && Held() && b < heads.Length
      requires Buckets(chains) && Ages(age) && Apart(node, chains, b) && k in chains[b] && k in node && p == node[k]
      requires Distinct(age) && k in age
      requires m.chains == chains[b := Without(chains[b], k)] && m.age == Without(age, k)
      modifies `oldest, `newest, heads, entries`next, entries`prev, entries`older, entries`newer
      ensures Layout(m) && Stored(m.vals) && Buckets(m.chains) && Counted(m.chains) && Ages(m.age)
    {
      hide *;
      RemoveFromBoth(b, p, k, chains, age);
    }

    method RemoveFromBoth(b: nat, p: Entry, ghost k: Key, ghost chains: seq<seq<Key>>, ghost age: seq<Key>)
      requires Buckets(chains) && Ages(age) && Held() && k in node && p == node[k]
      requires b < heads.Length && Apart(node, chains, b) && k in chains[b]
      requires Distinct(age) && k in age
      modifies `oldest, `newest, heads, entries`next, entries`prev, entries`older, entries`newer
      ensures Buckets(chains[b := Without(chains[b], k)]) && Ages(Without(age, k))
    {
      RemoveFromChain(b, p, k, chains, age);
    }

    method CountDown(b: nat, ghost chains: seq<seq<Key>>, ghost c: seq<Key>)
      requires Counted(chains) && b < |chains| && items > 0 && |c| == |chains[b]| - 1
      modifies `items, counts
      ensures Counted(chains[b := c]) && items == old(items) - 1
    {
      items := items - 1;
      counts[b] := counts[b] - 1;
    }

    /** A fresh entry that is on no list yet becomes the entry of its key. */
    ghost method Adopt(e: Entry, k: Key, chains: seq<seq<Key>>, age: seq<Key>)
      requires Buckets(chains) && Ages(age) && Held() && e.key == k && k !in node
      modifies `node, `entries
      ensures node == old(node)[k := e] && entries == old(entries) + {e} && Held() && Buckets(chains) && Ages(age)
    {
      ghost var was := node;
      node := node[k := e];
      entries := entries + {e};
      RefsAdopt(was, k, e, age);
      forall j | 0 <= j < heads.Length ensures BucketOk(heads[j], node, chains[j]) {
        assert BucketOk(heads[j], was, chains[j]);
        RefsAdopt(was, k, e, chains[j]);
      }
    }

    method PlaceFirst(b: nat, e: Entry, ghost k: Key, ghost chains: seq<seq<Key>>)
      requires Buckets(chains) && Held() && k in node && node[k] == e
      requires Apart(node, chains, b) && forall j :: 0 <= j < |chains| ==> e !in On(node, chains[j])
      modifies heads, On(node, chains[b])`prev, e`next, e`prev
      ensures Buckets(chains[b := [k] + chains[b]])
    {
      ghost var c := chains[b];
      assert BucketOk(heads[b], node, c);
      RefsDistinct(node, c);
      RefsOn(node, c);
      assert Refs(node, [k] + c) == [e] + Refs(node, c);
      LinkFirst(heads, b, e, Refs(node, c));
      forall j | 0 <= j < heads.Length && j != b ensures BucketOk(heads[j], node, chains[j]) {
        assert old(BucketOk(heads[j], node, chains[j]));
      }
    }

    method PlaceNewest(e: Entry, ghost k: Key, ghost age: seq<Key>)
      requires Ages(age) && Held() && k in node && node[k] == e && Distinct(age) && k !in age
      requires e.newer == null
      modifies `oldest, `newest, On(node, age)`newer, e`older
      ensures Ages(age + [k])
    {
      RefsDistinct(node, age);
      RefsOn(node, age);
      assert Refs(node, age + [k]) == Refs(node, age) + [e];
      AppendAge(e, Refs(node, age));
    }

    method CountUp(b: nat, ghost chains: seq<seq<Key>>, ghost c: seq<Key>)
      requires Counted(chains) && b < |chains| && |c| == |chains[b]| + 1
      modifies `items, counts
      ensures Counted(chains[b := c]) && items == old(items) + 1
    {
      counts[b] := counts[b] + 1;
      items := items + 1;
    }

    /** Inserts a new key; memory says whether the allocator has room for its entry, and lost names the keys for whose
        entries it has none if the insertion rehashes. */
    method Insert(k: Key, d: Datum, memory: bool, lost: set<Key>, ghost t: HashModel.Table) returns (r: InsertResult)
      requires WellFormed(t) && Masked(t) && Represents(t)
      requires Crowded(t) ==> 2 * t.size <= MAX_REQUEST
      modifies this, heads, counts, entries
      ensures r.AlreadyInHash? <==> k in t.vals
      ensures r.NoMemory? <==> k !in t.vals && !memory
      ensures !r.Inserted? ==> Represents(t)
      ensures r.Inserted? ==> Represents(HashModel.Insert(t, k, d, lost)) && r.evicted == Evicted(t, k, lost)
      ensures (heads == old(heads) || fresh(heads)) && (counts == old(counts) || fresh(counts))
      ensures fresh(entries - old(entries))
      decreases if t.autoRehash then 1 else 0, 1
    {
      hide *;
      GrownFacts(t, k, d, lost);
      var found := Contains(k, t);
      if found {
        return AlreadyInHash;
      }
      if !memory {
        return NoMemory;
      }
      var e := new Entry(k, d);
      Grow(lost, t);
      r := InsertEntry(e, k, d, Grown(t, lost));
    }

    /** The search that precedes an insertion: no heuristic is applied. */
    method Contains(k: Key, ghost t: HashModel.Table) returns (found: bool)
      requires WellFormed(t) && Masked(t) && Represents(t)
      modifies heads, entries`next, entries`prev
      ensures Represents(t) && found == (k in t.vals)
    {
      var b := BitAnd(hash(k), mask);
      ChainsApart(t, node, k);
      var p := SearchInBucket(b, k, NoHeuristic, t);
      assert Touch(t, k, NoHeuristic) == t;
      found := p != null;
    }

    /** Rehashes to twice the size when there are more than two items a bucket and rehashing is automatic. */
    method Grow(lost: set<Key>, ghost t: HashModel.Table)
      requires WellFormed(t) && Represents(t) && (Crowded(t) ==> 2 * t.size <= MAX_REQUEST)
      modifies this
      ensures Represents(Grown(t, lost))
      ensures (heads == old(heads) && counts == old(counts) && entries == old(entries))
           || (fresh(heads) && fresh(counts) && fresh(entries))
      decreases if t.autoRehash then 1 else 0, 0
    {
      hide WellFormed;
      if autoRehash && items > 2 * size {
        Rehash(2 * size, lost, t);
      }
    }

    method InsertEntry(e: Entry, ghost k: Key, ghost d: Datum, ghost t: HashModel.Table) returns (r: InsertResult)
      requires WellFormed(t) && Masked(t) && Represents(t) && k !in t.vals
      requires e.key == k && e.data == d && e.newer == null && e !in entries
      modifies this, heads, counts, entries, e
      ensures Represents(Place(t, k, d)) && r.Inserted? && r.evicted == PushedOut(t, k)
      ensures heads == old(heads) && counts == old(counts) && entries == old(entries) + {e}
    {
      hide WellFormed, Represents;
      var b := BucketOf(e.key, t);
      var out := Enter(b, e, k, d, t);
      r := Inserted(match out case None => None case Some(p) => Some((p.key, p.data)));
    }

    /** The bucket of a key: its hash under the mask. */
    method BucketOf(k: Key, ghost t: HashModel.Table) returns (b: nat)
      requires Represents(t) && Masked(t)
      ensures b == Bucket(t, k)
    {
      b := BitAnd(hash(k), mask);
    }

    /** Starts an iteration at the oldest entry. */
    method First(ghost t: HashModel.Table) returns (it: Iterator)
      requires Represents(t)
      ensures IterAt(it, t.age, 0)
    {
      if oldest != null {
        assert AgedAt(Refs(node, t.age), 0);
        it := Iterator(oldest, oldest.newer);
      } else {
        it := Iterator(null, null);
      }
    }

    /** Moves an iteration on; i is the position it goes to. */
    method Next(it: Iterator, ghost t: HashModel.Table, ghost i: nat) returns (it': Iterator)
      requires Represents(t) && it.next == NextAt(t.age, i)
      ensures IterAt(it', t.age, i)
    {
      if it.next != null {
        assert AgedAt(Refs(node, t.age), i);
        it' := Iterator(it.next, it.next.newer);
      } else {
        it' := Iterator(null, null);
      }
    }

    ghost function NextAt(age: seq<Key>, i: nat): Entry?
      requires Known(node, age)
      reads `node
    {
      At(Refs(node, age), i)
    }

    /** The iteration is at position i of the age list, or past its end. */
    ghost predicate IterAt(it: Iterator, age: seq<Key>, i: nat)
      reads `node
    {
      Known(node, age) && it == Iterator(At(Refs(node, age), i), At(Refs(node, age), i + 1))
    }

    /** What removing a key does to an iteration whose saved entry is at position i: behind it the positions shift, ahead of
        it nothing changes, and if it is the saved entry that goes, the iteration is left with an entry of no key. */
    lemma RemovalKeepsPlace(was: Nodes, age: seq<Key>, i: nat, k: Key)
      requires Named(was) && Known(was, age) && Distinct(age) && k in age && i <= |age|
      requires node == was - {k}
      ensures Known(node, Without(age, k))
      ensures Find(age, k) < i ==> NextAt(Without(age, k), i - 1) == At(Refs(was, age), i)
      ensures Find(age, k) > i ==> NextAt(Without(age, k), i) == At(Refs(was, age), i)
      ensures Find(age, k) == i ==> At(Refs(was, age), i) != null && At(Refs(was, age), i) !in node.Values
    {
      forall j | 0 <= j < |age| && j != Find(age, k) ensures age[j] in node {
        assert age[j] != k;
      }
    }

    /** Changes the number of buckets and inserts every entry anew, oldest first; those that find no memory are lost. */
    method Rehash(n: nat, lost: set<Key>, ghost t: HashModel.Table)
      requires WellFormed(t) && Represents(t) && n <= MAX_REQUEST
      modifies this
      ensures Represents(HashModel.Rehash(t, n, lost))
      ensures fresh(heads) && fresh(counts) && fresh(entries)
      decreases 0, 4
    {
      hide WellFormed, Represents, Refilled;
      var tmp := Rebuilt(n, lost, t);
      KeepsSettings(t);
      TakeOver(tmp);
      TakenOver(tmp, Refilled(t, n, lost, |t.age|), HashModel.Rehash(t, n, lost));
    }

    /** Walks through all entries and inserts them into a table of the new size. */
    method Rebuilt(n: nat, lost: set<Key>, ghost t: HashModel.Table) returns (tmp: Table)
      requires WellFormed(t) && Represents(t) && n <= MAX_REQUEST
      ensures fresh(tmp) && fresh(tmp.heads) && fresh(tmp.counts) && fresh(tmp.entries)
      ensures tmp.Represents(Refilled(t, n, lost, |t.age|))
      decreases 0, 3
    {
      hide *;
      tmp := new Table(hash, n);
      var it := First(t);
      ghost var i := 0;
      AtStart(it, t, n, lost);
      while it.entry != null
        invariant i <= |t.age| && IterAt(it, t.age, i)
        invariant tmp.Represents(Refilled(t, n, lost, i))
        invariant fresh(tmp) && fresh(tmp.heads) && fresh(tmp.counts) && fresh(tmp.entries)
        decreases |t.age| - i
      {
        Copy(tmp, it, lost, t, n, i);
        it := Next(it, t, i + 1);
        i := i + 1;
      }
      AtEnd(it, t, i);
    }

    lemma KeepsSettings(t: HashModel.Table)
      requires Represents(t)
      ensures hash == t.hash && heuristic == t.heuristic && autoRehash == t.autoRehash && limit == t.limit
    {
    }

    lemma AtStart(it: Iterator, t: HashModel.Table, n: nat, lost: set<Key>)
      requires WellFormed(t) && Represents(t) && IterAt(it, t.age, 0)
      ensures Refilled(t, n, lost, 0) == Empty(t.hash, n) && hash == t.hash && Held()
    {
      assert t.age[..0] == [];
    }

    lemma AtEnd(it: Iterator, t: HashModel.Table, i: nat)
      requires WellFormed(t) && IterAt(it, t.age, i) && it.entry == null && i <= |t.age|
      ensures i == |t.age|
    {
    }

    /** Inserts the entry the iteration is at into the temporary table. */
    method Copy(tmp: Table, it: Iterator, lost: set<Key>, ghost t: HashModel.Table, ghost n: nat, ghost i: nat)
      requires WellFormed(t) && Represents(t) && IterAt(it, t.age, i) && it.entry != null
      requires i <= |t.age| && tmp.Represents(Refilled(t, n, lost, i))
      requires tmp != this && tmp.heads != heads && tmp.counts != counts && tmp.entries !! entries
      modifies tmp, tmp.heads, tmp.counts, tmp.entries
      ensures i < |t.age| && tmp.Represents(Refilled(t, n, lost, i + 1)) && it.next == NextAt(t.age, i + 1)
      ensures tmp.heads == old(tmp.heads) || fresh(tmp.heads)
      ensures tmp.counts == old(tmp.counts) || fresh(tmp.counts)
      ensures fresh(tmp.entries - old(tmp.entries))
      decreases 0, 2
    {
      hide *;
      HoldsOldest(it, t, i);
      RefillInsert(t, n, lost, i);
      NotCrowded(Refilled(t, n, lost, i));
      var r := tmp.Insert(it.entry.key, it.entry.data, it.entry.key !in lost, {}, Refilled(t, n, lost, i));
    }

    /** The entry an iteration is at holds the next oldest key with its datum. */
    lemma HoldsOldest(it: Iterator, t: HashModel.Table, i: nat)
      requires WellFormed(t) && Represents(t) && IterAt(it, t.age, i) && it.entry != null && i <= |t.age|
      ensures i < |t.age| && it.next == NextAt(t.age, i + 1)
      ensures it.entry.key == t.age[i] && t.age[i] in t.vals && it.entry.data == t.vals[t.age[i]]
    {
    }

    lemma NotCrowded(t: HashModel.Table)
      requires !t.autoRehash
      ensures !Crowded(t)
    {
    }

    /** Exchanges the buckets, the lists and the counters for those of another table. */
    method TakeOver(tmp: Table)
      modifies this
      ensures SameFields(tmp)
      ensures (heuristic, autoRehash, limit) == old((heuristic, autoRehash, limit))
      ensures tmp != this ==> unchanged(tmp)
    {
      size := tmp.size;
      mask := tmp.mask;
      items := tmp.items;
      heads := tmp.heads;
      counts := tmp.counts;
      oldest := tmp.oldest;
      newest := tmp.newest;
      node, entries := tmp.node, tmp.entries;
    }

    ghost predicate SameFields(tmp: Table)
      reads this, tmp
    {
      && size == tmp.size && mask == tmp.mask && items == tmp.items && heads == tmp.heads && counts == tmp.counts
      && oldest == tmp.oldest && newest == tmp.newest && node == tmp.node && entries == tmp.entries
    }

    lemma TakenOver(tmp: Table, u: HashModel.Table, m: HashModel.Table)
      requires tmp.Represents(u) && SameFields(tmp)
      requires hash == m.hash && heuristic == m.heuristic && autoRehash == m.autoRehash && limit == m.limit
      requires m.size == u.size && m.chains == u.chains && m.age == u.age && m.vals == u.vals
      ensures Represents(m)
    {
    }

    /** Enters a fresh entry whose key is new, pushing out the last entry of a full bucket. */
    method Enter(b: nat, e: Entry, ghost k: Key, ghost d: Datum, ghost t: HashModel.Table) returns (evicted: Option<Entry>)
      requires WellFormed(t) && Represents(t) && k !in t.vals && b == Bucket(t, k)
      requires e.key == k && e.data == d && e.newer == null && e !in entries
      modifies this, heads, counts, entries, e
      ensures Represents(Place(t, k, d))
      ensures evicted.None? <==> Victim(t, k).None?
      ensures evicted.Some? ==> evicted.value.key == Victim(t, k).value && evicted.value.data == t.vals[evicted.value.key]
      ensures heads == old(heads) && counts == old(counts) && entries == old(entries) + {e}
    {
      PlaceKeys(t, k, d);
      ghost var v := Victim(t, k);
      hide WellFormed;
      if limit != 0 && counts[b] >= limit {
        var p := EnterFull(b, e, k, d, v.value, t);
        evicted := Some(p);
      } else {
        EnterRoom(b, e, k, d, t);
        evicted := None;
      }
    }

    method EnterRoom(b: nat, e: Entry, ghost k: Key, ghost d: Datum, ghost t: HashModel.Table)
      requires WellFormed(t) && Represents(t) && k !in t.vals && b == Bucket(t, k) && Victim(t, k).None?
      requires e.key == k && e.data == d && e.newer == null && e !in entries
      modifies this, heads, counts, entries, e
      ensures Represents(Place(t, k, d))
      ensures heads == old(heads) && counts == old(counts) && entries == old(entries) + {e}
    {
      RoomFacts(t, k, d, node, e);
      hide WellFormed;
      AdoptEntry(e, k, d, t);
      PlaceInRoom(b, e, k, t.chains, t.age, Place(t, k, d));
    }

    method EnterFull(b: nat, e: Entry, ghost k: Key, ghost d: Datum, ghost v: Key, ghost t: HashModel.Table)
      returns (p: Entry)
      requires WellFormed(t) && Represents(t) && k !in t.vals && b == Bucket(t, k) && Victim(t, k) == Some(v)
      requires e.key == k && e.data == d && e.newer == null && e !in entries
      modifies this, heads, counts, entries, e
      ensures Represents(Place(t, k, d))
      ensures v in old(node) && p == old(node)[v] && p.data == t.vals[v]
      ensures heads == old(heads) && counts == old(counts) && entries == old(entries) + {e}
    {
      ghost var chains1, age1, m := t.chains[b := [k] + t.chains[b]], Without(t.age, v), Place(t, k, d);
      FullFacts(t, k, d, v, node, e);
      VictimLeaves(t, k, d, v);
      ForgettableVictim(t, m, k, v);
      p := EnterFor(b, e, k, d, v, t, chains1, age1, m.(vals := t.vals[k := d]));
    }

    method EnterFor(b: nat, e: Entry, ghost k: Key, ghost d: Datum, ghost v: Key, ghost t: HashModel.Table,
                    ghost chains1: seq<seq<Key>>, ghost age1: seq<Key>, ghost m: HashModel.Table)
      returns (p: Entry)
      requires Represents(t) && k !in node && e.key == k && e.data == d && e.newer == null && e !in entries
      requires Swapped(node[k := e], t.chains, t.age, chains1, age1, m.chains, k, v, b)
      requires SameSizes(t.chains, m.chains) && |m.age| == |t.age| && m.age == age1 + [k]
      requires m == t.(chains := m.chains, age := m.age, vals := t.vals[k := d])
      requires v in node && v != k && v !in m.age && forall j :: 0 <= j < |m.chains| ==> v !in m.chains[j]
      modifies this, heads, counts, entries, e
      ensures Represents(m.(vals := m.vals - {v})) && p == old(node)[v] && p.data == old(p.data)
      ensures heads == old(heads) && counts == old(counts) && entries == old(entries) + {e}
    {
      hide *;
      AdoptEntry(e, k, d, t);
      p := SwapVictim(b, e, k, v, t.(vals := t.vals[k := d]), chains1, age1, m);
      ForgetEntry(v, m);
    }

    /** The victim of a full bucket leaves both lists as the new entry, already held, enters them. */
    method SwapVictim(b: nat, e: Entry, ghost k: Key, ghost v: Key, ghost t: HashModel.Table,
                      ghost chains1: seq<seq<Key>>, ghost age1: seq<Key>, ghost m: HashModel.Table)
      returns (p: Entry)
      requires Represents(t) && e.newer == null && k in node && e == node[k]
      requires Swapped(node, t.chains, t.age, chains1, age1, m.chains, k, v, b)
      requires SameSizes(t.chains, m.chains) && |m.age| == |t.age| && m.age == age1 + [k] && m == t.(chains := m.chains, age := m.age)
      modifies `oldest, `newest, heads, entries`next, entries`prev, entries`older, entries`newer
      ensures Represents(m) && v in node && p == node[v]
    {
      hide Swapped;
      assert Layout(m);
      assert Counted(m.chains);
      p := PlaceInFull(b, e, k, v, t, chains1, age1, m);
    }

    method SetHeuristics(h: Heuristic, ghost t: HashModel.Table)
      requires Represents(t)
      modifies `heuristic
      ensures Represents(t.(heuristic := h))
    {
      heuristic := h;
    }

    method SetRehash(on: bool, ghost t: HashModel.Table)
      requires Represents(t)
      modifies `autoRehash
      ensures Represents(t.(autoRehash := on))
    {
      autoRehash := on;
    }

    method SetBoundedBuckets(n: nat, ghost t: HashModel.Table)
      requires Represents(t)
      modifies `limit
      ensures Represents(t.(limit := n))
    {
      limit := n;
    }

    /** A fresh entry is held by the table before it is on any list. */
    ghost method AdoptEntry(e: Entry, k: Key, d: Datum, t: HashModel.Table)
      requires Represents(t) && e.key == k && e.data == d && k !in node
      modifies `node, `entries
      ensures Represents(t.(vals := t.vals[k := d])) && node == old(node)[k := e] && entries == old(entries) + {e}
    {
      Adopt(e, k, t.chains, t.age);
    }

    /** An entry that is on no list any more is given up. */
    ghost method ForgetEntry(v: Key, t: HashModel.Table)
      requires Represents(t) && v !in t.age && forall j :: 0 <= j < |t.chains| ==> v !in t.chains[j]
      modifies `node
      ensures Represents(t.(vals := t.vals - {v})) && node == old(node) - {v}
    {
      Forget(v, t.chains, t.age);
    }

    /** Links a fresh entry into a bucket with room for it. */
    method PlaceInRoom(b: nat, e: Entry, ghost k: Key, ghost chains: seq<seq<Key>>, ghost age: seq<Key>,
                       ghost m: HashModel.Table)
      requires Layout(m.(age := age)) && Stored(m.vals) && Held() && Counted(chains)
      requires Buckets(chains) && Ages(age) && e.newer == null
      requires PlacedInRoom(node, chains, age, m, k, b) && k in node && e == node[k]
      modifies `items, `oldest, `newest, heads, counts
      modifies entries`next, entries`prev, entries`older, entries`newer
      ensures Layout(m) && Stored(m.vals) && Buckets(m.chains) && Counted(m.chains) && Ages(m.age)
    {
      CountUp(b, chains, m.chains[b]);
      assert Layout(m);
      LinkInRoom(b, e, k, chains, age, m);
    }

    method LinkInRoom(b: nat, e: Entry, ghost k: Key, ghost chains: seq<seq<Key>>, ghost age: seq<Key>,
                      ghost m: HashModel.Table)
      requires Layout(m) && Stored(m.vals) && Held() && Counted(m.chains)
      requires Buckets(chains) && Ages(age) && e.newer == null
      requires PlacedInRoom(node, chains, age, m, k, b) && k in node && e == node[k]
      modifies `oldest, `newest, heads, entries`next, entries`prev, entries`older, entries`newer
      ensures Layout(m) && Stored(m.vals) && Buckets(m.chains) && Counted(m.chains) && Ages(m.age)
    {
      hide *;
      LinkIn(b, e, k, chains, age, m);
    }

    /** The fresh entry becomes the first of its chain and the newest of the age list. */
    method LinkIn(b: nat, e: Entry, ghost k: Key, ghost chains: seq<seq<Key>>, ghost age: seq<Key>,
                  ghost m: HashModel.Table)
      requires Buckets(chains) && Ages(age) && Held() && e.newer == null
      requires PlacedInRoom(node, chains, age, m, k, b) && k in node && e == node[k]
      modifies `oldest, `newest, heads, entries`next, entries`prev, entries`older, entries`newer
      ensures Buckets(m.chains) && Ages(m.age)
    {
      PlaceFirst(b, e, k, chains);
      PlaceNewest(e, k, age);
    }

    /** Links a fresh entry into a full bucket, whose last entry leaves both lists. */
    method PlaceInFull(b: nat, e: Entry, ghost k: Key, ghost v: Key, ghost t: HashModel.Table,
                       ghost chains1: seq<seq<Key>>, ghost age1: seq<Key>, ghost m: HashModel.Table)
      returns (p: Entry)
      requires Layout(m) && Stored(m.vals) && Counted(m.chains) && m.age == age1 + [k]
      requires Buckets(t.chains) && Ages(t.age) && Held() && e.newer == null
      requires Swapped(node, t.chains, t.age, chains1, age1, m.chains, k, v, b) && e == node[k]
      modifies `oldest, `newest, heads
      modifies entries`next, entries`prev, entries`older, entries`newer
      ensures Layout(m) && Stored(m.vals) && Buckets(m.chains) && Counted(m.chains) && Ages(m.age)
      ensures v in node && p == node[v]
    {
      hide *;
      p := LinkSwapped(b, e, k, v, t.chains, t.age, chains1, age1, m.chains);
    }

    /** The fresh entry is linked in, and the last entry of its chain out of both lists. */
    method LinkSwapped(b: nat, e: Entry, ghost k: Key, ghost v: Key, ghost chains: seq<seq<Key>>, ghost age: seq<Key>,
                       ghost chains1: seq<seq<Key>>, ghost age1: seq<Key>, ghost chains2: seq<seq<Key>>)
      returns (p: Entry)
      requires Buckets(chains) && Ages(age) && Held() && e.newer == null
      requires Swapped(node, chains, age, chains1, age1, chains2, k, v, b) && e == node[k]
      modifies `oldest, `newest, heads, entries`next, entries`prev, entries`older, entries`newer
      ensures Buckets(chains2) && Ages(age1 + [k]) && v in node && p == node[v]
    {
      p := LinkFirstCutLast(b, e, k, v, chains, age, chains1);
      PlaceNewest(e, k, age1);
    }

    method LinkFirstCutLast(b: nat, e: Entry, ghost k: Key, ghost v: Key, ghost chains: seq<seq<Key>>,
                            ghost age: seq<Key>, ghost chains1: seq<seq<Key>>) returns (p: Entry)
      requires Buckets(chains) && Ages(age) && Held()
      requires Enterable(node, chains, k, b) && e == node[k] && chains1 == chains[b := [k] + chains[b]]
      requires Apart(node, chains1, b) && chains1[b][|chains1[b]| - 1] == v && v in node && Distinct(age) && v in age
      modifies `oldest, `newest, heads, entries`next, entries`prev, On(node, age)`older, On(node, age)`newer
      ensures Buckets(chains1[b := Without(chains1[b], v)]) && Ages(Without(age, v)) && p == node[v]
    {
      PlaceFirst(b, e, k, chains);
      p := CutLast(b, v, chains1, age);
    }

    method CutLast(b: nat, ghost v: Key, ghost chains: seq<seq<Key>>, ghost age: seq<Key>) returns (p: Entry)
      requires Buckets(chains) && Ages(age) && Held() && b < heads.Length
      requires Apart(node, chains, b) && chains[b] != [] && chains[b][|chains[b]| - 1] == v && v in node
      requires Distinct(age) && v in age
      modifies `oldest, `newest, heads
      modifies entries`next, entries`prev, On(node, age)`older, On(node, age)`newer
      ensures Buckets(chains[b := Without(chains[b], v)]) && Ages(Without(age, v)) && p == node[v]
    {
      assert BucketOk(heads[b], node, chains[b]);
      p := Last(b, Refs(node, chains[b]));
      RemoveFromChain(b, p, v, chains, age);
    }

    /** Walks to the last entry of a chain. */
    method Last(b: nat, ghost rc: seq<Entry>) returns (p: Entry)
      requires b < heads.Length && Chained(rc) && heads[b] == At(rc, 0) && rc != []
      ensures p == rc[|rc| - 1]
    {
      p := heads[b];
      ghost var i := 0;
      while p.next != null
        invariant i < |rc| && p == rc[i]
        decreases |rc| - i
      {
        assert ChainedAt(rc, i);
        p, i := p.next, i + 1;
      }
      assert ChainedAt(rc, i);
    }
  }
}
