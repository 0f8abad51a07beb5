/** The value a chained hash table stands for: bucket chains, the insertion-age order and the stored data. */
module HashModel {
  import opened Arithmetic
  import opened Options
  import opened Sequences

  type Byte = n: nat | n < 256

  /** A key is its size and its bytes: two keys are the same entry when both agree. */
  datatype Key = Key(bytes: seq<Byte>)

  /** A stored pointer; NULL is never stored. */
  type Datum = n: nat | n != 0 witness 1

  type HashFn = Key -> nat

  datatype Heuristic = NoHeuristic | TransposeUp | MoveToFront

  /** slot is the bucket function in force: the hash of a key masked by the table size less one. */
  datatype Table = Table(
    hash: HashFn,
    size: nat,
    slot: HashFn,
    chains: seq<seq<Key>>,
    age: seq<Key>,
    vals: map<Key, Datum>,
    heuristic: Heuristic,
    autoRehash: bool,
    limit: nat)

  /** The bucket function for a table size: the hash masked by the size less one. */
  function Mask(hash: HashFn, size: nat): (slot: HashFn)
    requires size > 0
    ensures forall k :: slot(k) < size
  {
    assert forall k :: BitAnd(hash(k), size - 1) < size by {
      forall k {
        AndAtMost(hash(k), size - 1);
      }
    }
    k => BitAnd(hash(k), size - 1)
  }

  function Bucket(t: Table, k: Key): nat {
    t.slot(k)
  }

  ghost predicate IsPower(n: nat) {
    exists p: nat :: n == Pow2(p)
  }

  ghost predicate ChainOk(t: Table, b: nat)
    requires b < |t.chains|
  {
    Distinct(t.chains[b]) && forall k :: k in t.chains[b] ==> k in t.vals && Bucket(t, k) == b
  }

  ghost predicate Shaped(t: Table) {
    |t.chains| == t.size && forall k :: t.slot(k) < t.size
  }

  ghost predicate WellFormed(t: Table) {
    && Shaped(t)
    && (forall b :: 0 <= b < t.size ==> ChainOk(t, b))
    && (forall k :: k in t.vals ==> k in t.chains[Bucket(t, k)])
    && Distinct(t.age) && (forall k :: k in t.age <==> k in t.vals)
    && SumLen(t.chains) == |t.age|
  }

  /** The size is a power of two and the bucket function is the hash under the mask. */
  ghost predicate Masked(t: Table) {
    t.size > 0 && IsPower(t.size) && t.slot == Mask(t.hash, t.size)
  }

  /** Masking the hash is taking its remainder by the table size. */
  lemma BucketIsModulus(t: Table, k: Key)
    requires Masked(t)
    ensures Bucket(t, k) == t.hash(k) % t.size
  {
    var p: nat :| t.size == Pow2(p);
    MaskIsModulus(t.hash(k), p);
  }

  // ----- table sizes -----

  /** The least power of two that is at least n. */
  function SizeFor(n: nat): (s: nat)
    ensures s >= n && s > 0
  {
    if n <= 1 then 1 else 2 * SizeFor((n + 1) / 2)
  }

  lemma {:induction false} SizeForIsLeastPower(n: nat)
    ensures IsPower(SizeFor(n))
    ensures forall p: nat :: Pow2(p) >= n ==> SizeFor(n) <= Pow2(p)
  {
    if n <= 1 {
      assert Pow2(0) == 1;
    } else {
      var h := (n + 1) / 2;
      SizeForIsLeastPower(h);
      var q: nat :| SizeFor(h) == Pow2(q);
      assert Pow2(q + 1) == SizeFor(n);
      forall p: nat | Pow2(p) >= n ensures SizeFor(n) <= Pow2(p) {
        assert p > 0 && Pow2(p - 1) >= h;
      }
    }
  }

  lemma LeastPowerIsSize(n: nat, p: nat)
    requires Pow2(p) >= n && (p == 0 || Pow2(p - 1) < n)
    ensures Pow2(p) == SizeFor(n)
  {
    SizeForIsLeastPower(n);
    var q: nat :| SizeFor(n) == Pow2(q);
    if q < p {
      Pow2Grows(q, p - 1);
    } else if q > p {
      Pow2Grows(p + 1, q);
    }
  }

  // ----- operations -----

  ghost function Empty(hash: HashFn, n: nat): Table {
    var size := SizeFor(n);
    Table(hash, size, Mask(hash, size), seq(size, _ => []), [], map[], NoHeuristic, false, 0)
  }

  /** The entry pushed out when k enters: the last of a full bounded bucket. */
  ghost function Victim(t: Table, k: Key): Option<Key>
    requires Shaped(t)
  {
    var c := t.chains[Bucket(t, k)];
    if t.limit != 0 && |c| >= t.limit then Some(c[|c| - 1]) else None
  }

  /** A new key enters at the front of its chain and at the newest end of the age list. */
  ghost function Place(t: Table, k: Key, d: Datum): Table
    requires Shaped(t)
  {
    var b := Bucket(t, k);
    var c := t.chains[b];
    match Victim(t, k)
    case Some(v) =>
      t.(chains := t.chains[b := [k] + c[..|c| - 1]], age := Without(t.age, v) + [k], vals := (t.vals - {v})[k := d])
    case None =>
      t.(chains := t.chains[b := [k] + c], age := t.age + [k], vals := t.vals[k := d])
  }

  /** Enters the given keys, oldest first. */
  ghost function Refill(t: Table, keys: seq<Key>, vals: map<Key, Datum>): (r: Table)
    requires Shaped(t)
    requires forall k :: k in keys ==> k in vals
    ensures Shaped(r) && r.size == t.size && r.slot == t.slot && r.hash == t.hash
    ensures r.limit == t.limit && r.heuristic == t.heuristic && r.autoRehash == t.autoRehash
  {
    if keys == [] then t
    else
      var last := keys[|keys| - 1];
      Place(Refill(t, keys[..|keys| - 1], vals), last, vals[last])
  }

  /** The table an iteration of a rehash to size n has built after i entries; those of the lost keys found no memory. */
  ghost function Refilled(t: Table, n: nat, lost: set<Key>, i: nat): (r: Table)
    requires WellFormed(t) && i <= |t.age|
    ensures Shaped(r)
  {
    Refill(Empty(t.hash, n), Minus(t.age[..i], lost), t.vals)
  }

  ghost function Rehash(t: Table, n: nat, lost: set<Key>): (r: Table)
    requires WellFormed(t)
    ensures Shaped(r)
  {
    var r := Refilled(t, n, lost, |t.age|);
    t.(size := r.size, slot := r.slot, chains := r.chains, age := r.age, vals := r.vals)
  }

  predicate Crowded(t: Table) {
    t.autoRehash && |t.age| > 2 * t.size
  }

  ghost function Grown(t: Table, lost: set<Key>): (r: Table)
    requires WellFormed(t)
    ensures Shaped(r)
  {
    if Crowded(t) then Rehash(t, 2 * t.size, lost) else t
  }

  ghost function Insert(t: Table, k: Key, d: Datum, lost: set<Key>): Table
    requires WellFormed(t)
  {
    if k in t.vals then t else Place(Grown(t, lost), k, d)
  }

  /** What a heuristic does to a sequence on finding its element i. */
  function Rearranged<T>(s: seq<T>, i: nat, h: Heuristic): (r: seq<T>)
    requires i < |s|
    ensures |r| == |s|
  {
    match h
    case NoHeuristic => s
    case TransposeUp => Up(s, i)
    case MoveToFront => Front(s, i)
  }

  /** What a successful search does to the chain it finds its key in. */
  function Touched(c: seq<Key>, k: Key, h: Heuristic): seq<Key>
    requires k in c
  {
    Rearranged(c, Find(c, k), h)
  }

  ghost function Touch(t: Table, k: Key, h: Heuristic): Table
    requires Shaped(t)
  {
    var b := Bucket(t, k);
    if k in t.chains[b] then t.(chains := t.chains[b := Touched(t.chains[b], k, h)]) else t
  }

  ghost function Replace(t: Table, k: Key, d: Datum): Table
    requires Shaped(t)
  {
    if k in t.vals then Touch(t, k, t.heuristic).(vals := t.vals[k := d]) else t
  }

  ghost function Remove(t: Table, k: Key): Table
    requires Shaped(t)
  {
    var b := Bucket(t, k);
    if k in t.vals then
      t.(chains := t.chains[b := Without(t.chains[b], k)], age := Without(t.age, k), vals := t.vals - {k})
    else t
  }

  function Lookup(t: Table, k: Key): Option<Datum> {
    if k in t.vals then Some(t.vals[k]) else None
  }

  // ----- every operation keeps the table well formed -----

  lemma EmptyWellFormed(hash: HashFn, n: nat)
    ensures WellFormed(Empty(hash, n)) && Masked(Empty(hash, n))
  {
    SizeForIsLeastPower(n);
    SumLenOfEmpty(Empty(hash, n).chains);
  }

  lemma PushFront(c: seq<Key>, k: Key)
    requires Distinct(c) && k !in c
    ensures Distinct([k] + c) && forall x :: x in [k] + c <==> x == k || x in c
  {
  }

  lemma DropLast(c: seq<Key>)
    requires Distinct(c) && c != []
    ensures Without(c, c[|c| - 1]) == c[..|c| - 1]
  {
    FindsItself(c, |c| - 1);
  }

  lemma PushBack(c: seq<Key>, k: Key)
    requires Distinct(c) && k !in c
    ensures Distinct(c + [k]) && forall x :: x in c + [k] <==> x == k || x in c
  {
  }

  /** A table with k taken out of one chain and put nowhere else. */
  lemma RemoveWellFormed(t: Table, k: Key)
    requires WellFormed(t)
    ensures WellFormed(Remove(t, k))
  {
    if k in t.vals {
      var b := Bucket(t, k);
      var r := Remove(t, k);
      assert ChainOk(t, b);
      WithoutKeeps(t.chains[b], k);
      WithoutKeeps(t.age, k);
      SumLenUpdate(t.chains, b, r.chains[b]);
      forall c | 0 <= c < r.size ensures ChainOk(r, c) {
        assert ChainOk(t, c);
      }
    }
  }

  lemma PlaceFreeWellFormed(t: Table, k: Key, d: Datum)
    requires WellFormed(t) && k !in t.vals && Victim(t, k).None?
    ensures WellFormed(Place(t, k, d))
  {
    var b := Bucket(t, k);
    var r := Place(t, k, d);
    assert ChainOk(t, b);
    PushFront(t.chains[b], k);
    PushBack(t.age, k);
    SumLenUpdate(t.chains, b, r.chains[b]);
    forall c | 0 <= c < r.size ensures ChainOk(r, c) {
      assert ChainOk(t, c);
    }
  }

  /** Entering a full bucket is removing its last entry and then entering a bucket with room. */
  lemma PlaceEvicts(t: Table, k: Key, d: Datum)
    requires WellFormed(t) && k !in t.vals && Victim(t, k).Some?
    ensures var v := Victim(t, k).value;
      && v in t.vals && v != k && Bucket(t, v) == Bucket(t, k)
      && Place(t, k, d) == Place(Remove(t, v).(limit := 0), k, d).(limit := t.limit)
  {
    var b := Bucket(t, k);
    var c := t.chains[b];
    assert ChainOk(t, b);
    var v := c[|c| - 1];
    assert v in c;
    DropLast(c);
    var u := Remove(t, v).(limit := 0);
    assert u.chains[b] == c[..|c| - 1];
    assert u.chains[b := [k] + u.chains[b]] == t.chains[b := [k] + c[..|c| - 1]];
  }

  lemma PlaceWellFormed(t: Table, k: Key, d: Datum)
    requires WellFormed(t) && k !in t.vals
    ensures WellFormed(Place(t, k, d))
  {
    match Victim(t, k)
    case None => PlaceFreeWellFormed(t, k, d);
    case Some(v) =>
      PlaceEvicts(t, k, d);
      RemoveWellFormed(t, v);
      var u := Remove(t, v).(limit := 0);
      SettingsIrrelevant(Remove(t, v), t.heuristic, t.autoRehash, 0);
      PlaceFreeWellFormed(u, k, d);
      SettingsIrrelevant(Place(u, k, d), t.heuristic, t.autoRehash, t.limit);
  }

  lemma SettingsIrrelevant(t: Table, heuristic: Heuristic, autoRehash: bool, limit: nat)
    requires WellFormed(t)
    ensures WellFormed(t.(heuristic := heuristic, autoRehash := autoRehash, limit := limit))
  {
    var u := t.(heuristic := heuristic, autoRehash := autoRehash, limit := limit);
    forall b | 0 <= b < u.size ensures ChainOk(u, b) {
      assert ChainOk(t, b);
    }
  }

  lemma TouchWellFormed(t: Table, k: Key, h: Heuristic)
    requires WellFormed(t)
    ensures WellFormed(Touch(t, k, h))
  {
    var b := Bucket(t, k);
    var c := t.chains[b];
    assert ChainOk(t, b);
    if k in c {
      var i := Find(c, k);
      FrontKeeps(c, i);
      UpKeeps(c, i);
      var r := Touch(t, k, h);
      SumLenUpdate(t.chains, b, r.chains[b]);
      forall b' | 0 <= b' < r.size ensures ChainOk(r, b') {
        assert ChainOk(t, b');
      }
    }
  }

  lemma ReplaceWellFormed(t: Table, k: Key, d: Datum)
    requires WellFormed(t)
    ensures WellFormed(Replace(t, k, d))
  {
    if k in t.vals {
      TouchWellFormed(t, k, t.heuristic);
      var u := Touch(t, k, t.heuristic);
      var r := Replace(t, k, d);
      forall b | 0 <= b < r.size ensures ChainOk(r, b) {
        assert ChainOk(u, b);
      }
    }
  }

  // ----- rehashing -----

  /** Refilling an unbounded empty table stores exactly the given keys, in the given order. */
  lemma {:induction false} RefillWellFormed(t: Table, keys: seq<Key>, vals: map<Key, Datum>)
    requires WellFormed(t) && t.age == [] && t.limit == 0
    requires Distinct(keys) && forall k :: k in keys ==> k in vals
    ensures var r := Refill(t, keys, vals);
      WellFormed(r) && r.age == keys && forall k :: k in r.vals ==> k in vals && r.vals[k] == vals[k]
    decreases |keys|
  {
    if keys == [] {
      assert forall k :: k in t.vals ==> k in t.age;
    } else {
      var n := |keys| - 1;
      var init, last := keys[..n], keys[n];
      assert keys == init + [last];
      RefillWellFormed(t, init, vals);
      RefillStep(Refill(t, init, vals), init, last, vals);
    }
  }

  lemma RefillStep(u: Table, init: seq<Key>, last: Key, vals: map<Key, Datum>)
    requires WellFormed(u) && u.limit == 0 && u.age == init
    requires last !in init && last in vals && forall k :: k in u.vals ==> k in vals && u.vals[k] == vals[k]
    ensures var r := Place(u, last, vals[last]);
      WellFormed(r) && r.age == init + [last] && forall k :: k in r.vals ==> k in vals && r.vals[k] == vals[k]
  {
    assert last !in u.vals;
    PlaceFreeWellFormed(u, last, vals[last]);
  }

  lemma RefilledContents(t: Table, n: nat, lost: set<Key>)
    requires WellFormed(t)
    ensures var f := Refilled(t, n, lost, |t.age|);
      WellFormed(f) && f.vals == t.vals - lost && f.age == Minus(t.age, lost) && f.limit == 0
  {
    hide Minus, Refill;
    assert t.age[..|t.age|] == t.age;
    EmptyWellFormed(t.hash, n);
    MinusKeeps(t.age, lost);
    RefillWellFormed(Empty(t.hash, n), Minus(t.age, lost), t.vals);
    SameContents(t, Refilled(t, n, lost, |t.age|), lost);
  }

  /** Rehashing keeps the map and the order, but for the keys whose new entries found no memory; the size is the least power
      of two asked for. */
  lemma RehashKeepsContents(t: Table, n: nat, lost: set<Key>)
    requires WellFormed(t)
    ensures var r := Rehash(t, n, lost);
      && WellFormed(r)
      && r.vals == t.vals - lost && r.age == Minus(t.age, lost)
      && r.size == SizeFor(n) && r.slot == Mask(t.hash, r.size)
      && r == t.(size := r.size, slot := r.slot, chains := r.chains, age := r.age, vals := r.vals)
      && (lost == {} ==> r.vals == t.vals && r.age == t.age)
  {
    hide Minus, Refill, Distinct, ChainOk;
    RefilledContents(t, n, lost);
    MinusKeeps(t.age, lost);
    SameWhole(Refilled(t, n, lost, |t.age|), Rehash(t, n, lost));
  }

  lemma SameWhole(f: Table, r: Table)
    requires WellFormed(f) && f.size == r.size && f.slot == r.slot && f.chains == r.chains && f.age == r.age && f.vals == r.vals
    ensures WellFormed(r)
  {
    forall b | 0 <= b < r.size ensures ChainOk(r, b) {
      assert ChainOk(f, b);
    }
  }

  lemma SameContents(t: Table, f: Table, lost: set<Key>)
    requires WellFormed(t) && WellFormed(f) && f.age == Minus(t.age, lost)
    requires forall k :: k in f.vals ==> k in t.vals && f.vals[k] == t.vals[k]
    ensures f.vals == t.vals - lost
  {
    MinusKeeps(t.age, lost);
    assert forall k :: k in f.vals <==> k in f.age;
    assert forall k :: k in t.vals <==> k in t.age;
  }

  lemma InsertWellFormed(t: Table, k: Key, d: Datum, lost: set<Key>)
    requires WellFormed(t)
    ensures WellFormed(Grown(t, lost)) && WellFormed(Insert(t, k, d, lost))
    ensures forall x :: x in Grown(t, lost).vals ==> x in t.vals && Grown(t, lost).vals[x] == t.vals[x]
    ensures lost == {} ==> Grown(t, lost).vals == t.vals && Grown(t, lost).age == t.age
  {
    if Crowded(t) {
      RehashKeepsContents(t, 2 * t.size, lost);
    }
    if k !in t.vals {
      PlaceWellFormed(Grown(t, lost), k, d);
    }
  }

  // ----- what an insertion pushes out -----

  lemma PlaceKeys(t: Table, k: Key, d: Datum)
    requires WellFormed(t)
    ensures Victim(t, k).Some? ==> Victim(t, k).value in t.vals
    ensures Bucket(t, k) < t.size
  {
    assert ChainOk(t, Bucket(t, k));
  }

  /** What the bucket callback is given when k enters. */
  ghost function PushedOut(t: Table, k: Key): Option<(Key, Datum)>
    requires WellFormed(t)
  {
    PlaceKeys(t, k, 1);
    match Victim(t, k)
    case None => None
    case Some(v) => Some((v, t.vals[v]))
  }

  /** What the bucket callback is given when k is inserted. */
  ghost function Evicted(t: Table, k: Key, lost: set<Key>): Option<(Key, Datum)>
    requires WellFormed(t)
  {
    InsertWellFormed(t, k, 1, lost);
    PushedOut(Grown(t, lost), k)
  }
}
