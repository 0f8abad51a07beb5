/** The entries of the key lists of a table, and what the model says about them. */
module TableFacts {
  import opened Arithmetic
  import opened Options
  import opened Sequences
  import opened HashModel
  import opened EntryLists

  /** Which entry holds a key. */
  type Nodes = map<Key, Entry>

  ghost predicate Named(node: Nodes) {
    forall k :: k in node ==> node[k].key == k
  }

  ghost predicate Known(node: Nodes, c: seq<Key>) {
    forall i :: 0 <= i < |c| ==> c[i] in node
  }

  /** The entries of a list of keys. */
  ghost function Refs(node: Nodes, c: seq<Key>): (r: seq<Entry>)
    requires Known(node, c)
    ensures |r| == |c| && forall i :: 0 <= i < |c| ==> r[i] == node[c[i]]
  {
    seq(|c|, i requires 0 <= i < |c| => node[c[i]])
  }

  lemma RefsDistinct(node: Nodes, c: seq<Key>)
    requires Named(node) && Known(node, c) && Distinct(c)
    ensures Distinct(Refs(node, c))
  {
  }

  lemma RefsRearranged(node: Nodes, c: seq<Key>, i: nat, h: Heuristic)
    requires Known(node, c) && i < |c|
    ensures Known(node, Rearranged(c, i, h)) && Refs(node, Rearranged(c, i, h)) == Rearranged(Refs(node, c), i, h)
  {
    match h
    case NoHeuristic =>
    case TransposeUp =>
      assert Known(node, Up(c, i));
      assert Refs(node, Up(c, i)) == Up(Refs(node, c), i);
    case MoveToFront =>
      assert Known(node, Front(c, i));
      assert Refs(node, Front(c, i)) == Front(Refs(node, c), i);
  }

  lemma RefsRemoveAt(node: Nodes, c: seq<Key>, i: nat)
    requires Known(node, c) && i < |c|
    ensures Known(node, RemoveAt(c, i)) && Refs(node, RemoveAt(c, i)) == RemoveAt(Refs(node, c), i)
  {
  }

  ghost function On(node: Nodes, c: seq<Key>): set<Entry> {
    set k | k in c && k in node :: node[k]
  }

  lemma RefsAdopt(node: Nodes, k: Key, e: Entry, c: seq<Key>)
    requires Known(node, c) && k !in node
    ensures Known(node[k := e], c) && Refs(node[k := e], c) == Refs(node, c)
  {
  }

  lemma RefsOn(node: Nodes, c: seq<Key>)
    requires Known(node, c)
    ensures forall e :: e in Refs(node, c) <==> e in On(node, c)
  {
    forall e | e in On(node, c) ensures e in Refs(node, c) {
      var k :| k in c && k in node && node[k] == e;
      assert Refs(node, c)[Find(c, k)] == e;
    }
  }

  /** Chain b repeats no key and shares no entry with another chain. */
  ghost predicate Apart(node: Nodes, chains: seq<seq<Key>>, b: nat) {
    && b < |chains| && Distinct(chains[b])
    && forall j :: 0 <= j < |chains| && j != b ==> On(node, chains[j]) !! On(node, chains[b])
  }

  ghost predicate BucketOk(head: Entry?, node: Nodes, c: seq<Key>)
    reads On(node, c)`next, On(node, c)`prev
  {
    Known(node, c) && head == At(Refs(node, c), 0) && Chained(Refs(node, c))
  }

  /** Walks a chain from its head to the entry with the given key, or past the end. */
  method Scan(head: Entry?, k: Key, ghost rc: seq<Entry>) returns (p: Entry?, ghost i: nat)
    requires Chained(rc) && head == At(rc, 0)
    ensures p == null ==> forall j :: 0 <= j < |rc| ==> rc[j].key != k
    ensures p != null ==> i < |rc| && p == rc[i] && p.key == k
  {
    p, i := head, 0;
    while p != null
      invariant i <= |rc| && p == At(rc, i)
      invariant forall j :: 0 <= j < i ==> rc[j].key != k
      decreases |rc| - i
    {
      if |p.key.bytes| == |k.bytes| && p.key.bytes == k.bytes {
        return;
      }
      assert ChainedAt(rc, i);
      p, i := p.next, i + 1;
    }
  }

  /** Searches one chain and, on success, applies the heuristic to the entry found. */
  method SearchChain(heads: array<Entry?>, b: nat, k: Key, h: Heuristic,
                     ghost node: Nodes, ghost c: seq<Key>) returns (p: Entry?)
    requires b < heads.Length && Named(node) && Known(node, c) && Distinct(c)
    requires heads[b] == At(Refs(node, c), 0) && Chained(Refs(node, c))
    modifies heads, On(node, c)`next, On(node, c)`prev
    ensures p == null <==> k !in c
    ensures p != null ==> k in node && p == node[k]
    ensures var d := if k in c then Touched(c, k, h) else c;
      Known(node, d) && heads[b] == At(Refs(node, d), 0) && Chained(Refs(node, d))
    ensures forall j :: 0 <= j < heads.Length && j != b ==> heads[j] == old(heads[j])
    ensures h == NoHeuristic ==> unchanged(heads) && forall e | e in node.Values :: e.next == old(e.next) && e.prev == old(e.prev)
  {
    ghost var rc := Refs(node, c);
    ghost var i;
    p, i := Scan(heads[b], k, rc);
    if p != null {
      FindsItself(c, i);
      RefsDistinct(node, c);
      RefsRearranged(node, c, i, h);
      RefsOn(node, c);
      Rearrange(heads, b, p, h, rc, i);
    }
  }

  /** Applies the heuristic to an entry found in its chain. */
  method Rearrange(heads: array<Entry?>, b: nat, p: Entry, h: Heuristic, ghost rc: seq<Entry>, ghost i: nat)
    requires b < heads.Length && heads[b] == At(rc, 0) && Chained(rc) && Distinct(rc)
    requires i < |rc| && p == rc[i]
    modifies heads, rc`next, rc`prev
    ensures Chained(Rearranged(rc, i, h)) && heads[b] == At(Rearranged(rc, i, h), 0)
    ensures forall j :: 0 <= j < heads.Length && j != b ==> heads[j] == old(heads[j])
    ensures h == NoHeuristic ==> unchanged(heads) && forall e | e in rc :: e.next == old(e.next) && e.prev == old(e.prev)
  {
    assert ChainedAt(rc, i);
    assert i == 0 ==> Front(rc, i) == rc == Up(rc, i);
    match h
    case NoHeuristic =>
    case MoveToFront =>
      if p != heads[b] {
        LinkToFront(heads, b, p, rc, i);
      }
    case TransposeUp =>
      if p.prev != null {
        LinkUp(heads, b, p, rc, i);
      }
  }


  /** m is t with k taken out of chain b, out of the age list and out of the map. */
  ghost predicate RemovedOnce(t: HashModel.Table, m: HashModel.Table, k: Key, b: nat) {
    && b < |t.chains| && |t.chains| == |m.chains|
    && m == t.(chains := t.chains[b := Without(t.chains[b], k)], age := Without(t.age, k), vals := t.vals - {k})
    && k !in m.age && |m.age| == |t.age| - 1 && k in t.age && Distinct(t.age)
    && |m.chains[b]| == |t.chains[b]| - 1
    && forall j :: 0 <= j < |m.chains| ==> k !in m.chains[j]
  }

  lemma RemoveShape(t: HashModel.Table, k: Key)
    requires WellFormed(t) && k in t.vals
    ensures RemovedOnce(t, HashModel.Remove(t, k), k, Bucket(t, k))
  {
    var b := Bucket(t, k);
    assert ChainOk(t, b);
    WithoutKeeps(t.chains[b], k);
    WithoutKeeps(t.age, k);
    forall j | 0 <= j < |t.chains| && j != b ensures k !in t.chains[j] {
      assert ChainOk(t, j);
    }
  }

  lemma RefsForget(node: Nodes, k: Key, c: seq<Key>)
    requires Known(node, c) && k !in c
    ensures Known(node - {k}, c) && Refs(node - {k}, c) == Refs(node, c)
  {
  }

  /** b is the bucket of k, and the only place its entry can be. */
  ghost predicate Homed(node: Nodes, t: HashModel.Table, k: Key, b: nat) {
    Shaped(t) && b == Bucket(t, k) && Apart(node, t.chains, b) && (k in t.vals <==> k in t.chains[b])
  }

  /** Different chains hold different entries. */
  lemma ChainsApart(t: HashModel.Table, node: Nodes, k: Key)
    requires WellFormed(t) && Named(node)
    ensures Homed(node, t, k, Bucket(t, k))
  {
    var b := Bucket(t, k);
    assert ChainOk(t, b);
    forall j | 0 <= j < |t.chains| && j != b ensures On(node, t.chains[j]) !! On(node, t.chains[b]) {
      assert ChainOk(t, j);
    }
  }

  /** The entry of k is on no chain, and may enter chain b. */
  ghost predicate Enterable(node: Nodes, chains: seq<seq<Key>>, k: Key, b: nat) {
    Apart(node, chains, b) && k in node && forall j :: 0 <= j < |chains| ==> node[k] !in On(node, chains[j])
  }

  /** m has the new key k at the front of chain b and at the newest end of the age list. */
  ghost predicate PlacedInRoom(node: Nodes, chains: seq<seq<Key>>, age: seq<Key>, m: HashModel.Table, k: Key, b: nat) {
    && Enterable(node, chains, k, b) && Distinct(age) && k !in age
    && m.chains == chains[b := [k] + chains[b]] && m.age == age + [k]
  }

  /** k enters chain b of chains, which gives chains1, and then v, the last of it, leaves both lists. */
  ghost predicate Swapped(node: Nodes, chains: seq<seq<Key>>, age: seq<Key>, chains1: seq<seq<Key>>, age1: seq<Key>,
                          chains2: seq<seq<Key>>, k: Key, v: Key, b: nat)
  {
    && Enterable(node, chains, k, b) && chains1 == chains[b := [k] + chains[b]]
    && Apart(node, chains1, b) && chains1[b][|chains1[b]| - 1] == v && v in node
    && chains2 == chains1[b := Without(chains1[b], v)]
    && Distinct(age) && v in age && k !in age && age1 == Without(age, v) && Distinct(age1) && k !in age1
  }

  /** What entering k in a bucket with room asks of the lists. */
  lemma RoomFacts(t: HashModel.Table, k: Key, d: Datum, node: Nodes, e: Entry)
    requires WellFormed(t) && k !in t.vals && Victim(t, k).None? && Named(node) && e.key == k
    requires node.Keys == t.vals.Keys && e !in node.Values
    ensures PlacedInRoom(node[k := e], t.chains, t.age, Place(t, k, d), k, Bucket(t, k))
    ensures |Place(t, k, d).age| == |t.age| + 1
  {
    EnterableNew(t, k, node, e);
  }

  lemma EnterableNew(t: HashModel.Table, k: Key, node: Nodes, e: Entry)
    requires WellFormed(t) && k !in t.vals && Named(node) && e.key == k
    requires node.Keys == t.vals.Keys && e !in node.Values
    ensures Enterable(node[k := e], t.chains, k, Bucket(t, k))
  {
    ChainsApart(t, node[k := e], k);
    forall j | 0 <= j < |t.chains| ensures e !in On(node[k := e], t.chains[j]) {
      assert ChainOk(t, j);
    }
  }

  /** What entering k in a full bucket asks of the lists. */
  lemma FullFacts(t: HashModel.Table, k: Key, d: Datum, v: Key, node: Nodes, e: Entry)
    requires WellFormed(t) && k !in t.vals && Victim(t, k) == Some(v) && Named(node) && e.key == k
    requires node.Keys == t.vals.Keys && e !in node.Values
    ensures var b, m := Bucket(t, k), Place(t, k, d);
      && Swapped(node[k := e], t.chains, t.age, t.chains[b := [k] + t.chains[b]], Without(t.age, v), m.chains, k, v, b)
      && VictimGone(t, m, k, v)
  {
    hide WellFormed, Enterable, Apart, VictimGone;
    FullChain(t, k, v);
    FullAge(t, k, v);
    EnterableNew(t, k, node, e);
    FullApart(t, k, d, node[k := e]);
    GoneFromAll(t, k, d, v);
  }

  lemma FullAge(t: HashModel.Table, k: Key, v: Key)
    requires WellFormed(t) && k !in t.vals && v in t.vals
    ensures Distinct(t.age) && v in t.age && k !in t.age && Distinct(Without(t.age, v)) && k !in Without(t.age, v)
  {
    WithoutKeeps(t.age, v);
  }

  ghost predicate SameSizes(a: seq<seq<Key>>, c: seq<seq<Key>>) {
    |c| == |a| && forall j :: 0 <= j < |c| ==> |c[j]| == |a[j]|
  }

  ghost predicate VictimGone(t: HashModel.Table, m: HashModel.Table, k: Key, v: Key) {
    && v in t.vals && v != k && m.age == Without(t.age, v) + [k] && v !in m.age
    && SameSizes(t.chains, m.chains) && |m.age| == |t.age|
    && forall j :: 0 <= j < |m.chains| ==> v !in m.chains[j]
  }

  /** Entering k and then giving up v is what entering a full bucket does to the map. */
  lemma VictimLeaves(t: HashModel.Table, k: Key, d: Datum, v: Key)
    requires Shaped(t) && Victim(t, k) == Some(v) && v != k
    ensures var m := Place(t, k, d);
      && m == t.(chains := m.chains, age := m.age, vals := t.vals[k := d] - {v})
      && m == m.(vals := t.vals[k := d]).(vals := t.vals[k := d] - {v})
  {
    assert t.vals[k := d] - {v} == (t.vals - {v})[k := d];
  }

  lemma ForgettableVictim(t: HashModel.Table, m: HashModel.Table, k: Key, v: Key)
    requires VictimGone(t, m, k, v)
    ensures v !in m.age && (forall j :: 0 <= j < |m.chains| ==> v !in m.chains[j]) && SameSizes(t.chains, m.chains) && |m.age| == |t.age|
    ensures v in t.vals && v != k && m.age == Without(t.age, v) + [k]
  {
  }

  lemma FullChain(t: HashModel.Table, k: Key, v: Key)
    requires WellFormed(t) && k !in t.vals && Victim(t, k) == Some(v)
    ensures Bucket(t, k) < |t.chains|
    ensures var c := t.chains[Bucket(t, k)];
      && v in t.vals && v != k && c != [] && ([k] + c)[|c|] == v
      && Without([k] + c, v) == [k] + c[..|c| - 1] && v !in [k] + c[..|c| - 1]
  {
    var c := t.chains[Bucket(t, k)];
    assert ChainOk(t, Bucket(t, k));
    PushFront(c, k);
    DropLast([k] + c);
    WithoutKeeps([k] + c, v);
    assert ([k] + c)[..|c|] == [k] + c[..|c| - 1];
  }

  lemma FullApart(t: HashModel.Table, k: Key, d: Datum, node: Nodes)
    requires WellFormed(t) && k !in t.vals && Named(node)
    ensures var b := Bucket(t, k); Apart(node, t.chains[b := [k] + t.chains[b]], b)
  {
    var u := t.(limit := 0);
    SettingsIrrelevant(t, t.heuristic, t.autoRehash, 0);
    PlaceFreeWellFormed(u, k, d);
    ChainsApart(Place(u, k, d), node, k);
  }

  lemma GoneFromAll(t: HashModel.Table, k: Key, d: Datum, v: Key)
    requires WellFormed(t) && k !in t.vals && Victim(t, k) == Some(v)
    ensures VictimGone(t, Place(t, k, d), k, v)
  {
    FullChain(t, k, v);
    WithoutKeeps(t.age, v);
    var m, b := Place(t, k, d), Bucket(t, k);
    forall j | 0 <= j < |m.chains| ensures v !in m.chains[j] && |m.chains[j]| == |t.chains[j]| {
      assert ChainOk(t, j) && ChainOk(t, b);
    }
  }

  lemma GrownFacts(t: HashModel.Table, k: Key, d: Datum, lost: set<Key>)
    requires WellFormed(t) && Masked(t)
    ensures WellFormed(Grown(t, lost)) && Masked(Grown(t, lost)) && (k !in t.vals ==> k !in Grown(t, lost).vals)
    ensures k !in t.vals ==>
              HashModel.Insert(t, k, d, lost) == Place(Grown(t, lost), k, d) && Evicted(t, k, lost) == PushedOut(Grown(t, lost), k)
  {
    InsertWellFormed(t, k, d, lost);
    if Crowded(t) {
      RehashKeepsContents(t, 2 * t.size, lost);
      SizeForIsLeastPower(2 * t.size);
    }
  }

  /** One step of the refill: the next key is new, no rehash is due, and without memory nothing happens. */
  lemma RefillInsert(t: HashModel.Table, n: nat, lost: set<Key>, i: nat)
    requires WellFormed(t) && i < |t.age|
    ensures var u, k := Refilled(t, n, lost, i), t.age[i];
      && WellFormed(u) && Masked(u) && !u.autoRehash && k !in u.vals && k in t.vals
      && Refilled(t, n, lost, i + 1) == if k in lost then u else HashModel.Insert(u, k, t.vals[k], {})
  {
    var e := Empty(t.hash, n);
    EmptyWellFormed(t.hash, n);
    MinusKeeps(t.age[..i], lost);
    RefillWellFormed(e, Minus(t.age[..i], lost), t.vals);
    NewToPrefix(t, Refilled(t, n, lost, i), lost, i);
    RefillNext(e, t.age, t.vals, lost, i);
  }

  lemma NewToPrefix(t: HashModel.Table, u: HashModel.Table, lost: set<Key>, i: nat)
    requires WellFormed(t) && WellFormed(u) && i < |t.age| && u.age == Minus(t.age[..i], lost)
    ensures t.age[i] !in u.vals && t.age[i] in t.vals
  {
    assert t.age[i] !in t.age[..i];
  }

  lemma RefillNext(e: HashModel.Table, age: seq<Key>, vals: map<Key, Datum>, lost: set<Key>, i: nat)
    requires Shaped(e) && i < |age| && forall k :: k in age ==> k in vals
    ensures var r := Refill(e, Minus(age[..i], lost), vals);
            Refill(e, Minus(age[..i + 1], lost), vals) == if age[i] in lost then r else Place(r, age[i], vals[age[i]])
  {
    assert age[..i + 1][..i] == age[..i];
    var kept := Minus(age[..i], lost);
    assert (kept + [age[i]])[..|kept|] == kept;
  }
}
