/** The map from keys to data kept on a circular list, and the recursion flag of a thread built on it. */
module DataMaps {
  import opened Options
  import opened Sequences
  import opened RingLists

  /** An association, most recently inserted first. */
  datatype Pair = Pair(key: nat, data: nat)

  ghost predicate Unique(p: seq<Pair>) {
    forall i, j :: 0 <= i < j < |p| ==> p[i].key != p[j].key
  }

  /** The first position of a key; the length when it is absent. */
  function Position(p: seq<Pair>, k: nat): (i: nat)
    ensures i <= |p|
    ensures i < |p| ==> p[i].key == k
    ensures forall j :: 0 <= j < i ==> p[j].key != k
  {
    if p == [] then 0 else if p[0].key == k then 0 else 1 + Position(p[1..], k)
  }

  function Put(p: seq<Pair>, k: nat, d: nat): seq<Pair> {
    var i := Position(p, k);
    if i < |p| then p[i := Pair(k, d)] else [Pair(k, d)] + p
  }

  function Drop(p: seq<Pair>, k: nat): seq<Pair> {
    var i := Position(p, k);
    if i < |p| then RemoveAt(p, i) else p
  }

  /** The datum of a key, 0 when there is none. */
  function Value(p: seq<Pair>, k: nat): nat {
    var i := Position(p, k);
    if i < |p| then p[i].data else 0
  }

  lemma PositionIs(p: seq<Pair>, k: nat, i: nat)
    requires i < |p| && p[i].key == k && forall j :: 0 <= j < i ==> p[j].key != k
    ensures Position(p, k) == i
  {
    var j := Position(p, k);
    assert j < |p| ==> p[j].key == k;
  }

  // ----- a finite map -----

  ghost function Meaning(p: seq<Pair>): map<nat, nat> {
    map k | k in set i | 0 <= i < |p| :: p[i].key :: Value(p, k)
  }

  lemma InMeaning(p: seq<Pair>, k: nat)
    ensures k in Meaning(p) <==> Position(p, k) < |p|
  {
    if Position(p, k) < |p| {
      assert p[Position(p, k)].key == k;
    }
  }

  lemma PutPosition(p: seq<Pair>, k: nat, d: nat, x: nat)
    requires Unique(p)
    ensures (Position(Put(p, k, d), x) < |Put(p, k, d)|) <==> (x == k || Position(p, x) < |p|)
    ensures Value(Put(p, k, d), x) == if x == k then d else Value(p, x)
  {
    var i, j, q := Position(p, k), Position(p, x), Put(p, k, d);
    if i < |p| {
      if j < |p| {
        PositionIs(q, x, j);
      }
    } else if x != k && j < |p| {
      PositionIs(q, x, j + 1);
    } else if x == k {
      PositionIs(q, x, 0);
    }
  }

  /** Adding under a key updates the map at that key, and keeps the keys unique. */
  lemma PutUpdates(p: seq<Pair>, k: nat, d: nat)
    requires Unique(p)
    ensures Unique(Put(p, k, d)) && Meaning(Put(p, k, d)) == Meaning(p)[k := d]
  {
    forall x ensures x in Meaning(Put(p, k, d)) <==> x in Meaning(p)[k := d] {
      InMeaning(p, x);
      InMeaning(Put(p, k, d), x);
      PutPosition(p, k, d, x);
    }
    forall x | x in Meaning(p)[k := d] ensures Value(Put(p, k, d), x) == Meaning(p)[k := d][x] {
      PutPosition(p, k, d, x);
    }
  }

  lemma DropPosition(p: seq<Pair>, k: nat, x: nat)
    requires Unique(p)
    ensures (Position(Drop(p, k), x) < |Drop(p, k)|) <==> (x != k && Position(p, x) < |p|)
    ensures x != k ==> Value(Drop(p, k), x) == Value(p, x)
  {
    var i, j, q := Position(p, k), Position(p, x), Drop(p, k);
    if i < |p| && x != k && j < |p| {
      PositionIs(q, x, if j < i then j else j - 1);
    }
  }

  /** Removing a key removes it from the map, and nothing else. */
  lemma DropRemoves(p: seq<Pair>, k: nat)
    requires Unique(p)
    ensures Unique(Drop(p, k)) && Meaning(Drop(p, k)) == Meaning(p) - {k}
  {
    forall x ensures x in Meaning(Drop(p, k)) <==> x in Meaning(p) - {k} {
      InMeaning(p, x);
      InMeaning(Drop(p, k), x);
      DropPosition(p, k, x);
    }
    forall x | x in Meaning(p) - {k} ensures Value(Drop(p, k), x) == Value(p, x) {
      DropPosition(p, k, x);
    }
  }

  /** Removing the first entry removes its key. */
  lemma FirstDrops(p: seq<Pair>)
    requires p != []
    ensures RemoveAt(p, 0) == Drop(p, p[0].key)
  {
  }

  lemma ValueIsLookup(p: seq<Pair>, k: nat)
    ensures Value(p, k) == if k in Meaning(p) then Meaning(p)[k] else 0
  {
    InMeaning(p, k);
  }

  // ----- any run of calls -----

  datatype Act = Add(k: nat, d: nat, memory: bool) | Take(k: nat) | TakeFirst | Ask(k: nat) | AskEmpty

  datatype Answer = Added(ok: bool) | Taken | First(d: nat, k: Option<nat>) | Datum(d: nat) | Emptiness(empty: bool)

  /** What a call does to the pairs, and what it answers. */
  function ActOn(p: seq<Pair>, a: Act): (seq<Pair>, Answer) {
    match a
    case Add(k, d, memory) => (if memory then Put(p, k, d) else p, Added(memory))
    case Take(k) => (Drop(p, k), Taken)
    case TakeFirst => if p == [] then (p, First(0, None)) else (RemoveAt(p, 0), First(p[0].data, Some(p[0].key)))
    case Ask(k) => (p, Datum(Value(p, k)))
    case AskEmpty => (p, Emptiness(p == []))
  }

  function ActAll(p: seq<Pair>, acts: seq<Act>): (seq<Pair>, seq<Answer>)
    decreases |acts|
  {
    if acts == [] then (p, [])
    else
      var (q, answer) := ActOn(p, acts[0]);
      var (r, answers) := ActAll(q, acts[1..]);
      (r, [answer] + answers)
  }

  /** A finite map, and its keys with the one that entered last in front. */
  datatype Assoc = Assoc(vals: map<nat, nat>, order: seq<nat>)

  function ActOnMap(s: Assoc, a: Act): (Assoc, Answer) {
    match a
    case Add(k, d, memory) =>
      (if memory then Assoc(s.vals[k := d], if k in s.vals then s.order else [k] + s.order) else s, Added(memory))
    case Take(k) => (Assoc(s.vals - {k}, Without(s.order, k)), Taken)
    case TakeFirst =>
      if s.order == [] then (s, First(0, None))
      else
        var k := s.order[0];
        (Assoc(s.vals - {k}, Without(s.order, k)), First(if k in s.vals then s.vals[k] else 0, Some(k)))
    case Ask(k) => (s, Datum(if k in s.vals then s.vals[k] else 0))
    case AskEmpty => (s, Emptiness(s.vals == map[]))
  }

  function ActAllMap(s: Assoc, acts: seq<Act>): (Assoc, seq<Answer>)
    decreases |acts|
  {
    if acts == [] then (s, [])
    else
      var (t, answer) := ActOnMap(s, acts[0]);
      var (u, answers) := ActAllMap(t, acts[1..]);
      (u, [answer] + answers)
  }

  function Keys(p: seq<Pair>): (r: seq<nat>)
    ensures |r| == |p| && forall i :: 0 <= i < |p| ==> r[i] == p[i].key
  {
    seq(|p|, i requires 0 <= i < |p| => p[i].key)
  }

  ghost function AsMap(p: seq<Pair>): Assoc {
    Assoc(Meaning(p), Keys(p))
  }

  lemma KeysPosition(p: seq<Pair>, k: nat)
    ensures if k in Keys(p) then Position(p, k) == Find(Keys(p), k) else Position(p, k) == |p|
  {
    var i := Position(p, k);
    if i < |p| {
      assert Keys(p)[i] == k;
    }
    if k in Keys(p) {
      PositionIs(p, k, Find(Keys(p), k));
    }
  }

  lemma DropKeys(p: seq<Pair>, k: nat)
    ensures Keys(Drop(p, k)) == Without(Keys(p), k)
  {
    KeysPosition(p, k);
  }

  lemma PutKeys(p: seq<Pair>, k: nat, d: nat)
    ensures Keys(Put(p, k, d)) == if k in Keys(p) then Keys(p) else [k] + Keys(p)
  {
    KeysPosition(p, k);
  }

  lemma MeaningKeys(p: seq<Pair>, k: nat)
    ensures k in Meaning(p) <==> k in Keys(p)
  {
    InMeaning(p, k);
    KeysPosition(p, k);
  }

  lemma NoPairs(p: seq<Pair>)
    ensures p == [] <==> Meaning(p) == map[]
  {
    if p != [] {
      assert p[0].key in Meaning(p);
    }
  }

  lemma ActsAsMap(p: seq<Pair>, a: Act)
    requires Unique(p)
    ensures Unique(ActOn(p, a).0) && ActOnMap(AsMap(p), a) == (AsMap(ActOn(p, a).0), ActOn(p, a).1)
  {
    hide Unique, Meaning, Value, Position, Keys, Put, Drop, Without;
    match a
    case Add(k, d, memory) =>
      PutUpdates(p, k, d);
      PutKeys(p, k, d);
      MeaningKeys(p, k);
    case Take(k) =>
      DropRemoves(p, k);
      DropKeys(p, k);
    case TakeFirst =>
      if p != [] {
        FirstDrops(p);
        DropRemoves(p, p[0].key);
        DropKeys(p, p[0].key);
        ValueIsLookup(p, p[0].key);
        FirstValue(p);
      }
    case Ask(k) => ValueIsLookup(p, k);
    case AskEmpty => NoPairs(p);
  }

  lemma FirstValue(p: seq<Pair>)
    requires p != []
    ensures Value(p, p[0].key) == p[0].data && p[0].key in Meaning(p)
  {
    PositionIs(p, p[0].key, 0);
    InMeaning(p, p[0].key);
  }

  /** Any run of calls answers as a finite map does, whose keys come out last in, first out. */
  lemma {:induction false} RunsAsMap(p: seq<Pair>, acts: seq<Act>)
    requires Unique(p)
    ensures Unique(ActAll(p, acts).0) && ActAllMap(AsMap(p), acts) == (AsMap(ActAll(p, acts).0), ActAll(p, acts).1)
    decreases |acts|
  {
    hide Unique, AsMap, ActOn, ActOnMap;
    if acts != [] {
      ActsAsMap(p, acts[0]);
      RunsAsMap(ActOn(p, acts[0]).0, acts[1..]);
    }
  }

  // ----- the recursion flag -----

  /** What threads do with the flag; an entry whose allocation fails leaves no trace. */
  datatype Event = Enter(thread: nat, cookie: nat, ok: bool) | Leave(thread: nat)

  function Following(p: seq<Pair>, e: Event): seq<Pair> {
    match e
    case Enter(t, cookie, ok) => if ok then Put(p, t, cookie) else p
    case Leave(t) => Drop(p, t)
  }

  function Happened(events: seq<Event>): seq<Pair> {
    if events == [] then [] else Following(Happened(events[..|events| - 1]), events[|events| - 1])
  }

  predicate Recursive(events: seq<Event>, t: nat) {
    Value(Happened(events), t) != 0
  }

  /** Whether a thread's last own event was an Enter. */
  function LastOwn(events: seq<Event>, t: nat): bool {
    if events == [] then false
    else
      var e := events[|events| - 1];
      if e == Leave(t) then false
      else if e.Enter? && e.thread == t && e.ok then true
      else LastOwn(events[..|events| - 1], t)
  }

  /** A thread's flag depends only on what it did last itself. */
  lemma {:induction false} FlagIsOwn(events: seq<Event>, t: nat)
    requires forall i :: 0 <= i < |events| && events[i].Enter? ==> events[i].cookie != 0
    ensures Unique(Happened(events)) && (Recursive(events, t) <==> LastOwn(events, t))
  {
    if events != [] {
      var before, e := events[..|events| - 1], events[|events| - 1];
      FlagIsOwn(before, t);
      var p := Happened(before);
      match e
      case Enter(u, cookie, ok) =>
        PutUpdates(p, u, cookie);
        PutPosition(p, u, cookie, t);
      case Leave(u) =>
        DropRemoves(p, u);
        DropPosition(p, u, t);
    }
  }

  // ----- the list -----

  /** After its head, the list has an entry for every pair, each key once and no datum null. */
  ghost predicate Lists(ring: seq<Link>, p: seq<Pair>)
    reads ring`data
  {
    && |ring| == |p| + 1 && Unique(p)
    && forall i :: 0 <= i < |p| ==> ring[i + 1].key == p[i].key && ring[i + 1].data == p[i].data != 0
  }

  lemma ListsDropped(ring: seq<Link>, p: seq<Pair>, i: nat)
    requires Lists(ring, p) && i < |p|
    ensures Lists(RemoveAt(ring, i + 1), RemoveAt(p, i))
  {
  }

  lemma ListsAdded(ring: seq<Link>, e: Link, p: seq<Pair>)
    requires Lists(ring, p) && e.data != 0 && Position(p, e.key) == |p|
    ensures Lists([ring[0], e] + ring[1..], [Pair(e.key, e.data)] + p)
  {
  }

  /** Overwrites the datum of the entry at i. */
  method Overwrite(e: Link, d: nat, ghost ring: seq<Link>, ghost p: seq<Pair>, ghost i: nat)
    requires Lists(ring, p) && Distinct(ring) && i < |p| && ring[i + 1] == e && d != 0
    modifies e`data
    ensures Lists(ring, p[i := Pair(p[i].key, d)])
  {
    e.data := d;
  }

  lemma RingIsDistinct(s: seq<Link>)
    requires Ring(s)
    ensures Distinct(s)
  {
  }

  lemma RemovedIsOld(s: seq<Link>, i: nat)
    requires i < |s|
    ensures forall x :: x in RemoveAt(s, i) ==> x in s
  {
  }

  class DataMap {
    const head: Link
    ghost var ring: seq<Link>

    /** The list holds the pairs p. */
    ghost predicate Holds(p: seq<Pair>)
      reads this, ring
    {
      |ring| == |p| + 1 && ring[0] == head && Ring(ring) && Lists(ring, p)
    }

    constructor ()
      ensures Holds([]) && fresh(head) && ring == [head]
    {
      var h := new Link(0, 0);
      head := h;
      ring := [h];
      new;
      InitializeHead(head);
    }

    method FindEntryByKey(k: nat, ghost p: seq<Pair>) returns (e: Link?)
      requires Holds(p)
      ensures e == if Position(p, k) < |p| then ring[Position(p, k) + 1] else null
    {
      var le := head.flink;
      ghost var i := 0;
      while le != head
        invariant 0 <= i <= |p| && le == After(ring, i)
        invariant forall j :: 0 <= j < i ==> p[j].key != k
        decreases |p| - i
      {
        assert le == ring[i + 1];
        if le.key == k {
          PositionIs(p, k, i);
          return le;
        }
        le := le.flink;
        i := i + 1;
      }
      assert i == |p|;
      e := null;
    }

    /** An allocation that fails leaves the map as it is; memory tells whether it succeeds. */
    method AddDataByKey(k: nat, d: nat, memory: bool, ghost p: seq<Pair>) returns (ok: bool)
      requires Holds(p) && d != 0
      modifies this, ring
      ensures ok == memory
      ensures Holds(if memory then Put(p, k, d) else p)
      ensures forall x :: x in ring ==> x in old(ring) || fresh(x)
    {
      hide Ring, Lists, Unique, Position;
      if !memory {
        return false;
      }
      var entry := new Link(k, d);
      var existing := FindEntryByKey(k, p);
      if existing != null {
        RingIsDistinct(ring);
        Overwrite(existing, d, ring, p, Position(p, k));
      } else {
        ListsAdded(ring, entry, p);
        InsertHead(head, entry, ring);
        ring := [head, entry] + ring[1..];
      }
      ok := true;
    }

    method RemoveKey(k: nat, ghost p: seq<Pair>)
      requires Holds(p)
      modifies this, ring
      ensures Holds(Drop(p, k))
      ensures forall x :: x in ring ==> x in old(ring)
    {
      hide Ring, Lists, Unique, Position;
      var entry := FindEntryByKey(k, p);
      if entry != null {
        RemoveEntryAt(entry, p, Position(p, k));
      }
    }

    /** Takes the entry at i off the list. */
    method RemoveEntryAt(entry: Link, ghost p: seq<Pair>, ghost i: nat)
      requires Holds(p) && i < |p| && ring[i + 1] == entry
      modifies this, ring`flink, ring`blink
      ensures Holds(RemoveAt(p, i))
      ensures forall x :: x in ring ==> x in old(ring)
    {
      hide Ring, Lists, Unique;
      ListsDropped(ring, p, i);
      RemovedIsOld(ring, i + 1);
      var _ := RemoveEntry(entry, ring, i + 1);
      ring := RemoveAt(ring, i + 1);
    }

    method RemoveFirst(ghost p: seq<Pair>) returns (d: nat, k: Option<nat>)
      requires Holds(p)
      modifies this, ring
      ensures if p == [] then d == 0 && k == None && Holds(p)
              else d == p[0].data && k == Some(p[0].key) && Holds(RemoveAt(p, 0))
      ensures forall x :: x in ring ==> x in old(ring)
    {
      d, k := 0, None;
      var empty := IsEmpty(head, ring);
      if !empty {
        var entry := head.flink;
        RemoveEntryAt(entry, p, 0);
        d, k := entry.data, Some(entry.key);
      }
    }

    method GetDataByKey(k: nat, ghost p: seq<Pair>) returns (d: nat)
      requires Holds(p)
      ensures d == Value(p, k)
    {
      var entry := FindEntryByKey(k, p);
      d := if entry != null then entry.data else 0;
    }

    method Empty(ghost p: seq<Pair>) returns (empty: bool)
      requires Holds(p)
      ensures empty <==> p == []
    {
      empty := IsEmpty(head, ring);
    }
  }

  /** One call on the list. */
  method Call(m: DataMap, a: Act, ghost p: seq<Pair>) returns (answer: Answer)
    requires m.Holds(p) && (a.Add? ==> a.d != 0)
    modifies m, m.ring
    ensures m.Holds(ActOn(p, a).0) && answer == ActOn(p, a).1
    ensures forall x :: x in m.ring ==> x in old(m.ring) || fresh(x)
  {
    hide Put, Drop, Value, DataMap.Holds;
    match a
    case Add(k, d, memory) =>
      var ok := m.AddDataByKey(k, d, memory, p);
      answer := Added(ok);
    case Take(k) =>
      m.RemoveKey(k, p);
      answer := Taken;
    case TakeFirst =>
      var d, k := m.RemoveFirst(p);
      answer := First(d, k);
    case Ask(k) =>
      var d := m.GetDataByKey(k, p);
      answer := Datum(d);
    case AskEmpty =>
      var empty := m.Empty(p);
      answer := Emptiness(empty);
  }

  /** A new list, whatever is called on it and whichever allocations fail, answers as a finite map does. */
  method CallAll(acts: seq<Act>) returns (m: DataMap, answers: seq<Answer>, ghost p: seq<Pair>)
    requires forall i :: 0 <= i < |acts| && acts[i].Add? ==> acts[i].d != 0
    ensures fresh(m) && m.Holds(p)
    ensures (AsMap(p), answers) == ActAllMap(Assoc(map[], []), acts)
  {
    hide ActOn, DataMap.Holds, AsMap, Unique;
    m := new DataMap();
    answers, p := [], [];
    var i := 0;
    assert acts[0..] == acts;
    while i < |acts|
      invariant i <= |acts| && m.Holds(p) && fresh(m)
      invariant forall j :: 0 <= j < |m.ring| ==> fresh(m.ring[j])
      invariant ActAll([], acts).0 == ActAll(p, acts[i..]).0 && ActAll([], acts).1 == answers + ActAll(p, acts[i..]).1
    {
      assert acts[i..][1..] == acts[i + 1..];
      ghost var was := m.ring;
      var answer := Call(m, acts[i], p);
      forall j | 0 <= j < |m.ring| ensures fresh(m.ring[j]) {
        assert m.ring[j] in m.ring;
        if m.ring[j] in was {
          var k :| 0 <= k < |was| && was[k] == m.ring[j];
        }
      }
      p := ActOn(p, acts[i]).0;
      assert answers + ([answer] + ActAll(p, acts[i + 1..]).1) == (answers + [answer]) + ActAll(p, acts[i + 1..]).1;
      answers := answers + [answer];
      i := i + 1;
    }
    assert acts[i..] == [] && answers + [] == answers;
    StartsEmpty();
    RunsAsMap([], acts);
  }

  lemma StartsEmpty()
    ensures Unique([]) && AsMap([]) == Assoc(map[], [])
  {
  }
}
