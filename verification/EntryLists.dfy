/** The two doubly linked lists every hash entry is on: the chain of its bucket and the insertion-age list. */
module EntryLists {
  import opened Sequences
  import opened HashModel

  class Entry {
    const key: Key
    var data: Datum
    var next: Entry?
    var prev: Entry?
    var older: Entry?
    var newer: Entry?

    constructor (k: Key, d: Datum)
      ensures key == k && data == d
      ensures next == null && prev == null && older == null && newer == null
    {
      key, data := k, d;
      next, prev, older, newer := null, null, null, null;
    }
  }

  ghost function At(s: seq<Entry>, i: int): Entry? {
    if 0 <= i < |s| then s[i] else null
  }

  ghost predicate ChainedAt(c: seq<Entry>, i: nat)
    requires i < |c|
    reads c`next, c`prev
  {
    c[i].next == At(c, i + 1) && c[i].prev == At(c, i - 1)
  }

  /** c is a doubly linked bucket chain. */
  ghost predicate Chained(c: seq<Entry>)
    reads c`next, c`prev
  {
    forall i :: 0 <= i < |c| ==> ChainedAt(c, i)
  }

  ghost predicate AgedAt(a: seq<Entry>, i: nat)
    requires i < |a|
    reads a`older, a`newer
  {
    a[i].newer == At(a, i + 1) && a[i].older == At(a, i - 1)
  }

  /** a is the doubly linked age list, oldest first. */
  ghost predicate Aged(a: seq<Entry>)
    reads a`older, a`newer
  {
    forall i :: 0 <= i < |a| ==> AgedAt(a, i)
  }

  /** pos inverts the indexing of s, which therefore has no repetitions. */
  ghost predicate Positions(s: seq<Entry>, pos: map<Entry, nat>) {
    forall i :: 0 <= i < |s| ==> s[i] in pos && pos[s[i]] == i
  }

  lemma PositionsOf(s: seq<Entry>) returns (pos: map<Entry, nat>)
    requires Distinct(s)
    ensures Positions(s, pos)
  {
    pos := map e | e in s :: Find(s, e);
    forall i | 0 <= i < |s| ensures s[i] in pos && pos[s[i]] == i {
      FindsItself(s, i);
    }
  }

  /** Moves an entry that is not the first of its chain to the front of it. */
  method LinkToFront(heads: array<Entry?>, b: nat, e: Entry, ghost c: seq<Entry>, ghost i: nat)
    requires b < heads.Length && heads[b] == At(c, 0)
    requires Chained(c) && Distinct(c)
    requires 0 < i < |c| && c[i] == e
    modifies heads, c`next, c`prev
    ensures Chained(Front(c, i)) && heads[b] == e
    ensures forall j :: 0 <= j < heads.Length && j != b ==> heads[j] == old(heads[j])
  {
    ghost var pos := PositionsOf(c);
    ghost var d := Front(c, i);
    assert ChainedAt(c, i) && ChainedAt(c, i - 1) && ChainedAt(c, 0);
    assert i + 1 < |c| ==> ChainedAt(c, i + 1);
    e.prev.next := e.next;
    if e.next != null {
      e.next.prev := e.prev;
    }
    e.next := heads[b];
    e.prev := null;
    heads[b].prev := e;
    heads[b] := e;
    forall j | 0 <= j < |d| ensures ChainedAt(d, j) {
      if 0 < j <= i {
        assert old(ChainedAt(c, j - 1)) && pos[c[j - 1]] == j - 1;
      } else if j > i {
        assert old(ChainedAt(c, j)) && pos[c[j]] == j;
      }
    }
  }

  /** Exchanges an entry that is not the first of its chain with the one before it. */
  method LinkUp(heads: array<Entry?>, b: nat, e: Entry, ghost c: seq<Entry>, ghost i: nat)
    requires b < heads.Length && heads[b] == At(c, 0)
    requires Chained(c) && Distinct(c)
    requires 0 < i < |c| && c[i] == e
    modifies heads, c`next, c`prev
    ensures Chained(Up(c, i)) && heads[b] == Up(c, i)[0]
    ensures forall j :: 0 <= j < heads.Length && j != b ==> heads[j] == old(heads[j])
  {
    ghost var pos := PositionsOf(c);
    ghost var d := Up(c, i);
    assert ChainedAt(c, i) && ChainedAt(c, i - 1);
    assert i + 1 < |c| ==> ChainedAt(c, i + 1);
    assert i >= 2 ==> ChainedAt(c, i - 2);
    var x := e.prev;
    var a := x.prev;
    var n := e.next;
    if a != null {
      a.next := e;
    } else {
      heads[b] := e;
    }
    if n != null {
      n.prev := x;
    }
    x.next := e.next;
    x.prev := e;
    e.next := x;
    e.prev := a;
    forall j | 0 <= j < |d| ensures ChainedAt(d, j) {
      assert old(ChainedAt(c, j)) && pos[c[j]] == j;
    }
  }

  /** Takes an entry out of its chain. */
  method UnlinkChain(heads: array<Entry?>, b: nat, e: Entry, ghost c: seq<Entry>, ghost i: nat)
    requires b < heads.Length && heads[b] == At(c, 0)
    requires Chained(c) && Distinct(c)
    requires i < |c| && c[i] == e
    modifies heads, c`next, c`prev
    ensures Chained(RemoveAt(c, i)) && heads[b] == At(RemoveAt(c, i), 0)
    ensures forall j :: 0 <= j < heads.Length && j != b ==> heads[j] == old(heads[j])
  {
    ghost var pos := PositionsOf(c);
    ghost var d := RemoveAt(c, i);
    assert ChainedAt(c, i);
    assert i > 0 ==> ChainedAt(c, i - 1);
    assert i + 1 < |c| ==> ChainedAt(c, i + 1);
    if e.prev != null {
      e.prev.next := e.next;
    } else {
      heads[b] := e.next;
    }
    if e.next != null {
      e.next.prev := e.prev;
    }
    forall j | 0 <= j < |d| ensures ChainedAt(d, j) {
      ghost var k := if j < i then j else j + 1;
      assert old(ChainedAt(c, k)) && pos[c[k]] == k;
    }
  }

  /** Puts a fresh entry first in a chain. */
  method LinkFirst(heads: array<Entry?>, b: nat, e: Entry, ghost c: seq<Entry>)
    requires b < heads.Length && heads[b] == At(c, 0)
    requires Chained(c) && Distinct(c) && e !in c
    modifies heads, c`prev, e`next, e`prev
    ensures Chained([e] + c) && heads[b] == e
    ensures forall j :: 0 <= j < heads.Length && j != b ==> heads[j] == old(heads[j])
  {
    ghost var pos := PositionsOf(c);
    ghost var d := [e] + c;
    assert |c| > 0 ==> ChainedAt(c, 0);
    e.next := heads[b];
    e.prev := null;
    if heads[b] != null {
      heads[b].prev := e;
    }
    heads[b] := e;
    forall j | 0 <= j < |d| ensures ChainedAt(d, j) {
      if j > 0 {
        assert old(ChainedAt(c, j - 1)) && pos[c[j - 1]] == j - 1;
      }
    }
  }
}
