/** Circular doubly linked lists through a head. */
module RingLists {
  import opened Sequences

  /** A list entry together with the record it is embedded in; a head uses only the links. */
  class Link {
    var flink: Link
    var blink: Link
    const key: nat
    var data: nat

    constructor (k: nat, d: nat)
      ensures key == k && data == d && flink == this && blink == this
    {
      key, data := k, d;
      flink, blink := this, this;
    }
  }

  ghost function After(s: seq<Link>, i: nat): Link
    requires i < |s|
  {
    if i + 1 < |s| then s[i + 1] else s[0]
  }

  ghost function Before(s: seq<Link>, i: nat): Link
    requires i < |s|
  {
    if i > 0 then s[i - 1] else s[|s| - 1]
  }

  /** s is a ring: following the forward links from s[0] goes once through s and back, and the backward links likewise. */
  ghost predicate Ring(s: seq<Link>)
    reads s`flink, s`blink
  {
    && |s| > 0 && Distinct(s)
    && forall i :: 0 <= i < |s| ==> s[i].flink == After(s, i) && s[i].blink == Before(s, i)
  }

  method InitializeHead(head: Link)
    modifies head`flink, head`blink
    ensures Ring([head])
  {
    head.flink, head.blink := head, head;
  }

  method IsEmpty(head: Link, ghost s: seq<Link>) returns (empty: bool)
    requires Ring(s) && s[0] == head
    ensures empty <==> s == [head]
  {
    empty := head.flink == head;
  }

  method InsertHead(head: Link, e: Link, ghost s: seq<Link>)
    requires Ring(s) && s[0] == head && e !in s
    modifies s`flink, s`blink, e`flink, e`blink
    ensures Ring([head, e] + s[1..])
  {
    var first := head.flink;
    e.flink := first;
    e.blink := head;
    first.blink := e;
    head.flink := e;
  }

  method InsertTail(head: Link, e: Link, ghost s: seq<Link>)
    requires Ring(s) && s[0] == head && e !in s
    modifies s`flink, s`blink, e`flink, e`blink
    ensures Ring(s + [e])
  {
    var last := head.blink;
    e.flink := head;
    e.blink := last;
    last.flink := e;
    head.blink := e;
  }

  /** The entry is on the list: it is not the head. */
  method RemoveEntry(e: Link, ghost s: seq<Link>, ghost i: nat) returns (emptied: bool)
    requires Ring(s) && 0 < i < |s| && s[i] == e
    modifies s`flink, s`blink
    ensures Ring(RemoveAt(s, i))
    ensures emptied <==> |s| == 2
  {
    var next, prev := e.flink, e.blink;
    prev.flink := next;
    next.blink := prev;
    emptied := next == prev;
    Closes(s, i);
  }

  /** Two links written around the gap close the ring. */
  lemma Closes(s: seq<Link>, i: nat)
    requires 0 < i < |s| && Distinct(s)
    requires s[i - 1].flink == After(s, i) && After(s, i).blink == s[i - 1]
    requires forall j :: 0 <= j < |s| && j != i && j != i - 1 ==> s[j].flink == After(s, j)
    requires forall j :: 0 <= j < |s| && j != i && j != (if i + 1 < |s| then i + 1 else 0) ==> s[j].blink == Before(s, j)
    ensures Ring(RemoveAt(s, i))
  {
    var r := RemoveAt(s, i);
    forall j | 0 <= j < |r| ensures r[j].flink == After(r, j) {
      assert r[j] == s[if j < i then j else j + 1];
      if j + 1 < |r| {
        assert After(r, j) == s[if j + 1 < i then j + 1 else j + 2];
      }
    }
    forall j | 0 <= j < |r| ensures r[j].blink == Before(r, j) {
      assert r[j] == s[if j < i then j else j + 1];
      if j > 0 {
        assert Before(r, j) == s[if j - 1 < i then j - 1 else j];
      }
    }
  }

  /** Of an empty list, the head itself comes back. */
  method RemoveHead(head: Link, ghost s: seq<Link>) returns (e: Link)
    requires Ring(s) && s[0] == head
    modifies s`flink, s`blink
    ensures e == After(s, 0) && Ring(if |s| > 1 then RemoveAt(s, 1) else s)
  {
    e := head.flink;
    var next := e.flink;
    head.flink := next;
    next.blink := head;
    if |s| > 1 {
      Closes(s, 1);
    }
  }

  method RemoveTail(head: Link, ghost s: seq<Link>) returns (e: Link)
    requires Ring(s) && s[0] == head
    modifies s`flink, s`blink
    ensures e == s[|s| - 1] && Ring(if |s| > 1 then s[..|s| - 1] else s)
  {
    e := head.blink;
    var prev := e.blink;
    head.blink := prev;
    prev.flink := head;
  }

  /** Appends a ring without a head of its own. */
  method AppendTail(head: Link, list: Link, ghost s: seq<Link>, ghost l: seq<Link>)
    requires Ring(s) && s[0] == head && Ring(l) && l[0] == list
    requires forall x :: x in s ==> x !in l
    modifies s`flink, s`blink, l`flink, l`blink
    ensures Ring(s + l)
  {
    Disjoint(s, l);
    var end := head.blink;
    head.blink.flink := list;
    head.blink := list.blink;
    list.blink.flink := head;
    list.blink := end;
    forall i | 0 <= i < |s + l|
      ensures (s + l)[i].flink == After(s + l, i) && (s + l)[i].blink == Before(s + l, i)
    {
      if i >= |s| {
        assert (s + l)[i] == l[i - |s|];
      }
    }
  }

  lemma Disjoint(s: seq<Link>, l: seq<Link>)
    requires Distinct(s) && Distinct(l) && forall x :: x in s ==> x !in l
    ensures Distinct(s + l) && forall i, j :: 0 <= i < |s| && 0 <= j < |l| ==> s[i] != l[j]
  {
    forall i, j | 0 <= i < |s| && 0 <= j < |l| ensures s[i] != l[j] {
      assert s[i] in s;
    }
  }
}
