/** Rearrangements of sequences without repetitions. */
module Sequences {

  ghost predicate Distinct<T>(s: seq<T>) {
    forall i, j :: 0 <= i < j < |s| ==> s[i] != s[j]
  }

  /** The first position of x in s. */
  function Find<T(==)>(s: seq<T>, x: T): (i: nat)
    requires x in s
    ensures i < |s| && s[i] == x && x !in s[..i]
  {
    if s[0] == x then 0 else 1 + Find(s[1..], x)
  }

  lemma FindsItself<T>(s: seq<T>, i: nat)
    requires Distinct(s) && i < |s|
    ensures Find(s, s[i]) == i
  {
    var j := Find(s, s[i]);
    assert s[j] == s[i];
  }

  function RemoveAt<T>(s: seq<T>, i: nat): (r: seq<T>)
    requires i < |s|
    ensures |r| == |s| - 1
    ensures forall j :: 0 <= j < |r| ==> r[j] == if j < i then s[j] else s[j + 1]
  {
    s[..i] + s[i + 1..]
  }

  /** The part from i on after an element has gone. */
  lemma RestOfRemoved<T>(s: seq<T>, i: nat, f: nat)
    requires f < |s| && i <= |s|
    ensures if f < i then RemoveAt(s, f)[i - 1..] == s[i..] else RemoveAt(s, f)[i..] == RemoveAt(s[i..], f - i)
  {
  }

  /** The element at i moved to the front. */
  function Front<T>(s: seq<T>, i: nat): (r: seq<T>)
    requires i < |s|
    ensures |r| == |s|
    ensures forall j :: 0 <= j < |r| ==> r[j] == if j == 0 then s[i] else if j <= i then s[j - 1] else s[j]
  {
    [s[i]] + s[..i] + s[i + 1..]
  }

  /** The element at i exchanged with the one before it. */
  function Up<T>(s: seq<T>, i: nat): (r: seq<T>)
    requires i < |s|
    ensures |r| == |s|
    ensures forall j :: 0 <= j < |r| ==>
      r[j] == if i > 0 && j == i - 1 then s[i] else if i > 0 && j == i then s[i - 1] else s[j]
  {
    if i == 0 then s else s[i - 1 := s[i]][i := s[i - 1]]
  }

  /** s without x, which may be absent. */
  function Without<T(==)>(s: seq<T>, x: T): (r: seq<T>) {
    if x in s then RemoveAt(s, Find(s, x)) else s
  }

  lemma WithoutKeeps<T>(s: seq<T>, x: T)
    requires Distinct(s)
    ensures Distinct(Without(s, x)) && x !in Without(s, x)
    ensures forall y :: y in Without(s, x) <==> y in s && y != x
    ensures |Without(s, x)| == |s| - (if x in s then 1 else 0)
  {
    if x in s {
      var i := Find(s, x);
      var r := RemoveAt(s, i);
      forall y ensures y in r <==> y in s && y != x {
        if y in s && y != x {
          var j := Find(s, y);
          assert r[if j < i then j else j - 1] == y;
        }
      }
    }
  }

  /** s without the elements of x, in order. */
  function Minus<T(==)>(s: seq<T>, x: set<T>): (r: seq<T>)
    ensures forall y :: y in r ==> y in s
  {
    if s == [] then []
    else
      var n := |s| - 1;
      if s[n] in x then Minus(s[..n], x) else Minus(s[..n], x) + [s[n]]
  }

  lemma {:induction false} MinusKeeps<T>(s: seq<T>, x: set<T>)
    requires Distinct(s)
    ensures Distinct(Minus(s, x)) && forall y :: y in Minus(s, x) <==> y in s && y !in x
    ensures x == {} ==> Minus(s, x) == s
  {
    if s != [] {
      var n := |s| - 1;
      MinusKeeps(s[..n], x);
      assert s == s[..n] + [s[n]];
    }
  }

  lemma {:induction false} MinusIsShorter<T>(s: seq<T>, x: set<T>)
    ensures |Minus(s, x)| <= |s|
  {
    if s != [] {
      MinusIsShorter(s[..|s| - 1], x);
    }
  }

  lemma FrontKeeps<T>(s: seq<T>, i: nat)
    requires Distinct(s) && i < |s|
    ensures Distinct(Front(s, i)) && forall y :: y in Front(s, i) <==> y in s
  {
    var r := Front(s, i);
    forall y | y in s ensures y in r {
      var j := Find(s, y);
      assert r[if j == i then 0 else if j < i then j + 1 else j] == y;
    }
  }

  lemma UpKeeps<T>(s: seq<T>, i: nat)
    requires Distinct(s) && i < |s|
    ensures Distinct(Up(s, i)) && forall y :: y in Up(s, i) <==> y in s
  {
    var r := Up(s, i);
    forall y | y in s ensures y in r {
      var j := Find(s, y);
      assert r[if i > 0 && j == i then i - 1 else if i > 0 && j == i - 1 then i else j] == y;
    }
  }

  /** Both rearrangements put one element elsewhere and keep the order of the others. */
  lemma OthersInOrder<T>(s: seq<T>, i: nat)
    requires Distinct(s) && i < |s|
    ensures Without(Front(s, i), s[i]) == Without(s, s[i]) && Without(Up(s, i), s[i]) == Without(s, s[i])
  {
    hide Find;
    var u := if i > 0 then i - 1 else 0;
    FrontKeeps(s, i);
    UpKeeps(s, i);
    FindsItself(s, i);
    FindsItself(Front(s, i), 0);
    FindsItself(Up(s, i), u);
    assert RemoveAt(Front(s, i), 0) == RemoveAt(s, i);
    assert RemoveAt(Up(s, i), u) == RemoveAt(s, i);
  }

  lemma FrontPermutes<T>(s: seq<T>, i: nat)
    requires i < |s|
    ensures multiset(Front(s, i)) == multiset(s)
  {
    assert s == s[..i] + [s[i]] + s[i + 1..];
  }

  lemma UpPermutes<T>(s: seq<T>, i: nat)
    requires i < |s|
    ensures multiset(Up(s, i)) == multiset(s)
  {
    if i > 0 {
      var a, z := s[..i - 1], s[i + 1..];
      assert s == a + [s[i - 1]] + [s[i]] + z;
      assert Up(s, i) == a + [s[i]] + [s[i - 1]] + z;
    }
  }

  /** A sequence without repetitions has as many elements as the set of them. */
  lemma {:induction false} DistinctSize<T>(s: seq<T>)
    requires Distinct(s)
    ensures |s| == |set x | x in s|
  {
    if s != [] {
      var n := |s| - 1;
      DistinctSize(s[..n]);
      assert s == s[..n] + [s[n]];
      assert (set x | x in s) == (set x | x in s[..n]) + {s[n]};
    }
  }

  /** The total length of a sequence of sequences. */
  function SumLen<T>(ss: seq<seq<T>>): nat {
    if ss == [] then 0 else |ss[0]| + SumLen(ss[1..])
  }

  lemma {:induction false} SumLenUpdate<T>(ss: seq<seq<T>>, b: nat, s: seq<T>)
    requires b < |ss|
    ensures SumLen(ss[b := s]) == SumLen(ss) - |ss[b]| + |s|
  {
    if b == 0 {
      assert ss[0 := s][1..] == ss[1..];
    } else {
      assert ss[b := s][1..] == ss[1..][b - 1 := s];
      SumLenUpdate(ss[1..], b - 1, s);
    }
  }

  lemma {:induction false} SumLenOfEmpty<T>(ss: seq<seq<T>>)
    requires forall b :: 0 <= b < |ss| ==> ss[b] == []
    ensures SumLen(ss) == 0
  {
    if ss != [] {
      SumLenOfEmpty(ss[1..]);
    }
  }
}
