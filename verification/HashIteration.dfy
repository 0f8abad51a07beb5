/** Iteration over the linked table from the oldest entry to the newest, with removals and look-ups between its steps. */
module HashIteration {
  import opened Options
  import opened Sequences
  import opened HashModel
  import opened EntryLists
  import opened TableFacts
  import opened HashTable
  import opened HashRuns
  import opened TableRuns

  // ----- what is still to come -----

  /** An operation that leaves the saved next entry, the first of what is still to come, in the table. */
  predicate Gentle(op: Op, rest: seq<Key>) {
    Searching(op) || (op.RemoveOp? && (rest == [] || op.k != rest[0]))
  }

  /** What is still to come after some operations. */
  function Left(rest: seq<Key>, ops: seq<Op>): seq<Key>
    decreases |ops|
  {
    if ops == [] then rest else Left(if ops[0].RemoveOp? then Without(rest, ops[0].k) else rest, ops[1..])
  }

  /** plan[j] is done after the visit number j; rest is what there is to visit. */
  ghost predicate GentlePlan(rest: seq<Key>, plan: seq<seq<Op>>)
    decreases |plan|
  {
    rest == [] || plan == []
    || ((forall op :: op in plan[0] ==> Gentle(op, rest[1..])) && GentlePlan(Left(rest[1..], plan[0]), plan[1..]))
  }

  /** The keys an iteration visits, in order. */
  function Visits(rest: seq<Key>, plan: seq<seq<Op>>): seq<Key>
    decreases |plan|
  {
    if rest == [] || plan == [] then rest else [rest[0]] + Visits(Left(rest[1..], plan[0]), plan[1..])
  }

  /** The operations done in its course. */
  function Performed(rest: seq<Key>, plan: seq<seq<Op>>): seq<Op>
    decreases |plan|
  {
    if rest == [] || plan == [] then [] else plan[0] + Performed(Left(rest[1..], plan[0]), plan[1..])
  }

  // ----- the iteration -----

  /** One operation between two steps of an iteration whose saved entry is at position i; j is where it is afterwards. */
  method Interpose(table: HashTable.Table, it: Iterator, op: Op, ghost t: HashModel.Table, ghost i: nat)
    returns (reply: Reply, ghost j: nat)
    requires WellFormed(t) && Masked(t) && table.Represents(t) && i <= |t.age| && it.next == table.NextAt(t.age, i)
    requires Gentle(op, t.age[i..])
    modifies table, table.heads, table.counts, table.entries
    ensures table.heads == old(table.heads) && table.counts == old(table.counts) && table.entries == old(table.entries)
    ensures table.Represents(Apply(t, op).0) && reply == Apply(t, op).1
    ensures var u := Apply(t, op).0;
            && j <= |u.age| && it.next == table.NextAt(u.age, j)
            && u.age[j..] == if op.RemoveOp? then Without(t.age[i..], op.k) else t.age[i..]
  {
    hide *;
    ghost var was := table.node;
    HoldsKeys(table, t, i);
    GentleAges(t, op, i);
    reply := Perform(table, op, t);
    j := MovesTo(table, it, op, was, t.age, i);
  }

  lemma HoldsKeys(table: HashTable.Table, t: HashModel.Table, i: nat)
    requires table.Represents(t)
    ensures Named(table.node) && Known(table.node, t.age) && table.NextAt(t.age, i) == At(Refs(table.node, t.age), i)
  {
  }

  lemma GentleAges(t: HashModel.Table, op: Op, i: nat)
    requires WellFormed(t) && i <= |t.age| && Gentle(op, t.age[i..])
    ensures Apply(t, op).0.age == if op.RemoveOp? then Without(t.age, op.k) else t.age
    ensures Sized(t, op) && Distinct(t.age) && (Searching(op) || op.RemoveOp?)
  {
    hide Touched;
  }

  /** Where the iteration is after an operation that took at most the key of the operation out of the table. */
  lemma MovesTo(table: HashTable.Table, it: Iterator, op: Op, was: Nodes, age: seq<Key>, i: nat) returns (j: nat)
    requires Named(was) && Known(was, age) && Distinct(age) && i <= |age| && Gentle(op, age[i..])
    requires it.next == At(Refs(was, age), i) && table.node == was - if op.RemoveOp? then {op.k} else {}
    ensures var now := if op.RemoveOp? then Without(age, op.k) else age;
            && j <= |now| && Known(table.node, now) && it.next == table.NextAt(now, j)
            && now[j..] == if op.RemoveOp? then Without(age[i..], op.k) else age[i..]
  {
    j := i;
    if op.RemoveOp? && op.k in age {
      AfterRemoval(age, i, op.k);
      table.RemovalKeepsPlace(was, age, i, op.k);
      j := if Find(age, op.k) < i then i - 1 else i;
    } else {
      StillThere(table, it, op, was, age, i);
    }
  }

  lemma StillThere(table: HashTable.Table, it: Iterator, op: Op, was: Nodes, age: seq<Key>, i: nat)
    requires Known(was, age) && i <= |age| && (op.RemoveOp? ==> op.k !in age)
    requires it.next == At(Refs(was, age), i) && table.node == was - if op.RemoveOp? then {op.k} else {}
    ensures Known(table.node, age) && it.next == table.NextAt(age, i)
  {
  }

  /** Taking out a key other than the next one takes it out of what is still to come. */
  lemma AfterRemoval(age: seq<Key>, i: nat, k: Key)
    requires Distinct(age) && k in age && i <= |age| && (i < |age| ==> age[i] != k)
    ensures var j := if Find(age, k) < i then i - 1 else i;
            j <= |Without(age, k)| && Without(age, k)[j..] == Without(age[i..], k)
  {
    hide Find, Distinct, RemoveAt;
    FindInRest(age, i, k);
    RestOfRemoved(age, i, Find(age, k));
  }

  lemma FindInRest(age: seq<Key>, i: nat, k: Key)
    requires Distinct(age) && k in age && i <= |age|
    ensures if Find(age, k) < i then k !in age[i..] else k in age[i..] && Find(age[i..], k) == Find(age, k) - i
  {
    hide Find;
    var f := Find(age, k);
    if f >= i {
      assert age[i..][f - i] == k;
      FindsItself(age[i..], f - i);
    }
  }

  /** The next key stays the next one. */
  lemma GentleStays(rest: seq<Key>, done: Op, op: Op)
    requires Gentle(done, rest) && done.RemoveOp? && Gentle(op, rest)
    ensures Gentle(op, Without(rest, done.k))
  {
  }

  /** The operations between two steps. */
  method Between(table: HashTable.Table, it: Iterator, ops: seq<Op>, ghost t: HashModel.Table, ghost i: nat)
    returns (replies: seq<Reply>, ghost j: nat)
    requires WellFormed(t) && Masked(t) && table.Represents(t) && i <= |t.age| && it.next == table.NextAt(t.age, i)
    requires forall op :: op in ops ==> Gentle(op, t.age[i..])
    modifies table, table.heads, table.counts, table.entries
    ensures table.heads == old(table.heads) && table.counts == old(table.counts) && table.entries == old(table.entries)
    ensures table.Represents(Run(t, ops).0) && replies == Run(t, ops).1
    ensures var u := Run(t, ops).0;
            j <= |u.age| && it.next == table.NextAt(u.age, j) && u.age[j..] == Left(t.age[i..], ops)
    decreases |ops|
  {
    hide WellFormed, Masked, Apply, HashTable.Table.Represents, HashTable.Table.NextAt, Without, Gentle;
    if ops == [] {
      replies, j := [], i;
    } else {
      ghost var rest, u := t.age[i..], Apply(t, ops[0]).0;
      ApplyKeeps(t, ops[0]);
      if ops[0].RemoveOp? {
        forall op | op in ops ensures Gentle(op, Without(rest, ops[0].k)) {
          GentleStays(rest, ops[0], op);
        }
      }
      var reply;
      reply, j := Interpose(table, it, ops[0], t, i);
      replies, j := Between(table, it, ops[1..], u, j);
      replies := [reply] + replies;
    }
  }

  lemma {:induction false} RunAppend(t: HashModel.Table, a: seq<Op>, b: seq<Op>)
    requires WellFormed(t) && Masked(t)
    ensures Run(t, a + b).0 == Run(Run(t, a).0, b).0 && Run(t, a + b).1 == Run(t, a).1 + Run(Run(t, a).0, b).1
    decreases |a|
  {
    hide WellFormed, Masked, Apply;
    if a == [] {
      assert a + b == b;
    } else {
      ApplyKeeps(t, a[0]);
      assert (a + b)[1..] == a[1..] + b;
      RunAppend(Apply(t, a[0]).0, a[1..], b);
    }
  }

  function Now(plan: seq<seq<Op>>): seq<Op> {
    if plan == [] then [] else plan[0]
  }

  function Later(plan: seq<seq<Op>>): seq<seq<Op>> {
    if plan == [] then [] else plan[1..]
  }

  lemma PlanStep(rest: seq<Key>, plan: seq<seq<Op>>, visited: seq<Key>, done: seq<Op>)
    requires rest != [] && GentlePlan(rest, plan)
    ensures (forall op :: op in Now(plan) ==> Gentle(op, rest[1..])) && GentlePlan(Left(rest[1..], Now(plan)), Later(plan))
    ensures visited + Visits(rest, plan) == (visited + [rest[0]]) + Visits(Left(rest[1..], Now(plan)), Later(plan))
    ensures done + Performed(rest, plan) == (done + Now(plan)) + Performed(Left(rest[1..], Now(plan)), Later(plan))
    ensures |Left(rest[1..], Now(plan))| < |rest|
  {
    hide Gentle, Left, Visits, Performed;
    var left := Left(rest[1..], Now(plan));
    LeftShrinks(rest[1..], Now(plan));
    PlanUnfolds(rest, plan);
    assert visited + ([rest[0]] + Visits(left, Later(plan))) == (visited + [rest[0]]) + Visits(left, Later(plan));
    assert done + (Now(plan) + Performed(left, Later(plan))) == (done + Now(plan)) + Performed(left, Later(plan));
  }

  lemma PlanUnfolds(rest: seq<Key>, plan: seq<seq<Op>>)
    requires rest != []
    ensures plan == [] ==> Left(rest[1..], Now(plan)) == rest[1..]
    ensures Visits(rest, plan) == [rest[0]] + Visits(Left(rest[1..], Now(plan)), Later(plan))
    ensures Performed(rest, plan) == Now(plan) + Performed(Left(rest[1..], Now(plan)), Later(plan))
  {
    if plan == [] {
      assert rest == [rest[0]] + rest[1..];
    }
  }

  lemma {:induction false} LeftShrinks(rest: seq<Key>, ops: seq<Op>)
    ensures |Left(rest, ops)| <= |rest|
    decreases |ops|
  {
    if ops != [] {
      LeftShrinks(if ops[0].RemoveOp? then Without(rest, ops[0].k) else rest, ops[1..]);
    }
  }

  /** A whole iteration: after each visit the operations planned for it are done, among them removals of the entry just
      visited, of earlier ones, and of any later one but the next. It visits what the plan leaves to visit, each key once and
      oldest first, and the table ends as those operations alone leave it. */
  method Iterate(table: HashTable.Table, plan: seq<seq<Op>>, ghost t: HashModel.Table)
    returns (visited: seq<Key>, replies: seq<Reply>)
    requires WellFormed(t) && Masked(t) && table.Represents(t) && GentlePlan(t.age, plan)
    modifies table, table.heads, table.counts, table.entries
    ensures visited == Visits(t.age, plan)
    ensures table.Represents(Run(t, Performed(t.age, plan)).0) && replies == Run(t, Performed(t.age, plan)).1
  {
    hide WellFormed, Masked, Run, Visits, Performed, GentlePlan, Left, HashTable.Table.Represents;
    visited, replies := [], [];
    ghost var u, i: nat, done := t, 0, [];
    var later := plan;
    var it := table.First(t);
    AtFirst(t, plan);
    while it.entry != null
      invariant WellFormed(u) && Masked(u) && table.Represents(u) && i <= |u.age| && table.IterAt(it, u.age, i)
      invariant u == Run(t, done).0 && replies == Run(t, done).1 && GentlePlan(u.age[i..], later)
      invariant visited + Visits(u.age[i..], later) == Visits(t.age, plan)
      invariant done + Performed(u.age[i..], later) == Performed(t.age, plan)
      invariant table.heads == old(table.heads) && table.counts == old(table.counts) && table.entries == old(table.entries)
      decreases |u.age| - i
    {
      PlanStep(u.age[i..], later, visited, done);
      VisitsNext(table, it, u, i);
      visited := visited + [it.entry.key];
      var rs;
      RunAppend(t, done, Now(later));
      ghost var j;
      rs, j := Between(table, it, Now(later), u, i + 1);
      replies, done, later := replies + rs, done + Now(later), Later(later);
      u, i := Run(t, done).0, j;
      it := table.Next(it, u, i);
    }
    AtLast(table, it, u, i, later);
    assert done + [] == done && visited + [] == visited;
  }

  lemma AtFirst(t: HashModel.Table, plan: seq<seq<Op>>)
    requires WellFormed(t) && Masked(t)
    ensures t.age[0..] == t.age && Run(t, []) == (t, [])
  {
  }

  lemma VisitsNext(table: HashTable.Table, it: Iterator, t: HashModel.Table, i: nat)
    requires table.Represents(t) && table.IterAt(it, t.age, i) && it.entry != null && i <= |t.age|
    ensures i < |t.age| && it.entry.key == t.age[i] && t.age[i..] != [] && t.age[i..][0] == t.age[i]
    ensures t.age[i..][1..] == t.age[i + 1..] && it.next == table.NextAt(t.age, i + 1)
  {
  }

  lemma AtLast(table: HashTable.Table, it: Iterator, t: HashModel.Table, i: nat, plan: seq<seq<Op>>)
    requires table.IterAt(it, t.age, i) && it.entry == null && i <= |t.age|
    ensures Visits(t.age[i..], plan) == [] && Performed(t.age[i..], plan) == []
  {
  }

  // ----- what an iteration visits -----

  /** a has only elements of b, in the order of b and none twice. */
  ghost predicate InOrder(a: seq<Key>, b: seq<Key>) {
    && (forall x :: x in a ==> x in b)
    && forall i, j :: 0 <= i < j < |a| ==> Find(b, a[i]) < Find(b, a[j])
  }

  lemma InOrderOnward(a: seq<Key>, b: seq<Key>, c: seq<Key>)
    requires InOrder(a, b) && InOrder(b, c)
    ensures InOrder(a, c)
  {
    forall i, j | 0 <= i < j < |a| ensures Find(c, a[i]) < Find(c, a[j]) {
      assert b[Find(b, a[i])] == a[i] && b[Find(b, a[j])] == a[j];
    }
  }

  lemma InOrderBehind(x: Key, a: seq<Key>, b: seq<Key>)
    requires InOrder(a, b) && x !in b
    ensures InOrder([x] + a, [x] + b)
  {
    assert ([x] + b)[1..] == b;
    assert forall y :: y in b ==> Find([x] + b, y) == 1 + Find(b, y);
  }

  lemma WithoutInOrder(s: seq<Key>, k: Key)
    requires Distinct(s)
    ensures Distinct(Without(s, k)) && InOrder(Without(s, k), s)
  {
    WithoutKeeps(s, k);
    forall i, j | 0 <= i < j < |Without(s, k)| ensures Find(s, Without(s, k)[i]) < Find(s, Without(s, k)[j]) {
      var f := if k in s then Find(s, k) else |s|;
      FindsItself(s, if i < f then i else i + 1);
      FindsItself(s, if j < f then j else j + 1);
    }
  }

  lemma SelfInOrder(s: seq<Key>)
    requires Distinct(s)
    ensures InOrder(s, s)
  {
    forall i | 0 <= i < |s| ensures Find(s, s[i]) == i {
      FindsItself(s, i);
    }
  }

  lemma {:induction false} LeftInOrder(rest: seq<Key>, ops: seq<Op>)
    requires Distinct(rest)
    ensures Distinct(Left(rest, ops)) && InOrder(Left(rest, ops), rest)
    ensures forall k :: k in rest && RemoveOp(k) !in ops ==> k in Left(rest, ops)
    decreases |ops|
  {
    hide Distinct, InOrder;
    if ops == [] {
      SelfInOrder(rest);
    } else if ops[0].RemoveOp? {
      var r := Without(rest, ops[0].k);
      WithoutInOrder(rest, ops[0].k);
      WithoutKeeps(rest, ops[0].k);
      LeftInOrder(r, ops[1..]);
      InOrderOnward(Left(r, ops[1..]), r, rest);
    } else {
      LeftInOrder(rest, ops[1..]);
    }
  }

  /** Each key is visited once at most and oldest first, and every key that the plan does not remove is visited. */
  lemma {:induction false} VisitsInOrder(rest: seq<Key>, plan: seq<seq<Op>>)
    requires Distinct(rest)
    ensures InOrder(Visits(rest, plan), rest)
    ensures forall k :: k in rest && RemoveOp(k) !in Performed(rest, plan) ==> k in Visits(rest, plan)
    decreases |plan|
  {
    hide InOrder, Left;
    if rest == [] || plan == [] {
      SelfInOrder(rest);
    } else {
      var later := Left(rest[1..], plan[0]);
      LeftInOrder(rest[1..], plan[0]);
      VisitsInOrder(later, plan[1..]);
      InOrderOnward(Visits(later, plan[1..]), later, rest[1..]);
      InOrderBehind(rest[0], Visits(later, plan[1..]), rest[1..]);
      assert rest == [rest[0]] + rest[1..];
    }
  }

  /** The plan removes only keys that have been visited, the current one included, and keys that are not there. */
  ghost predicate OnlyPassed(rest: seq<Key>, plan: seq<seq<Op>>)
    decreases |plan|
  {
    rest == [] || plan == []
    || ((forall op :: op in plan[0] ==> Searching(op) || (op.RemoveOp? && op.k !in rest[1..])) && OnlyPassed(rest[1..], plan[1..]))
  }

  lemma {:induction false} NothingLeaves(rest: seq<Key>, ops: seq<Op>)
    requires forall op :: op in ops ==> Searching(op) || (op.RemoveOp? && op.k !in rest)
    ensures Left(rest, ops) == rest
    decreases |ops|
  {
    if ops != [] {
      NothingLeaves(rest, ops[1..]);
    }
  }

  /** Such a plan may always be carried out, and the iteration then visits every key there was at its start. */
  lemma {:induction false} VisitsAllOnce(rest: seq<Key>, plan: seq<seq<Op>>)
    requires OnlyPassed(rest, plan)
    ensures GentlePlan(rest, plan) && Visits(rest, plan) == rest
    decreases |plan|
  {
    hide Left;
    if rest != [] && plan != [] {
      NothingLeaves(rest[1..], plan[0]);
      VisitsAllOnce(rest[1..], plan[1..]);
    }
  }

  /** An iteration that removes only what it has visited, the entry it is at included, visits every entry there was. */
  method IterateRemoving(table: HashTable.Table, plan: seq<seq<Op>>, ghost t: HashModel.Table)
    returns (visited: seq<Key>, replies: seq<Reply>)
    requires WellFormed(t) && Masked(t) && table.Represents(t) && OnlyPassed(t.age, plan)
    modifies table, table.heads, table.counts, table.entries
    ensures visited == t.age
    ensures table.Represents(Run(t, Performed(t.age, plan)).0) && replies == Run(t, Performed(t.age, plan)).1
  {
    hide *;
    VisitsAllOnce(t.age, plan);
    visited, replies := Iterate(table, plan, t);
  }
}
