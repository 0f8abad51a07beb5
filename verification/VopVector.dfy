/** A file system's vector of vnode operations, and the two loops that patch and restore its slots. */
module VopVector {

  /** The operations named by the descriptor arrays. */
  datatype Op =
    | Lookup | Create | Open | Close | Access | Inactive | Reclaim | Read | Write | Pagein | Pageout
    | Strategy | Mmap | Rename | Pathconf | Exchange | Getattr

  /** What a slot can hold: the redirector's hook, or a function of the file system. */
  datatype Func = Hook(op: Op) | Native(address: nat)

  /** What an entry keeps for an operation: nothing yet, the mark of a slot skipped on purpose, or a function. */
  datatype Saved = Unset | NotHooked | Original(f: Func)

  /** The hooked operations, in the order in which the loops go through them. */
  const HOOKS: seq<Op> :=
    [Reclaim, Read, Open, Write, Pagein, Pageout, Lookup, Create, Close, Inactive, Rename, Exchange, Getattr]

  const ENUMS: seq<Op> :=
    [Lookup, Create, Open, Close, Access, Inactive, Reclaim, Read, Write, Pagein, Pageout, Strategy, Mmap,
     Rename, Pathconf, Exchange, Getattr]

  const OFFSETS: seq<Op> :=
    [Lookup, Create, Open, Close, Inactive, Reclaim, Read, Write, Pagein, Pageout, Mmap, Rename, Exchange, Getattr]

  /** The loops never skip an operation for want of a descriptor, and no operation is hooked twice. */
  lemma HooksAreDescribed()
    ensures forall i :: 0 <= i < |HOOKS| ==> HOOKS[i] in ENUMS && HOOKS[i] in OFFSETS && HOOKS[i] != Strategy
    ensures forall i, j :: 0 <= i < j < |HOOKS| ==> HOOKS[i] != HOOKS[j]
  {
    forall i | 0 <= i < |HOOKS| ensures HOOKS[i] in ENUMS && HOOKS[i] in OFFSETS && HOOKS[i] != Strategy {
      HookAt(i);
    }
  }

  lemma HookAt(i: nat)
    requires i < |HOOKS|
    ensures HOOKS[i] in ENUMS && HOOKS[i] in OFFSETS && HOOKS[i] != Strategy
  {
    assert ENUMS[0] == Lookup && ENUMS[1] == Create && ENUMS[2] == Open && ENUMS[3] == Close && ENUMS[5] == Inactive;
    assert ENUMS[6] == Reclaim && ENUMS[7] == Read && ENUMS[8] == Write && ENUMS[9] == Pagein && ENUMS[10] == Pageout;
    assert ENUMS[13] == Rename && ENUMS[15] == Exchange && ENUMS[16] == Getattr;
    assert OFFSETS[0] == Lookup && OFFSETS[1] == Create && OFFSETS[2] == Open && OFFSETS[3] == Close;
    assert OFFSETS[4] == Inactive && OFFSETS[5] == Reclaim && OFFSETS[6] == Read && OFFSETS[7] == Write;
    assert OFFSETS[8] == Pagein && OFFSETS[9] == Pageout && OFFSETS[11] == Rename && OFFSETS[12] == Exchange;
    assert OFFSETS[13] == Getattr;
  }

  /** The search of a descriptor array, up to its terminating entry. */
  method FindDescriptor(descriptors: seq<Op>, op: Op) returns (found: bool, at: nat)
    ensures found <==> op in descriptors
    ensures found ==> at < |descriptors| && descriptors[at] == op && op !in descriptors[..at]
  {
    at := 0;
    while at < |descriptors|
      invariant at <= |descriptors| && op !in descriptors[..at]
    {
      if descriptors[at] == op {
        return true, at;
      }
      at := at + 1;
    }
    found := false;
  }

  /** Every hooked operation has a slot of its own. */
  ghost predicate Laid(offset: Op -> nat, length: nat) {
    && (forall i :: 0 <= i < |HOOKS| ==> offset(HOOKS[i]) < length)
    && (forall i, j :: 0 <= i < j < |HOOKS| ==> offset(HOOKS[i]) != offset(HOOKS[j]))
  }

  predicate Untouched(offset: Op -> nat, k: nat, n: nat)
    requires n <= |HOOKS|
  {
    forall i :: 0 <= i < n ==> offset(HOOKS[i]) != k
  }

  function Index(op: Op): (i: nat)
    ensures i < 17
  {
    match op
    case Lookup => 0 case Create => 1 case Open => 2 case Close => 3 case Access => 4 case Inactive => 5
    case Reclaim => 6 case Read => 7 case Write => 8 case Pagein => 9 case Pageout => 10 case Strategy => 11
    case Mmap => 12 case Rename => 13 case Pathconf => 14 case Exchange => 15 case Getattr => 16
  }

  lemma IndexIsInjective(a: Op, b: Op)
    requires Index(a) == Index(b)
    ensures a == b
  {
  }

  /** The entry of a hooked vector: the functions it had. */
  class VopEntry {
    const origVop: array<Saved>

    constructor ()
      ensures fresh(origVop) && origVop.Length == 17
      ensures forall k :: 0 <= k < 17 ==> origVop[k] == Unset
    {
      origVop := new Saved[17](_ => Unset);
    }

    method SetOriginalVop(op: Op, orig: Func)
      requires origVop.Length == 17 && origVop[Index(op)] == Unset
      modifies origVop
      ensures origVop[Index(op)] == Original(orig)
      ensures forall k :: 0 <= k < 17 && k != Index(op) ==> origVop[k] == old(origVop[k])
    {
      origVop[Index(op)] := Original(orig);
    }
  }

  /** The entry keeps, for the first n hooked operations, the functions that v had in their slots. */
  ghost predicate Keeps(entry: VopEntry, v: seq<Func>, offset: Op -> nat, n: nat)
    requires n <= |HOOKS| && Laid(offset, |v|)
    reads entry, entry.origVop
  {
    entry.origVop.Length == 17
    && forall i :: 0 <= i < n ==> entry.origVop[Index(HOOKS[i])] == Original(v[offset(HOOKS[i])])
  }

  /** No strategy operation is hooked, so the loop's skip of a device's strategy slot is never taken. */
  method HookVector(vop: array<Func>, entry: VopEntry, offset: Op -> nat)
    requires Laid(offset, vop.Length)
    requires entry.origVop.Length == 17 && forall k :: 0 <= k < 17 ==> entry.origVop[k] == Unset
    modifies vop, entry.origVop
    ensures Keeps(entry, old(vop[..]), offset, |HOOKS|)
    ensures forall i :: 0 <= i < |HOOKS| ==> vop[offset(HOOKS[i])] == Hook(HOOKS[i])
    ensures forall k :: 0 <= k < vop.Length && Untouched(offset, k, |HOOKS|) ==> vop[k] == old(vop[k])
  {
    var i := 0;
    while i < |HOOKS|
      invariant 0 <= i <= |HOOKS|
      invariant Keeps(entry, old(vop[..]), offset, i)
      invariant forall j :: i <= j < |HOOKS| ==> entry.origVop[Index(HOOKS[j])] == Unset
      invariant forall j :: 0 <= j < i ==> vop[offset(HOOKS[j])] == Hook(HOOKS[j])
      invariant forall k :: 0 <= k < vop.Length && Untouched(offset, k, i) ==> vop[k] == old(vop[k])
    {
      var op := HOOKS[i];
      HookAt(i);
      var described, _ := FindDescriptor(OFFSETS, op);
      var enumerated, _ := FindDescriptor(ENUMS, op);
      if described && enumerated {
        OneMore(offset, vop.Length, i);
        var original := vop[offset(op)];
        entry.SetOriginalVop(op, original);
        vop[offset(op)] := Hook(op);
      }
      i := i + 1;
    }
  }

  lemma OneMore(offset: Op -> nat, length: nat, n: nat)
    requires n < |HOOKS| && Laid(offset, length)
    ensures Untouched(offset, offset(HOOKS[n]), n)
    ensures forall k: nat :: Untouched(offset, k, n + 1) <==> Untouched(offset, k, n) && k != offset(HOOKS[n])
    ensures forall j :: 0 <= j < |HOOKS| && j != n ==> Index(HOOKS[j]) != Index(HOOKS[n])
  {
    HooksAreDescribed();
    forall j | 0 <= j < |HOOKS| && j != n ensures Index(HOOKS[j]) != Index(HOOKS[n]) {
      assert HOOKS[j] != HOOKS[n];
      if Index(HOOKS[j]) == Index(HOOKS[n]) {
        IndexIsInjective(HOOKS[j], HOOKS[n]);
      }
    }
  }

  method UnhookVector(vop: array<Func>, entry: VopEntry, offset: Op -> nat, ghost was: seq<Func>)
    requires vop.Length == |was| && Laid(offset, |was|) && Keeps(entry, was, offset, |HOOKS|)
    modifies vop
    ensures forall i :: 0 <= i < |HOOKS| ==> vop[offset(HOOKS[i])] == was[offset(HOOKS[i])]
    ensures forall k :: 0 <= k < vop.Length && Untouched(offset, k, |HOOKS|) ==> vop[k] == old(vop[k])
  {
    var i := 0;
    while i < |HOOKS|
      invariant 0 <= i <= |HOOKS|
      invariant forall j :: 0 <= j < i ==> vop[offset(HOOKS[j])] == was[offset(HOOKS[j])]
      invariant forall k :: 0 <= k < vop.Length && Untouched(offset, k, i) ==> vop[k] == old(vop[k])
    {
      var op := HOOKS[i];
      HookAt(i);
      var described, _ := FindDescriptor(OFFSETS, op);
      var enumerated, _ := FindDescriptor(ENUMS, op);
      if described && enumerated {
        OneMore(offset, vop.Length, i);
        var original := entry.origVop[Index(op)];
        if original != NotHooked {
          vop[offset(op)] := original.f;
        }
      }
      i := i + 1;
    }
  }

  /** Unhooking gives every slot back, the ones that are not hooked included. */
  method HookThenUnhook(vop: array<Func>, offset: Op -> nat)
    requires Laid(offset, vop.Length)
    modifies vop
    ensures vop[..] == old(vop[..])
  {
    var entry := new VopEntry();
    HookVector(vop, entry, offset);
    UnhookVector(vop, entry, offset, old(vop[..]));
    forall k | 0 <= k < vop.Length ensures vop[k] == old(vop[k]) {
      if !Untouched(offset, k, |HOOKS|) {
        var i :| 0 <= i < |HOOKS| && offset(HOOKS[i]) == k;
      }
    }
  }
}
