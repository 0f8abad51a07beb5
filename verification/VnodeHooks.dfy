/** The hooks that look up, create, rename and reclaim vnodes: what they give back, what they do to the maps, and what references
    they take and drop. The other threads may do anything between any two steps; what the file system, the allocator and the
    daemon answer is given to a hook. */
module VnodeHooks {
  import opened Options
  import opened VnodeMaps
  import opened VnodeOutcomes

  /** The references that come with a result. */
  function With(v: Option<Vnode>): multiset<Vnode> {
    if v.Some? then multiset{v.value} else multiset{}
  }

  /** A call into the file system that may give a vnode: a new reference exactly when a vnode comes back, and none on an
      error. */
  method LookUp(w: Vnodes, a: Found) returns (error: Error, v: Option<Vnode>)
    requires w.Conserved()
    modifies w
    ensures w.Conserved() && w.mine == old(w.mine) + With(v)
    ensures Found(error, v) == Given(a)
    ensures w.alone ==> w.backing == old(w.backing) && w.shadow == old(w.shadow)
  {
    w.Others();
    error, v := a.error, None;
    if error == Success && a.v.Some? {
      v := a.v;
      w.mine, w.refs := w.mine + multiset{v.value}, w.refs + multiset{v.value};
    }
  }

  /** vnode_lookup, vnode_open and the file system's lookup: a vnode with a new reference exactly when they succeed. */
  method Find(w: Vnodes, a: Found) returns (error: Error, v: Option<Vnode>)
    requires w.Conserved()
    modifies w
    ensures w.Conserved() && w.mine == old(w.mine) + With(v)
    ensures Found(error, v) == Sure(a)
    ensures w.alone ==> w.backing == old(w.backing) && w.shadow == old(w.shadow)
  {
    hide Vnodes.Conserved;
    error, v := LookUp(w, a);
    if error == Success && v == None {
      error := NoEntry;
    }
  }

  /** vnode_close drops one reference. */
  method Close(w: Vnodes, v: Vnode)
    requires w.Conserved() && v in w.mine
    modifies w
    ensures w.Conserved() && w.mine == old(w.mine) - multiset{v}
    ensures w.alone ==> w.backing == old(w.backing) && w.shadow == old(w.shadow)
  {
    w.Others();
    w.Put(v);
  }

  /** vnode_get of a vnode the thread has a reference to. */
  method GetOwn(w: Vnodes, v: Vnode)
    requires w.Conserved() && v in w.mine
    modifies w
    ensures w.Conserved() && w.mine == old(w.mine) + multiset{v}
    ensures w.alone ==> w.backing == old(w.backing) && w.shadow == old(w.shadow)
  {
    w.Others();
    w.Get(v);
  }

  /** vnode_put of what may be NULL. */
  method Drop(w: Vnodes, v: Option<Vnode>)
    requires w.Conserved() && (v.Some? ==> v.value in w.mine)
    modifies w
    ensures w.Conserved() && w.mine == old(w.mine) - With(v)
    ensures w.alone ==> w.backing == old(w.backing) && w.shadow == old(w.shadow)
  {
    w.Others();
    if v.Some? {
      w.Put(v.value);
    }
  }

  method DropFrom(w: Vnodes, v: Option<Vnode>, ghost rest: multiset<Vnode>)
    requires w.Conserved() && w.mine == rest + With(v)
    modifies w
    ensures w.Conserved() && w.mine == rest
    ensures w.alone ==> w.backing == old(w.backing) && w.shadow == old(w.shadow)
  {
    hide Vnodes.Conserved;
    Drop(w, v);
  }

  lemma OwnIsLive(w: Vnodes, v: Vnode)
    requires w.Conserved() && v in w.mine
    ensures v in w.refs
  {
    assert w.refs[v] >= w.mine[v];
  }

  lemma WithMaybe(v: Option<Vnode>)
    ensures forall m: multiset<Vnode> :: (if v.Some? then m + multiset{v.value} else m) == m + With(v)
  {
  }

  method AddShadowReverse(w: Vnodes, s: Vnode, vn: Vnode, memory: bool)
    requires w.Conserved() && vn in w.mine
    modifies w
    ensures w.Conserved() && w.mine == old(w.mine)
    ensures w.alone ==> w.backing == old(w.backing) && w.shadow == Shadowed(old(w.shadow), s, vn, memory)
  {
    hide Vnodes.Conserved;
    w.Others();
    OwnIsLive(w, vn);
    ghost var before := w.mine;
    var was := w.SwapShadow(s, vn, memory);
    WithMaybe(was);
    DropFrom(w, was, before);
  }

  method RemoveShadowReverse(w: Vnodes, s: Vnode)
    requires w.Conserved()
    modifies w
    ensures w.Conserved() && w.mine == old(w.mine)
    ensures w.alone ==> w.backing == old(w.backing) && w.shadow == old(w.shadow) - {s}
  {
    w.Others();
    var vn := w.TakeShadow(s);
    Drop(w, vn);
  }

  method GetShadowReverseRef(w: Vnodes, s: Vnode) returns (vn: Option<Vnode>)
    requires w.Conserved()
    modifies w
    ensures w.Conserved() && w.mine == old(w.mine) + With(vn)
    ensures w.alone ==> w.backing == old(w.backing) && w.shadow == old(w.shadow)
    ensures w.alone ==> vn == if s in w.shadow then Some(w.shadow[s]) else None
  {
    w.Others();
    vn := w.RefShadow(s);
  }

  method AddVnodeIO(w: Vnodes, vn: Vnode, io: Vnode, memory: bool)
    requires w.Conserved() && io in w.mine
    modifies w
    ensures w.Conserved() && w.mine == old(w.mine)
    ensures w.alone ==> w.shadow == old(w.shadow)
    ensures w.alone ==> w.backing == if vn !in old(w.backing) && memory then old(w.backing)[vn := io] else old(w.backing)
  {
    hide Vnodes.Conserved;
    w.Others();
    OwnIsLive(w, io);
    w.AddBacking(vn, io, memory);
  }

  method RemoveVnodeIO(w: Vnodes, vn: Vnode)
    requires w.Conserved()
    modifies w
    ensures w.Conserved() && w.mine == old(w.mine)
    ensures w.alone ==> w.shadow == old(w.shadow) && w.backing == old(w.backing) - {vn}
  {
    w.Others();
    var io := w.TakeBacking(vn);
    Drop(w, io);
  }

  method GetVnodeIORef(w: Vnodes, vn: Vnode) returns (io: Option<Vnode>)
    requires w.Conserved()
    modifies w
    ensures w.Conserved() && w.mine == old(w.mine) + With(io)
    ensures w.alone ==> w.backing == old(w.backing) && w.shadow == old(w.shadow)
    ensures w.alone ==> io == if vn in w.backing then Some(w.backing[vn]) else None
  {
    w.Others();
    io := w.RefBacking(vn);
  }

  /** The vnode in the redirection directory that backs vn, associating the two if need be; the result carries a reference. */
  method GetBackingVnode(w: Vnodes, vn: Vnode, b: Backing, force: bool) returns (backing: Option<Vnode>)
    requires w.Conserved()
    modifies w
    ensures w.Conserved() && w.mine == old(w.mine) + With(backing)
    ensures w.alone ==> w.shadow == old(w.shadow) && (w.backing, backing) == Backed(old(w.backing), vn, b, force)
  {
    hide Vnodes.Conserved;
    backing := None;
    if !b.redirected {
      return;
    }
    if force {
      RemoveVnodeIO(w, vn);
    } else {
      backing := GetVnodeIORef(w, vn);
      if backing.Some? {
        return;
      }
    }
    if !b.path {
      return;
    }
    var error;
    error, backing := Find(w, b.found);
    if error != Success {
      return;
    }
    AddVnodeIO(w, vn, backing.value, b.memory);
    w.Others();
  }

  method AssociateVnode(w: Vnodes, vn: Vnode, b: Backing, force: bool)
    requires w.Conserved()
    modifies w
    ensures w.Conserved() && w.mine == old(w.mine)
    ensures w.alone ==> w.shadow == old(w.shadow) && w.backing == Backed(old(w.backing), vn, b, force).0
  {
    hide Vnodes.Conserved, Backed;
    var io := GetBackingVnode(w, vn, b, force);
    Drop(w, io);
  }

  /** Associates a vnode with a backing one; whether it now has one. */
  method IsBacked(w: Vnodes, vn: Vnode, b: Backing) returns (yes: bool)
    requires w.Conserved()
    modifies w
    ensures w.Conserved() && w.mine == old(w.mine)
    ensures w.alone ==> w.shadow == old(w.shadow) && w.backing == Backed(old(w.backing), vn, b, false).0
    ensures w.alone ==> (yes <==> vn in w.backing)
  {
    hide Vnodes.Conserved, Backed;
    AssociateVnode(w, vn, b, false);
    var backing := GetVnodeIORef(w, vn);
    yes := backing.Some?;
    Drop(w, backing);
  }

  // ----- lookup -----

  /** Finds or creates the shadow of a vnode; the result carries a reference even when a later step fails. */
  method OpenShadow(w: Vnodes, original: Vnode, o: Opening) returns (error: Error, shadow: Option<Vnode>)
    requires w.Conserved() && original in w.mine
    modifies w
    ensures w.Conserved() && w.mine == old(w.mine) + With(shadow)
    ensures Found(error, shadow) == Opened(original, o)
    ensures w.alone ==> w.backing == old(w.backing) && w.shadow == OpenedShadows(old(w.shadow), original, o)
  {
    hide Vnodes.Conserved, Shadowed, With;
    ghost var before := w.mine;
    error, shadow := Find(w, o.existing);
    var same := shadow == Some(original);
    if error != Success {
      NothingWith();
      error, shadow := Find(w, o.created);
      if error == Success {
        same := shadow == Some(original);
        WithSome(shadow.value);
        DropUse(w, shadow.value);
        if !same {
          error := o.sized;
        }
      }
    }
    if error == Success && !same {
      AddShadowReverse(w, shadow.value, original, o.memory);
    }
  }

  /** vnode_open gives a use count as well, which is dropped at once. */
  method DropUse(w: Vnodes, v: Vnode)
    requires w.Conserved() && v in w.mine
    modifies w
    ensures w.Conserved() && w.mine == old(w.mine)
    ensures w.alone ==> w.backing == old(w.backing) && w.shadow == old(w.shadow)
  {
    hide Vnodes.Conserved;
    GetOwn(w, v);
    Close(w, v);
  }

  /** Looks the redirected path up beside the original one, and prefers what it finds there. */
  method LookUpRedirected(w: Vnodes, creating: bool, p: ByPath) returns (error: Error, vpp: Option<Vnode>)
    requires w.Conserved() && p.memory
    modifies w
    ensures w.Conserved() && w.mine == old(w.mine) + With(vpp)
    ensures Found(error, vpp) == PathOutcome(creating, p)
    ensures w.alone ==> w.backing == old(w.backing) && w.shadow == old(w.shadow)
  {
    hide Vnodes.Conserved, With;
    ghost var before := w.mine;
    error, vpp := Find(w, p.plain);
    if error == Success && !p.regular {
      return;
    }
    if error == Success || (error == JustReturn && creating) || error == NoEntry {
      error, vpp := PreferRedirected(w, error, vpp, p.redirected, before);
    }
  }

  /** What is found on the redirected path replaces what was found before. */
  method PreferRedirected(w: Vnodes, plainError: Error, plain: Option<Vnode>, a: Found, ghost before: multiset<Vnode>)
      returns (error: Error, vpp: Option<Vnode>)
    requires w.Conserved() && w.mine == before + With(plain) && (plainError == Success <==> plain.Some?)
    modifies w
    ensures w.Conserved() && w.mine == before + With(vpp)
    ensures Found(error, vpp) ==
              if Given(a).error == Success && a.v.Some? then a
              else if plainError == Success then Found(Success, plain)
              else if Given(a).error == Success || (plainError == JustReturn && a.error == NoEntry) then Found(JustReturn, None)
              else Given(a)
    ensures w.alone ==> w.backing == old(w.backing) && w.shadow == old(w.shadow)
  {
    hide Vnodes.Conserved, With;
    NothingWith();
    error, vpp := plainError, plain;
    var error2, redirected := LookUp(w, a);
    if error2 != Success {
      if error != Success {
        if error == JustReturn && (error2 == NoEntry || error2 == JustReturn) {
          error2 := JustReturn;
        }
        error := error2;
      }
    } else if redirected == None && vpp == None {
      error := JustReturn;
    } else if redirected.Some? {
      DropFrom(w, vpp, before + With(redirected));
      vpp := redirected;
      error := error2;
    }
  }

  method LookUpPlain(w: Vnodes, creating: bool, p: ByPath) returns (error: Error, vpp: Option<Vnode>)
    requires w.Conserved()
    modifies w
    ensures w.Conserved() && w.mine == old(w.mine) + With(vpp)
    ensures Found(error, vpp) == PathOutcome(creating, p)
    ensures w.alone ==> w.backing == old(w.backing) && w.shadow == old(w.shadow)
  {
    hide Vnodes.Conserved;
    if !p.memory {
      return Failed, None;
    }
    error, vpp := LookUpRedirected(w, creating, p);
  }

  /** The lookup by way of the shadow of a vnode. hopeless tells that the call is to fail without trying another way; backed
      whether the shadow turned out to be. */
  method LookUpShadow(w: Vnodes, original: Vnode, c: LookUpAnswers)
      returns (error: Error, vpp: Option<Vnode>, shadow: Option<Vnode>, hopeless: bool, ghost backed: bool)
    requires w.Conserved() && original in w.mine
    modifies w
    ensures w.Conserved() && w.mine == old(w.mine) + With(vpp) + With(shadow)
    ensures hopeless == !c.shadowPath
    ensures Found(error, vpp) == if ShadowOpens(original, c) && backed then Opened(original, c.opening) else Found(Failed, None)
    ensures w.alone ==> if !c.shadowPath then w.backing == old(w.backing) && w.shadow == old(w.shadow)
                        else w.shadow == OpenedShadows(old(w.shadow), original, c.opening)
    ensures w.alone && ShadowOpens(original, c) ==>
              && w.backing == Backed(old(w.backing), Opened(original, c.opening).v.value, c.backing, false).0
              && (backed <==> Opened(original, c.opening).v.value in w.backing)
    ensures w.alone && !ShadowOpens(original, c) ==> w.backing == old(w.backing)
    ensures ShadowOpens(original, c) ==> Opened(original, c.opening).v.Some?
  {
    hide Vnodes.Conserved, Backed, OpenedShadows;
    error, vpp, shadow, hopeless, backed := Failed, None, None, !c.shadowPath, false;
    if hopeless {
      return;
    }
    error, shadow := OpenShadow(w, original, c.opening);
    if error != Success || !c.redirectedPath {
      error := Failed;
      return;
    }
    var yes := IsBacked(w, shadow.value, c.backing);
    backed := yes;
    if yes {
      vpp := shadow;
      GetOwn(w, shadow.value);
    } else {
      error := Failed;
    }
  }

  /** Turns the reference of the file system's lookup into one to keep for the rest of the call. settled tells whether the
      vnode found is to be returned as it is. */
  method FindOriginal(w: Vnodes, c: LookUpAnswers) returns (error: Error, vpp: Option<Vnode>, original: Option<Vnode>, settled: bool)
    requires w.Conserved()
    modifies w
    ensures w.Conserved() && w.mine == old(w.mine) + With(vpp) + With(original)
    ensures settled == (Sure(c.original).error != Success || c.redirectedBefore || !c.regular || !c.controlled)
    ensures if settled then original == None && Found(error, vpp) == Sure(c.original)
            else vpp == None && original.Some? && original == c.original.v
    ensures w.alone ==> w.backing == old(w.backing) && w.shadow == old(w.shadow)
  {
    hide Vnodes.Conserved;
    original, settled := None, false;
    error, vpp := Find(w, c.original);
    if error != Success || c.redirectedBefore || !c.regular || !c.controlled {
      settled := true;
      return;
    }
    original := vpp;
    GetOwn(w, original.value);
    Drop(w, vpp);
    vpp := None;
  }

  /** A lookup gives what its answers call for, with exactly one new reference to a vnode it gives. */
  method LookUpHook(w: Vnodes, hooked: bool, redirectIO: bool, creating: bool, c: LookUpAnswers)
      returns (error: Error, vpp: Option<Vnode>, ghost backed: bool)
    requires w.Conserved()
    modifies w
    ensures w.Conserved() && w.mine == old(w.mine) + With(vpp)
    ensures Found(error, vpp) == LookUpOutcome(hooked, redirectIO, creating, c, backed)
    ensures w.alone ==> (w.backing, w.shadow) == LookUpMaps(hooked, redirectIO, c, old(w.backing), old(w.shadow))
    ensures w.alone && Shadows(hooked, redirectIO, c) && ShadowOpens(c.original.v.value, c) ==>
              Opened(c.original.v.value, c.opening).v.Some?
              && (backed <==> Opened(c.original.v.value, c.opening).v.value in w.backing)
  {
    backed := false;
    if !hooked || c.protected {
      error, vpp := Find(w, c.original); // not a controlled application, or already on the protected storage
    } else if !redirectIO {
      error, vpp := LookUpPlain(w, creating, c.path);
    } else {
      error, vpp, backed := LookUpControlled(w, creating, c);
    }
  }

  method LookUpControlled(w: Vnodes, creating: bool, c: LookUpAnswers) returns (error: Error, vpp: Option<Vnode>, ghost backed: bool)
    requires w.Conserved() && !c.protected
    modifies w
    ensures w.Conserved() && w.mine == old(w.mine) + With(vpp)
    ensures Found(error, vpp) == LookUpOutcome(true, true, creating, c, backed)
    ensures w.alone ==> (w.backing, w.shadow) == LookUpMaps(true, true, c, old(w.backing), old(w.shadow))
    ensures w.alone && Shadows(true, true, c) && ShadowOpens(c.original.v.value, c) ==>
              Opened(c.original.v.value, c.opening).v.Some?
              && (backed <==> Opened(c.original.v.value, c.opening).v.value in w.backing)
  {
    hide Vnodes.Conserved, With, Backed, OpenedShadows, Opened, PathOutcome;
    ghost var before := w.mine;
    backed := false;
    var original, settled;
    error, vpp, original, settled := FindOriginal(w, c);
    NothingWith();
    if settled {
      return;
    }
    WithSome(original.value);
    var shadow, hopeless;
    error, vpp, shadow, hopeless, backed := LookUpShadow(w, original.value, c);
    if vpp == None && !hopeless {
      error, vpp := LookUpPlain(w, creating, c.path);
    }
    DropFrom(w, shadow, before + With(vpp) + With(original));
    DropFrom(w, original, before + With(vpp));
  }

  lemma NothingWith()
    ensures With(None) == multiset{}
  {
  }

  lemma WithSome(v: Vnode)
    ensures With(Some(v)) == multiset{v}
  {
  }

  // ----- create -----

  method CreateShadow(w: Vnodes, original: Vnode, c: CreateAnswers) returns (error: Error, vpp: Option<Vnode>, ghost backed: bool)
    requires w.Conserved() && original in w.mine
    modifies w
    ensures w.Conserved() && w.mine == old(w.mine) + With(vpp)
    ensures Found(error, vpp) == if Sure(c.shadow).error == Success && !backed then Found(Failed, None) else Sure(c.shadow)
    ensures w.alone ==>
              if Sure(c.shadow).error != Success then w.backing == old(w.backing) && w.shadow == old(w.shadow)
              else
                var s := c.shadow.v.value;
                && w.backing == Backed(old(w.backing), s, c.backing, false).0 && (backed <==> s in w.backing)
                && w.shadow == if backed then Shadowed(old(w.shadow), s, original, c.memory) else old(w.shadow)
  {
    hide Vnodes.Conserved, Backed, Shadowed;
    vpp, backed := None, false;
    var shadow;
    error, shadow := Find(w, c.shadow);
    if error == Success {
      var yes := IsBacked(w, shadow.value, c.backing);
      backed := yes;
      if yes {
        vpp := shadow;
        GetOwn(w, shadow.value);
        AddShadowReverse(w, shadow.value, original, c.memory);
      } else {
        error := Failed;
      }
      Close(w, shadow.value);
    }
  }

  /** A creation gives what its answers call for, with exactly one new reference to a vnode it gives. */
  method CreateHook(w: Vnodes, hooked: bool, c: CreateAnswers) returns (error: Error, vpp: Option<Vnode>, ghost backed: bool)
    requires w.Conserved()
    modifies w
    ensures w.Conserved() && w.mine == old(w.mine) + With(vpp)
    ensures Found(error, vpp) == CreateOutcome(hooked, c, backed)
    ensures w.alone ==> (w.backing, w.shadow) == CreateMaps(hooked, c, old(w.backing), old(w.shadow))
    ensures w.alone && CreatesShadow(hooked, c) ==> (backed <==> c.shadow.v.value in w.backing)
  {
    hide Vnodes.Conserved, With, Backed, Shadowed;
    ghost var before := w.mine;
    backed := false;
    NothingWith();
    if !hooked || !c.controlled {
      error, vpp := LookUp(w, c.original); // not a controlled application or file
      return;
    }
    if !c.paths {
      return Failed, None, false;
    }
    error, vpp := LookUp(w, c.original);
    if error == Success && vpp.Some? {
      var original := vpp;
      WithSome(original.value);
      GetOwn(w, original.value);
      DropFrom(w, vpp, before + With(original));
      error, vpp, backed := CreateShadow(w, original.value, c);
      DropFrom(w, original, before + With(vpp));
    }
  }

  // ----- close, inactive, reclaim, getattr -----

  /** Writes back what is cached of a backing vnode. */
  method Push(v: Option<Vnode>) returns (ghost pushed: Option<Vnode>)
    ensures pushed == v
  {
    pushed := v;
  }

  /** The cache of the backing vnode is written back; its references stay as they were. */
  method CloseHook(w: Vnodes, vp: Vnode) returns (ghost pushed: Option<Vnode>)
    requires w.Conserved()
    modifies w
    ensures w.Conserved() && w.mine == old(w.mine)
    ensures w.alone ==> w.backing == old(w.backing) && w.shadow == old(w.shadow)
    ensures w.alone ==> pushed == if vp in w.backing then Some(w.backing[vp]) else None
  {
    hide Vnodes.Conserved;
    var io := GetVnodeIORef(w, vp);
    pushed := Push(io);
    Drop(w, io);
    w.Others();
  }

  method InactiveHook(w: Vnodes, vp: Vnode) returns (ghost pushed: Option<Vnode>)
    requires w.Conserved()
    modifies w
    ensures w.Conserved() && w.mine == old(w.mine)
    ensures w.alone ==> w.shadow == old(w.shadow) && w.backing == old(w.backing) - {vp}
    ensures w.alone ==> pushed == if vp in old(w.backing) then Some(old(w.backing)[vp]) else None
  {
    hide Vnodes.Conserved, With;
    ghost var before := w.mine;
    var io := GetVnodeIORef(w, vp);
    pushed := Push(io);
    if io.Some? {
      RemoveVnodeIO(w, vp);
    } else {
      assert w.alone ==> w.backing - {vp} == w.backing;
    }
    DropFrom(w, io, before);
    w.Others();
  }

  method ReclaimHook(w: Vnodes, vp: Vnode)
    requires w.Conserved()
    modifies w
    ensures w.Conserved() && w.mine == old(w.mine)
    ensures w.alone ==> w.shadow == old(w.shadow) - {vp} && w.backing == old(w.backing) - {vp}
  {
    hide Vnodes.Conserved;
    w.Others();
    RemoveVnodeIO(w, vp);
    RemoveShadowReverse(w, vp);
    w.Others();
  }

  class GetattrArgs {
    var vp: Vnode

    constructor (v: Vnode)
      ensures vp == v
    {
      vp := v;
    }
  }

  /** The file system's getattr, on the vnode the arguments have when it is called. */
  method GetAttributes(w: Vnodes, ap: GetattrArgs, answer: Error) returns (error: Error, ghost on: Vnode)
    requires w.Conserved()
    modifies w
    ensures w.Conserved() && w.mine == old(w.mine) && error == answer && on == ap.vp
    ensures w.alone ==> w.backing == old(w.backing) && w.shadow == old(w.shadow)
  {
    w.Others();
    error, on := answer, ap.vp;
  }

  /** A shadow is asked for the attributes of the vnode it shadows, and for the sizes of its backing vnode; the call's vnode is
      swapped for that meanwhile, and swapped back. */
  method GetattrHook(w: Vnodes, ap: GetattrArgs, hooked: bool, answer: Error)
      returns (error: Error, ghost on: Vnode, ghost sized: Option<Vnode>)
    requires w.Conserved()
    modifies w, ap
    ensures w.Conserved() && w.mine == old(w.mine) && ap.vp == old(ap.vp) && error == answer
    ensures w.alone ==> w.backing == old(w.backing) && w.shadow == old(w.shadow)
    ensures w.alone ==> on == if hooked && ap.vp in w.shadow then w.shadow[ap.vp] else ap.vp
    ensures w.alone ==> sized == if hooked && ap.vp in w.shadow && answer == Success && ap.vp in w.backing
                                 then Some(w.backing[ap.vp]) else None
  {
    hide Vnodes.Conserved, With;
    ghost var before := w.mine;
    sized := None;
    var genuine := GetShadowReverseRef(w, ap.vp);
    if genuine == None || !hooked {
      DropFrom(w, genuine, before);
      error, on := GetAttributes(w, ap, answer);
      return;
    }
    var shadow := ap.vp;
    ap.vp := genuine.value;
    error, on := GetAttributes(w, ap, answer);
    if error == Success {
      var backing := GetVnodeIORef(w, shadow);
      sized := Push(backing);
      DropFrom(w, backing, before + With(genuine));
    }
    ap.vp := shadow;
    DropFrom(w, genuine, before);
  }

  // ----- rename -----

  class RenameArgs {
    var fvp: Vnode
    var tvp: Option<Vnode>

    constructor (f: Vnode, t: Option<Vnode>)
      ensures fvp == f && tvp == t
    {
      fvp, tvp := f, t;
    }
  }

  /** References taken along the way: to the redirection directory twice, to the redirected and the original files. */
  datatype Taken = Taken(fdvp: Option<Vnode>, tdvp: Option<Vnode>, fvp: Option<Vnode>, tvp: Option<Vnode>,
                         originalFvp: Option<Vnode>, originalTvp: Option<Vnode>)

  function All(k: Taken): multiset<Vnode> {
    With(k.fdvp) + With(k.tdvp) + With(k.fvp) + With(k.tvp) + With(k.originalFvp) + With(k.originalTvp)
  }

  /** The four lookups every redirected rename starts with; those before a failure keep their references. */
  method TakeSources(w: Vnodes, c: RenameAnswers) returns (error: Error, k: Taken)
    requires w.Conserved()
    modifies w
    ensures w.Conserved() && w.mine == old(w.mine) + All(k)
    ensures k.tvp == None && k.originalTvp == None
    ensures error == if First(c.fromDir, c.toDir) != Success then First(c.fromDir, c.toDir) else First(c.from, c.originalFrom)
    ensures error == Success ==> k.fvp == c.from.v && k.fvp.Some? && k.originalFvp == c.originalFrom.v && k.originalFvp.Some?
    ensures w.alone ==> w.backing == old(w.backing) && w.shadow == old(w.shadow)
  {
    hide Vnodes.Conserved, With;
    NothingWith();
    var fdvp, tdvp, fvp, originalFvp := None, None, None, None;
    error, fdvp := Find(w, c.fromDir);
    if error == Success {
      error, tdvp := Find(w, c.toDir);
    }
    if error == Success {
      error, fvp := Find(w, c.from);
    }
    if error == Success {
      error, originalFvp := Find(w, c.originalFrom);
    }
    k := Taken(fdvp, tdvp, fvp, None, originalFvp, None);
  }

  /** The target exists: the redirected and the original one are looked up. */
  method TakeTargets(w: Vnodes, c: RenameAnswers) returns (error: Error, redirected: Option<Vnode>, original: Option<Vnode>)
    requires w.Conserved()
    modifies w
    ensures w.Conserved() && w.mine == old(w.mine) + With(redirected) + With(original)
    ensures error == First(c.to, c.originalTo)
    ensures redirected == Sure(c.to).v && original == if Sure(c.to).error == Success then Sure(c.originalTo).v else None
    ensures w.alone ==> w.backing == old(w.backing) && w.shadow == old(w.shadow)
  {
    hide Vnodes.Conserved;
    original := None;
    error, redirected := Find(w, c.to);
    if error == Success {
      error, original := Find(w, c.originalTo);
    }
  }

  /** The target does not exist as far as the caller knows: a redirected one without an original is renamed over. */
  method TakeLeftover(w: Vnodes, c: RenameAnswers) returns (redirected: Option<Vnode>)
    requires w.Conserved()
    modifies w
    ensures w.Conserved() && w.mine == old(w.mine) + With(redirected)
    ensures redirected == Target(None, c)
    ensures w.alone ==> w.backing == old(w.backing) && w.shadow == old(w.shadow)
  {
    hide Vnodes.Conserved, With;
    ghost var before := w.mine;
    NothingWith();
    var error2, found := Find(w, c.to);
    redirected := None;
    if error2 == Success {
      var original;
      error2, original := Find(w, c.originalTo);
      if error2 == Success {
        DropFrom(w, original, before + With(found));
      } else {
        redirected := found;
        WithSome(found.value);
        GetOwn(w, found.value);
      }
      DropFrom(w, found, before + With(redirected));
    }
  }

  method DropAll(w: Vnodes, k: Taken, ghost before: multiset<Vnode>)
    requires w.Conserved() && w.mine == before + All(k)
    modifies w
    ensures w.Conserved() && w.mine == before
    ensures w.alone ==> w.backing == old(w.backing) && w.shadow == old(w.shadow)
  {
    hide Vnodes.Conserved, With;
    var a, b, c, d, e := With(k.originalTvp), With(k.originalFvp), With(k.tvp), With(k.tdvp), With(k.fvp);
    DropFrom(w, k.fdvp, before + a + b + c + d + e);
    DropFrom(w, k.fvp, before + a + b + c + d);
    DropFrom(w, k.tdvp, before + a + b + c);
    DropFrom(w, k.tvp, before + a + b);
    DropFrom(w, k.originalFvp, before + a);
    DropFrom(w, k.originalTvp, before);
  }

  /** The file system's rename, added to those made. */
  method RenameFile(w: Vnodes, from: Option<Vnode>, to: Option<Vnode>, answer: Error, ghost made: seq<Renaming>)
      returns (error: Error, ghost done: seq<Renaming>)
    requires w.Conserved()
    modifies w
    ensures w.Conserved() && w.mine == old(w.mine) && error == answer && done == made + [Renaming(from, to)]
    ensures w.alone ==> w.backing == old(w.backing) && w.shadow == old(w.shadow)
  {
    w.Others();
    error, done := answer, made + [Renaming(from, to)];
  }

  /** A rename makes the renamings its answers call for. */
  method RenameHook(w: Vnodes, ap: RenameArgs, hooked: bool, redirectIO: bool, c: RenameAnswers)
      returns (error: Error, ghost done: seq<Renaming>)
    requires w.Conserved()
    modifies w, ap
    ensures w.Conserved() && w.mine == old(w.mine) && ap.fvp == old(ap.fvp) && ap.tvp == old(ap.tvp)
    ensures error == RenameOutcome(hooked, redirectIO, ap.fvp, ap.tvp, c).0
    ensures done == RenameOutcome(hooked, redirectIO, ap.fvp, ap.tvp, c).1
    ensures w.alone ==> w.backing == old(w.backing)
    ensures w.alone ==> w.shadow == if error == Success && hooked && redirectIO then old(w.shadow) - {ap.fvp} else old(w.shadow)
  {
    hide Vnodes.Conserved;
    if !hooked {
      error, done := RenameFile(w, Some(ap.fvp), ap.tvp, c.renamed, []);
    } else if redirectIO {
      error, done := RenameRedirected(w, ap, c);
    } else {
      error, done := RenameOriginal(w, ap, c);
    }
  }

  /** The call's vnodes are the redirected ones: they are swapped for the originals meanwhile, and swapped back. */
  method RenameOriginal(w: Vnodes, ap: RenameArgs, c: RenameAnswers) returns (error: Error, ghost done: seq<Renaming>)
    requires w.Conserved()
    modifies w, ap
    ensures w.Conserved() && w.mine == old(w.mine) && ap.fvp == old(ap.fvp) && ap.tvp == old(ap.tvp)
    ensures error == RenameOutcome(true, false, ap.fvp, ap.tvp, c).0
    ensures done == RenameOutcome(true, false, ap.fvp, ap.tvp, c).1
    ensures w.alone ==> w.backing == old(w.backing) && w.shadow == old(w.shadow)
  {
    hide Vnodes.Conserved, With;
    ghost var before := w.mine;
    done := [];
    var newFvp, newTvp, oldFvp, oldTvp := None, None, None, None;
    error, newFvp := Find(w, c.originalFrom);
    NothingWith();
    if error == Success && ap.tvp.Some? {
      error, newTvp := Find(w, c.originalTo);
    }
    if error == Success {
      oldFvp := Some(ap.fvp);
      ap.fvp := newFvp.value;
      if newTvp.Some? {
        oldTvp := ap.tvp;
        ap.tvp := newTvp;
      }
      error, done := RenameFile(w, Some(ap.fvp), ap.tvp, c.renamed, done);
    }
    DropFrom(w, newFvp, before + With(newTvp));
    DropFrom(w, newTvp, before);
    if oldFvp.Some? {
      ap.fvp := oldFvp.value;
    }
    if oldTvp.Some? {
      ap.tvp := oldTvp;
    }
  }

  method TakeMore(w: Vnodes, tvp: Option<Vnode>, c: RenameAnswers, sources: Taken, ghost before: multiset<Vnode>)
      returns (error: Error, k: Taken)
    requires w.Conserved() && w.mine == before + All(sources) && sources.tvp == None && sources.originalTvp == None
    modifies w
    ensures w.Conserved() && w.mine == before + All(k)
    ensures error == if tvp.Some? then First(c.to, c.originalTo) else Success
    ensures k == sources.(tvp := Target(tvp, c), originalTvp := OriginalTarget(tvp, c))
    ensures w.alone ==> w.backing == old(w.backing) && w.shadow == old(w.shadow)
  {
    hide Vnodes.Conserved, With;
    NothingWith();
    var r, o := None, None;
    error := Success;
    if tvp.Some? {
      error, r, o := TakeTargets(w, c);
    } else {
      r := TakeLeftover(w, c);
    }
    k := sources.(tvp := r, originalTvp := o);
  }

  /** Renames the redirected, the shadow and the original file, and forgets whose shadow it was. */
  method RenameRedirected(w: Vnodes, ap: RenameArgs, c: RenameAnswers) returns (error: Error, ghost done: seq<Renaming>)
    requires w.Conserved()
    modifies w
    ensures w.Conserved() && w.mine == old(w.mine)
    ensures error == RenameOutcome(true, true, ap.fvp, ap.tvp, c).0
    ensures done == RenameOutcome(true, true, ap.fvp, ap.tvp, c).1
    ensures w.alone ==> w.backing == old(w.backing) && w.shadow == if error == Success then old(w.shadow) - {ap.fvp} else old(w.shadow)
  {
    hide Vnodes.Conserved, With, All, Target, OriginalTarget;
    ghost var before := w.mine;
    done := [];
    if !c.paths {
      return Failed, [];
    }
    var k;
    error, k := TakeSources(w, c);
    if error == Success {
      error, k := TakeMore(w, ap.tvp, c, k, before);
    }
    if error == Success {
      error, done := RenameThree(w, ap, c, k);
      if error == Success {
        RemoveShadowReverse(w, ap.fvp);
      }
    }
    DropAll(w, k, before);
  }

  /** The redirected file, then the vnodes of the call, then the original, as long as each succeeds. */
  method RenameThree(w: Vnodes, ap: RenameArgs, c: RenameAnswers, k: Taken) returns (error: Error, ghost done: seq<Renaming>)
    requires w.Conserved()
    modifies w
    ensures w.Conserved() && w.mine == old(w.mine)
    ensures w.alone ==> w.backing == old(w.backing) && w.shadow == old(w.shadow)
    ensures var first, second, third := Renaming(k.fvp, k.tvp), Renaming(Some(ap.fvp), ap.tvp), Renaming(k.originalFvp, k.originalTvp);
            && error == (if c.redirectedRenamed != Success then c.redirectedRenamed
                         else if c.renamed != Success then c.renamed else c.originalRenamed)
            && done == (if c.redirectedRenamed != Success then [first]
                        else if c.renamed != Success then [first, second] else [first, second, third])
  {
    hide Vnodes.Conserved;
    error, done := RenameFile(w, k.fvp, k.tvp, c.redirectedRenamed, []);
    if error == Success {
      error, done := RenameFile(w, Some(ap.fvp), ap.tvp, c.renamed, done);
      if error == Success {
        error, done := RenameFile(w, k.originalFvp, k.originalTvp, c.originalRenamed, done);
      }
    }
  }

  // ----- any run -----

  /** However the hooks follow each other, what the thread ends up holding is what they returned. */
  method RunHooks(w: Vnodes, n: nat) returns (returned: multiset<Vnode>)
    requires w.Conserved()
    modifies w
    ensures w.Conserved() && w.mine == old(w.mine) + returned
  {
    hide Vnodes.Conserved, With;
    returned := multiset{};
    var i := 0;
    while i < n
      invariant w.Conserved() && w.mine == old(w.mine) + returned
      decreases n - i
    {
      var v := OneHook(w);
      returned := returned + With(v);
      i := i + 1;
    }
  }

  method OneHook(w: Vnodes) returns (v: Option<Vnode>)
    requires w.Conserved()
    modifies w
    ensures w.Conserved() && w.mine == old(w.mine) + With(v)
  {
    hide Vnodes.Conserved, With;
    NothingWith();
    var vp: Vnode, tvp: Option<Vnode>, hooked: bool, redirectIO: bool, creating: bool := *, *, *, *, *;
    var error;
    v := None;
    if {
      case true =>
        var c: LookUpAnswers := *;
        ghost var backed;
        error, v, backed := LookUpHook(w, hooked, redirectIO, creating, c);
      case true =>
        var c: CreateAnswers := *;
        ghost var backed;
        error, v, backed := CreateHook(w, hooked, c);
      case true =>
        ghost var pushed := CloseHook(w, vp);
      case true =>
        ghost var pushed := InactiveHook(w, vp);
      case true => ReclaimHook(w, vp);
      case true =>
        var ap := new GetattrArgs(vp);
        var answer: Error := *;
        ghost var on, sized;
        error, on, sized := GetattrHook(w, ap, hooked, answer);
      case true =>
        var ap := new RenameArgs(vp, tvp);
        var c: RenameAnswers := *;
        ghost var done;
        error, done := RenameHook(w, ap, hooked, redirectIO, c);
    }
  }
}
