/** Vnode references: the two maps that own some, the threads that own the others, and the calls that move them. */
module VnodeMaps {
  import opened Options

  type Vnode = nat

  ghost function Leading(m: map<Vnode, Vnode>, v: Vnode): set<Vnode> {
    set k | k in m && m[k] == v
  }

  /** The number of entries of a map that lead to a vnode. */
  ghost function Entries(m: map<Vnode, Vnode>, v: Vnode): nat {
    |Leading(m, v)|
  }

  lemma LeadingAdded(m: map<Vnode, Vnode>, k: Vnode, v: Vnode, x: Vnode)
    requires k !in m
    ensures Leading(m[k := v], x) == (if x == v then Leading(m, x) + {k} else Leading(m, x)) && k !in Leading(m, x)
  {
  }

  lemma EntryAdded(m: map<Vnode, Vnode>, k: Vnode, v: Vnode)
    requires k !in m
    ensures forall x :: Entries(m[k := v], x) == Entries(m, x) + if x == v then 1 else 0
  {
    hide Leading;
    forall x ensures Entries(m[k := v], x) == Entries(m, x) + if x == v then 1 else 0 {
      LeadingAdded(m, k, v, x);
    }
  }

  lemma EntryRemoved(m: map<Vnode, Vnode>, k: Vnode)
    requires k in m
    ensures forall x :: Entries(m, x) == Entries(m - {k}, x) + if x == m[k] then 1 else 0
  {
    EntryAdded(m - {k}, k, m[k]);
    assert m == (m - {k})[k := m[k]];
  }

  lemma EntryCounts(m: map<Vnode, Vnode>, k: Vnode)
    requires k in m
    ensures Entries(m, m[k]) >= 1
  {
    EntryRemoved(m, k);
  }

  /** refs are the reference counts of all vnodes; backing and shadow are the maps from a vnode to its backing vnode and
      from a shadow vnode to the vnode it shadows; mine and others are the references held by the thread at hand and by
      all other threads; alone tells that there are none. */
  class Vnodes {
    const alone: bool
    var refs: multiset<Vnode>
    var backing: map<Vnode, Vnode>
    var shadow: map<Vnode, Vnode>
    var mine: multiset<Vnode>
    var others: multiset<Vnode>

    /** Every reference is owned by a map entry or by a thread. */
    ghost predicate Conserved()
      reads this
    {
      forall v :: refs[v] == Entries(backing, v) + Entries(shadow, v) + mine[v] + others[v]
    }

    // ----- references -----

    /** vnode_get, on a vnode somebody has a reference to. */
    method Get(v: Vnode)
      requires Conserved() && v in refs
      modifies `refs, `mine
      ensures Conserved() && mine == old(mine) + multiset{v}
    {
      refs := refs + multiset{v};
      mine := mine + multiset{v};
    }

    /** vnode_put, of a reference of one's own. */
    method Put(v: Vnode)
      requires Conserved() && v in mine
      modifies `refs, `mine
      ensures Conserved() && mine == old(mine) - multiset{v}
    {
      refs := refs - multiset{v};
      mine := mine - multiset{v};
    }

    // ----- the locked sections -----

    /** Adds an entry with the reference it owns, unless the key has one already or memory is short. */
    method AddBacking(vn: Vnode, io: Vnode, memory: bool)
      requires Conserved() && io in refs
      modifies `refs, `backing
      ensures Conserved()
      ensures backing == if vn !in old(backing) && memory then old(backing)[vn := io] else old(backing)
    {
      hide Leading, Entries;
      if vn !in backing && memory {
        EntryAdded(backing, vn, io);
        refs, backing := refs + multiset{io}, backing[vn := io];
      }
    }

    /** Takes an entry out; its reference passes to the thread. */
    method TakeBacking(vn: Vnode) returns (io: Option<Vnode>)
      requires Conserved()
      modifies `backing, `mine
      ensures Conserved() && backing == old(backing) - {vn}
      ensures io == if vn in old(backing) then Some(old(backing)[vn]) else None
      ensures mine == if io.Some? then old(mine) + multiset{io.value} else old(mine)
    {
      hide Leading, Entries;
      io := None;
      if vn in backing {
        EntryRemoved(backing, vn);
        io := Some(backing[vn]);
        mine, backing := mine + multiset{backing[vn]}, backing - {vn};
      } else {
        assert backing - {vn} == backing;
      }
    }

    /** A further reference to what a key leads to. */
    method RefBacking(vn: Vnode) returns (io: Option<Vnode>)
      requires Conserved()
      modifies `refs, `mine
      ensures Conserved()
      ensures io == if vn in backing then Some(backing[vn]) else None
      ensures mine == if io.Some? then old(mine) + multiset{io.value} else old(mine)
    {
      io := None;
      if vn in backing {
        EntryCounts(backing, vn);
        io := Some(backing[vn]);
        Get(backing[vn]);
      }
    }

    /** Adds or overwrites; the reference of an overwritten entry passes to the thread, and when memory is short the old
        entry is gone all the same. */
    method SwapShadow(s: Vnode, vn: Vnode, memory: bool) returns (was: Option<Vnode>)
      requires Conserved() && vn in refs
      modifies `refs, `shadow, `mine
      ensures Conserved()
      ensures was == if s in old(shadow) && old(shadow)[s] != vn then Some(old(shadow)[s]) else None
      ensures shadow == if s in old(shadow) && was == None then old(shadow)
                        else if memory then old(shadow)[s := vn] else old(shadow) - {s}
      ensures mine == if was.Some? then old(mine) + multiset{was.value} else old(mine)
    {
      hide Leading, Entries;
      was := None;
      var add := s !in shadow;
      if s in shadow && shadow[s] != vn {
        was := TakeShadow(s);
        add := true;
      }
      if add && memory {
        assert old(shadow)[s := vn] == shadow[s := vn];
        EntryAdded(shadow, s, vn);
        refs, shadow := refs + multiset{vn}, shadow[s := vn];
      } else if add {
        assert shadow == old(shadow) - {s};
      }
    }

    method TakeShadow(s: Vnode) returns (vn: Option<Vnode>)
      requires Conserved()
      modifies `shadow, `mine
      ensures Conserved() && shadow == old(shadow) - {s}
      ensures vn == if s in old(shadow) then Some(old(shadow)[s]) else None
      ensures mine == if vn.Some? then old(mine) + multiset{vn.value} else old(mine)
    {
      hide Leading, Entries;
      vn := None;
      if s in shadow {
        EntryRemoved(shadow, s);
        vn := Some(shadow[s]);
        mine, shadow := mine + multiset{shadow[s]}, shadow - {s};
      } else {
        assert shadow - {s} == shadow;
      }
    }

    method RefShadow(s: Vnode) returns (vn: Option<Vnode>)
      requires Conserved()
      modifies `refs, `mine
      ensures Conserved()
      ensures vn == if s in shadow then Some(shadow[s]) else None
      ensures mine == if vn.Some? then old(mine) + multiset{vn.value} else old(mine)
    {
      vn := None;
      if s in shadow {
        EntryCounts(shadow, s);
        vn := Some(shadow[s]);
        Get(shadow[s]);
      }
    }

    // ----- the other threads -----

    method OtherTakes(v: Vnode)
      requires Conserved()
      modifies `refs, `others
      ensures Conserved()
    {
      refs, others := refs + multiset{v}, others + multiset{v};
    }

    method OtherDrops(v: Vnode)
      requires Conserved() && v in others
      modifies `refs, `others
      ensures Conserved()
    {
      refs, others := refs - multiset{v}, others - multiset{v};
    }

    /** Another thread removes an entry, with the reference it owns. */
    method OtherUnbacks(k: Vnode)
      requires Conserved() && k in backing
      modifies `refs, `backing
      ensures Conserved() && backing == old(backing) - {k}
    {
      hide Leading, Entries;
      EntryRemoved(backing, k);
      EntryCounts(backing, k);
      refs, backing := refs - multiset{backing[k]}, backing - {k};
    }

    method OtherUnshadows(k: Vnode)
      requires Conserved() && k in shadow
      modifies `refs, `shadow
      ensures Conserved() && shadow == old(shadow) - {k}
    {
      hide Leading, Entries;
      EntryRemoved(shadow, k);
      EntryCounts(shadow, k);
      refs, shadow := refs - multiset{shadow[k]}, shadow - {k};
    }

    /** Another thread adds an entry, with the reference it owns. */
    method OtherBacks(k: Vnode, v: Vnode)
      requires Conserved() && k !in backing
      modifies `refs, `backing
      ensures Conserved()
    {
      hide Leading, Entries;
      EntryAdded(backing, k, v);
      refs, backing := refs + multiset{v}, backing[k := v];
    }

    method OtherShadows(k: Vnode, v: Vnode)
      requires Conserved() && k !in shadow
      modifies `refs, `shadow
      ensures Conserved()
    {
      hide Leading, Entries;
      EntryAdded(shadow, k, v);
      refs, shadow := refs + multiset{v}, shadow[k := v];
    }

    /** One move of another thread; which of the maps it may add to is given. */
    method Other(addsBacking: bool, addsShadow: bool)
      requires Conserved()
      modifies `refs, `backing, `shadow, `others
      ensures Conserved()
      ensures !addsBacking ==> backing.Keys <= old(backing).Keys
      ensures !addsShadow ==> shadow.Keys <= old(shadow).Keys
    {
      hide Conserved;
      var v: Vnode, k: Vnode := *, *;
      if {
        case true => OtherTakes(v);
        case v in others => OtherDrops(v);
        case k in backing => OtherUnbacks(k);
        case k in shadow => OtherUnshadows(k);
        case addsBacking && k !in backing => OtherBacks(k, v);
        case addsShadow && k !in shadow => OtherShadows(k, v);
      }
    }

    /** Any number of moves of the other threads, if there are any. */
    method Others()
      requires Conserved()
      modifies `refs, `backing, `shadow, `others
      ensures Conserved()
      ensures alone ==> unchanged(this)
    {
      OthersAdding(true, true);
    }

    method OthersAdding(addsBacking: bool, addsShadow: bool)
      requires Conserved()
      modifies `refs, `backing, `shadow, `others
      ensures Conserved()
      ensures alone ==> unchanged(this)
      ensures !addsBacking ==> backing.Keys <= old(backing).Keys
      ensures !addsShadow ==> shadow.Keys <= old(shadow).Keys
    {
      hide Conserved;
      var n: int := *;
      while !alone && n > 0
        invariant Conserved()
        invariant alone ==> unchanged(this)
        invariant !addsBacking ==> backing.Keys <= old(backing).Keys
        invariant !addsShadow ==> shadow.Keys <= old(shadow).Keys
        decreases n
      {
        Other(addsBacking, addsShadow);
        n := n - 1;
      }
    }

    // ----- releasing everything, with no concurrent adds to the map released -----

    /** Takes some entry out, if there is any; its reference passes to the thread. */
    method TakeFirstBacking() returns (io: Option<Vnode>)
      requires Conserved()
      modifies `backing, `mine
      ensures Conserved()
      ensures io.None? ==> backing == old(backing) == map[] && mine == old(mine)
      ensures io.Some? ==> backing.Keys < old(backing).Keys && mine == old(mine) + multiset{io.value}
    {
      hide Leading, Entries, Conserved;
      io := None;
      if backing != map[] {
        var vn :| vn in backing;
        io := TakeBacking(vn);
        assert vn !in backing;
      }
    }

    /** Other threads may take and drop references, remove entries and add to the other map, also between the test for
        emptiness and the removal. Every reference the map held is then dropped, and the thread's own are as before. */
    method ReleaseAllBacking()
      requires Conserved()
      modifies `refs, `backing, `shadow, `mine, `others
      ensures Conserved() && backing == map[] && mine == old(mine)
      ensures forall v :: refs[v] == Entries(shadow, v) + mine[v] + others[v]
      ensures alone ==> shadow == old(shadow) && others == old(others)
    {
      hide Leading, Entries, Conserved;
      while backing != map[]
        invariant Conserved() && mine == old(mine)
        invariant alone ==> shadow == old(shadow) && others == old(others)
        decreases backing.Keys
      {
        OthersAdding(false, true);
        var io := TakeFirstBacking();
        OthersAdding(false, true);
        if io.Some? {
          Put(io.value);
        }
      }
      NoEntries();
      AllOwned();
    }

    method TakeFirstShadow() returns (vn: Option<Vnode>)
      requires Conserved()
      modifies `shadow, `mine
      ensures Conserved()
      ensures vn.None? ==> shadow == old(shadow) == map[] && mine == old(mine)
      ensures vn.Some? ==> shadow.Keys < old(shadow).Keys && mine == old(mine) + multiset{vn.value}
    {
      hide Leading, Entries, Conserved;
      vn := None;
      if shadow != map[] {
        var s :| s in shadow;
        vn := TakeShadow(s);
        assert s !in shadow;
      }
    }

    method ReleaseAllShadow()
      requires Conserved()
      modifies `refs, `backing, `shadow, `mine, `others
      ensures Conserved() && shadow == map[] && mine == old(mine)
      ensures forall v :: refs[v] == Entries(backing, v) + mine[v] + others[v]
      ensures alone ==> backing == old(backing) && others == old(others)
    {
      hide Leading, Entries, Conserved;
      while shadow != map[]
        invariant Conserved() && mine == old(mine)
        invariant alone ==> backing == old(backing) && others == old(others)
        decreases shadow.Keys
      {
        OthersAdding(true, false);
        var vn := TakeFirstShadow();
        OthersAdding(true, false);
        if vn.Some? {
          Put(vn.value);
        }
      }
      NoEntries();
      AllOwned();
    }

    lemma AllOwned()
      requires Conserved()
      ensures forall v :: refs[v] == Entries(backing, v) + Entries(shadow, v) + mine[v] + others[v]
    {
    }
  }

  lemma NoEntries()
    ensures forall v :: Entries(map[], v) == 0
  {
    forall v ensures Entries(map[], v) == 0 {
      assert Leading(map[], v) == {};
    }
  }
}
