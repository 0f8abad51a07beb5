/** What the hooks give back and what they do to the maps, as functions of what the file system, the allocator and the daemon
    answer them. */
module VnodeOutcomes {
  import opened Options
  import opened VnodeMaps

  /** The errors the hooks tell apart. */
  datatype Error = Success | NoEntry | JustReturn | Failed

  /** What a call into the file system answers. */
  datatype Found = Found(error: Error, v: Option<Vnode>)

  /** A failed call gives no vnode. */
  function Given(a: Found): Found {
    if a.error == Success then a else Found(a.error, None)
  }

  /** The same, of a call that gives a vnode exactly when it succeeds. */
  function Sure(a: Found): Found {
    if a.error == Success && a.v == None then Found(NoEntry, None) else Given(a)
  }

  // ----- associations -----

  /** What finding a vnode's backing one meets: whether the vnode is a regular file of a redirecting application, whether its
      path can be computed, what is found there, and whether there is memory for the association. */
  datatype Backing = Backing(redirected: bool, path: bool, found: Found, memory: bool)

  /** The associations afterwards, and the backing vnode. */
  function Backed(m: map<Vnode, Vnode>, vn: Vnode, b: Backing, force: bool): (map<Vnode, Vnode>, Option<Vnode>) {
    if !b.redirected then (m, None)
    else if !force && vn in m then (m, Some(m[vn]))
    else
      var rest := if force then m - {vn} else m;
      if !b.path || Sure(b.found).error != Success then (rest, None)
      else (if b.memory then rest[vn := Sure(b.found).v.value] else rest, Sure(b.found).v)
  }

  /** Recording that s is the shadow of vn; without memory an entry for another vnode is gone all the same. */
  function Shadowed(m: map<Vnode, Vnode>, s: Vnode, vn: Vnode, memory: bool): map<Vnode, Vnode> {
    if s in m && m[s] == vn then m else if memory then m[s := vn] else m - {s}
  }

  // ----- lookup -----

  /** What opening a shadow meets: the lookup of its path, its creation if that fails, and making the sizes equal. */
  datatype Opening = Opening(existing: Found, created: Found, sized: Error, memory: bool)

  /** The vnode found or created; it is given also when the sizes could not be made equal. */
  function Opened(original: Vnode, o: Opening): Found {
    if Sure(o.existing).error == Success then Sure(o.existing)
    else if Sure(o.created).error == Success && o.created.v != Some(original) then Found(o.sized, o.created.v)
    else Sure(o.created)
  }

  function OpenedShadows(m: map<Vnode, Vnode>, original: Vnode, o: Opening): map<Vnode, Vnode> {
    var a := Opened(original, o);
    if a.error == Success && a.v.Some? && a.v != Some(original) then Shadowed(m, a.v.value, original, o.memory) else m
  }

  /** What the lookup by redirected path meets: whether there is memory for the path, the lookup of the path itself, whether
      that is a regular file, and the lookup of the redirected path. */
  datatype ByPath = ByPath(memory: bool, plain: Found, regular: bool, redirected: Found)

  /** The redirected file if there is one, else the plain one, else the error of the one or the other. */
  function PathOutcome(creating: bool, p: ByPath): Found {
    var a, r := Sure(p.plain), Given(p.redirected);
    if !p.memory then Found(Failed, None)
    else if a.error == Success && !p.regular then a
    else if a.error == Failed || (a.error == JustReturn && !creating) then a
    else if r.error == Success && r.v.Some? then r
    else if a.error == Success then a
    else if r.error == Success || (a.error == JustReturn && r.error == NoEntry) then Found(JustReturn, None)
    else r
  }

  /** What a lookup meets: whether the path is on the protected storage already, what the file system finds, whether that vnode
      has been redirected before, is a regular file and is controlled, whether there is memory for the paths of its shadow, and
      how opening and backing the shadow and the lookup by path go. */
  datatype LookUpAnswers = LookUpAnswers(
    protected: bool, original: Found, redirectedBefore: bool, regular: bool, controlled: bool,
    shadowPath: bool, opening: Opening, redirectedPath: bool, backing: Backing, path: ByPath)

  /** A call by way of the shadow: the file system has a controlled regular file that is not redirected yet. */
  predicate Shadows(hooked: bool, redirectIO: bool, c: LookUpAnswers) {
    hooked && !c.protected && redirectIO && Sure(c.original).error == Success && !c.redirectedBefore && c.regular && c.controlled
  }

  /** The shadow can be given, if it is backed. */
  predicate ShadowOpens(original: Vnode, c: LookUpAnswers) {
    c.shadowPath && Opened(original, c.opening).error == Success && c.redirectedPath
  }

  /** The outcome of a lookup, by whether the shadow turned out to be backed. */
  function LookUpOutcome(hooked: bool, redirectIO: bool, creating: bool, c: LookUpAnswers, backed: bool): Found {
    if !hooked || c.protected then Sure(c.original)
    else if !redirectIO then PathOutcome(creating, c.path)
    else if !Shadows(hooked, redirectIO, c) then Sure(c.original)
    else if !c.shadowPath then Found(Failed, None)
    else if ShadowOpens(c.original.v.value, c) && backed then Found(Success, Opened(c.original.v.value, c.opening).v)
    else PathOutcome(creating, c.path)
  }

  /** The maps after a lookup with no other thread about: associations, and shadows. */
  function LookUpMaps(hooked: bool, redirectIO: bool, c: LookUpAnswers, backing: map<Vnode, Vnode>, shadow: map<Vnode, Vnode>)
    : (map<Vnode, Vnode>, map<Vnode, Vnode>)
  {
    if Shadows(hooked, redirectIO, c) && c.shadowPath then
      var original := c.original.v.value;
      (if ShadowOpens(original, c) && Opened(original, c.opening).v.Some?
       then Backed(backing, Opened(original, c.opening).v.value, c.backing, false).0 else backing,
       OpenedShadows(shadow, original, c.opening))
    else (backing, shadow)
  }

  /** A lookup that succeeds gives a vnode. */
  lemma LookUpGives(hooked: bool, redirectIO: bool, creating: bool, c: LookUpAnswers, backed: bool)
    ensures var r := LookUpOutcome(hooked, redirectIO, creating, c, backed); r.error == Success <==> r.v.Some?
  {
  }

  /** A controlled file never goes to the caller in the original: the caller gets the backed shadow or, failing that, what the
      redirected path has, and the original only if the file system gives it for its shadow's path, or the redirected path has
      nothing. */
  lemma ControlledIsRedirected(redirectIO: bool, creating: bool, c: LookUpAnswers, backed: bool)
    requires Shadows(true, redirectIO, c)
    ensures var original, r := c.original.v.value, LookUpOutcome(true, redirectIO, creating, c, backed);
            && (ShadowOpens(original, c) && backed ==> r.error == Success && r.v == Opened(original, c.opening).v)
            && (r.v.Some? && !(ShadowOpens(original, c) && backed) ==>
                  c.shadowPath && c.path.memory
                  && (r.v == c.path.redirected.v || (r.v == c.path.plain.v && !(c.path.regular && Given(c.path.redirected).v.Some?))))
  {
  }

  /** With no other thread about, a shadow that is given leads to its backing vnode, and to the original unless memory was
      short. */
  lemma ShadowIsKnown(c: LookUpAnswers, backing: map<Vnode, Vnode>, shadow: map<Vnode, Vnode>)
    requires Shadows(true, true, c) && ShadowOpens(c.original.v.value, c)
    ensures var original := c.original.v.value;
            var s := Opened(original, c.opening).v;
            s.Some?
            && var (backing', shadow') := LookUpMaps(true, true, c, backing, shadow);
               && (s.value in backing' ==>
                     backing' == if s.value in backing then backing else backing[s.value := Sure(c.backing.found).v.value])
               && (s.value != original && c.opening.memory ==> s.value in shadow' && shadow'[s.value] == original)
               && (forall x | x != s.value :: (x in shadow' <==> x in shadow) && (x in shadow ==> shadow'[x] == shadow[x]))
  {
  }

  // ----- create -----

  /** What a creation meets: whether the file is controlled, whether there is memory for the paths, what the file system
      creates, and how creating and backing its shadow go. */
  datatype CreateAnswers = CreateAnswers(
    controlled: bool, paths: bool, original: Found, shadow: Found, backing: Backing, memory: bool)

  function CreateOutcome(hooked: bool, c: CreateAnswers, backed: bool): Found {
    if !hooked || !c.controlled then Given(c.original)
    else if !c.paths then Found(Failed, None)
    else if Given(c.original).v == None then Given(c.original)
    else if Sure(c.shadow).error != Success then Sure(c.shadow)
    else if backed then Sure(c.shadow)
    else Found(Failed, None)
  }

  /** The shadow of the created file is opened. */
  predicate CreatesShadow(hooked: bool, c: CreateAnswers) {
    hooked && c.controlled && c.paths && Given(c.original).v.Some? && Sure(c.shadow).error == Success
  }

  function CreateMaps(hooked: bool, c: CreateAnswers, backing: map<Vnode, Vnode>, shadow: map<Vnode, Vnode>)
    : (map<Vnode, Vnode>, map<Vnode, Vnode>)
  {
    if CreatesShadow(hooked, c) then
      var s := c.shadow.v.value;
      var backing' := Backed(backing, s, c.backing, false).0;
      (backing', if s in backing' then Shadowed(shadow, s, c.original.v.value, c.memory) else shadow)
    else (backing, shadow)
  }

  /** A controlled file that is created never goes to the caller in the original: the caller gets the shadow, which with no
      other thread about leads to its backing vnode and, unless memory was short, to the original. */
  lemma CreatedIsShadow(c: CreateAnswers, backing: map<Vnode, Vnode>, shadow: map<Vnode, Vnode>)
    requires c.controlled
    ensures forall backed :: CreateOutcome(true, c, backed).v.Some? ==> backed && CreateOutcome(true, c, backed).v == c.shadow.v
    ensures var (backing', shadow') := CreateMaps(true, c, backing, shadow);
            CreatesShadow(true, c) && c.shadow.v.value in backing' && c.memory ==>
              c.shadow.v.value in shadow' && shadow'[c.shadow.v.value] == c.original.v.value
  {
  }

  // ----- rename -----

  /** A call of the file system's rename. */
  datatype Renaming = Renaming(from: Option<Vnode>, to: Option<Vnode>)

  /** What a rename meets: whether there is memory for the paths, the lookups of the redirection directory, of the redirected and
      original files on both sides, and how renaming the redirected file, the vnodes of the call and the original goes. */
  datatype RenameAnswers = RenameAnswers(
    paths: bool, fromDir: Found, toDir: Found, from: Found, originalFrom: Found, to: Found, originalTo: Found,
    redirectedRenamed: Error, renamed: Error, originalRenamed: Error)

  /** The first failure of two lookups made one after the other. */
  function First(a: Found, b: Found): Error {
    if Sure(a).error != Success then Sure(a).error else Sure(b).error
  }

  /** The redirected target: the one to be replaced, or a leftover without an original. */
  function Target(tvp: Option<Vnode>, c: RenameAnswers): Option<Vnode> {
    if tvp.Some? then Sure(c.to).v
    else if Sure(c.to).error == Success && Sure(c.originalTo).error != Success then Sure(c.to).v
    else None
  }

  function OriginalTarget(tvp: Option<Vnode>, c: RenameAnswers): Option<Vnode> {
    if tvp.Some? && Sure(c.to).error == Success then Sure(c.originalTo).v else None
  }

  /** How the lookups before a redirected rename go. */
  function Prepared(tvp: Option<Vnode>, c: RenameAnswers): Error {
    if !c.paths then Failed
    else if First(c.fromDir, c.toDir) != Success then First(c.fromDir, c.toDir)
    else if First(c.from, c.originalFrom) != Success then First(c.from, c.originalFrom)
    else if tvp.Some? then First(c.to, c.originalTo)
    else Success
  }

  /** The outcome of a rename, and the renamings made, in order. */
  function RenameOutcome(hooked: bool, redirectIO: bool, fvp: Vnode, tvp: Option<Vnode>, c: RenameAnswers): (Error, seq<Renaming>) {
    if !hooked then (c.renamed, [Renaming(Some(fvp), tvp)])
    else if !redirectIO then
      var e := if tvp.Some? then First(c.originalFrom, c.originalTo) else Sure(c.originalFrom).error;
      if e != Success then (e, [])
      else (c.renamed, [Renaming(c.originalFrom.v, if tvp.Some? then c.originalTo.v else None)])
    else if Prepared(tvp, c) != Success then (Prepared(tvp, c), [])
    else
      var first := Renaming(c.from.v, Target(tvp, c));
      if c.redirectedRenamed != Success then (c.redirectedRenamed, [first])
      else
        var second := Renaming(Some(fvp), tvp);
        if c.renamed != Success then (c.renamed, [first, second])
        else (c.originalRenamed, [first, second, Renaming(c.originalFrom.v, OriginalTarget(tvp, c))])
  }

  /** A redirected rename succeeds exactly when the redirected file, the shadow the caller has and the original were all renamed,
      in this order; a failure stops it. */
  lemma RenamesAll(fvp: Vnode, tvp: Option<Vnode>, c: RenameAnswers)
    ensures var (error, done) := RenameOutcome(true, true, fvp, tvp, c);
            && (error == Success <==> |done| == 3 && c.originalRenamed == Success)
            && (|done| > 0 ==> done[0].from == c.from.v && c.from.v.Some?)
            && (|done| > 1 ==> done[1] == Renaming(Some(fvp), tvp) && c.redirectedRenamed == Success)
            && (|done| > 2 ==> done[2].from == c.originalFrom.v && c.originalFrom.v.Some? && c.renamed == Success)
            && (tvp.Some? && |done| == 3 ==> done[0].to == c.to.v && done[2].to == c.originalTo.v)
  {
  }
}
