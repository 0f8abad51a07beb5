/** The paths of shadow copies and of redirected files, computed in place in buffers. */
module Paths {

  const SHADOW_PREFIX := ".QS_"

  // ----- what is computed -----

  /** Where the file name starts: after the last slash. */
  function NameStart(path: string): (n: nat)
    ensures n <= |path| && '/' !in path[n..]
    ensures n > 0 ==> path[n - 1] == '/'
  {
    if path == "" then 0
    else if path[|path| - 1] == '/' then |path|
    else
      var n := NameStart(path[..|path| - 1]);
      assert path[n..] == path[..|path| - 1][n..] + [path[|path| - 1]];
      n
  }

  lemma NameStartIs(path: string, n: nat)
    requires n <= |path| && '/' !in path[n..] && (n > 0 ==> path[n - 1] == '/')
    ensures NameStart(path) == n
  {
  }

  function Lower(c: char): char {
    if 'A' <= c <= 'Z' then c + 32 as char else c
  }

  /** Whether a name starts with the prefix, letters of either case alike. */
  predicate IsShadowName(name: string) {
    |name| >= 4 && forall i :: 0 <= i < 4 ==> Lower(name[i]) == Lower(SHADOW_PREFIX[i])
  }

  predicate IsShadow(path: string) {
    IsShadowName(path[NameStart(path)..])
  }

  function Shadow(path: string): string {
    var n := NameStart(path);
    if IsShadow(path) then path else path[..n] + SHADOW_PREFIX + path[n..]
  }

  /** How many slashes a path starts with. */
  function Slashes(path: string): (n: nat)
    ensures n <= |path| && (forall i :: 0 <= i < n ==> path[i] == '/') && (n < |path| ==> path[n] != '/')
  {
    if path != "" && path[0] == '/' then 1 + Slashes(path[1..]) else 0
  }

  /** Directories made part of the name. */
  function Dollars(path: string): (r: string)
    ensures |r| == |path| && forall i :: 0 <= i < |r| ==> r[i] == if path[i] == '/' then '$' else path[i]
  {
    seq(|path|, i requires 0 <= i < |path| => if path[i] == '/' then '$' else path[i])
  }

  /** A file in the redirection directory; with no directory, only its name. */
  function Redirected(file: string, dir: string): string {
    var n := Slashes(file);
    (if dir == "" then "" else dir + (if file != "" && n == 0 then "/" else "") + file[..n]) + Dollars(file[n..])
  }

  // ----- how it is computed -----

  /** A buffer holds s and the terminating zero. */
  ghost predicate Holds(buffer: array<char>, s: string)
    reads buffer
  {
    |s| < buffer.Length && buffer[..|s|] == s && buffer[|s|] == '\0'
  }

  /** No character of a C string is the terminator. */
  predicate Terminated(s: string) {
    '\0' !in s
  }

  method CopyIn(buffer: array<char>, at: nat, s: string)
    requires at + |s| <= buffer.Length
    modifies buffer
    ensures buffer[at..at + |s|] == s
    ensures forall k :: 0 <= k < buffer.Length && !(at <= k < at + |s|) ==> buffer[k] == old(buffer[k])
  {
    forall k | 0 <= k < |s| {
      buffer[at + k] := s[k];
    }
  }

  /** memmove: the source is read before the destination is written. */
  method MoveWithin(buffer: array<char>, to: nat, from: nat, n: nat)
    requires to + n <= buffer.Length && from + n <= buffer.Length
    modifies buffer
    ensures buffer[to..to + n] == old(buffer[from..from + n])
    ensures forall k :: 0 <= k < buffer.Length && !(to <= k < to + n) ==> buffer[k] == old(buffer[k])
  {
    forall k | 0 <= k < n {
      buffer[to + k] := buffer[from + k];
    }
  }

  /** Walks back from the end to the last slash. */
  method FindName(buffer: array<char>, path: string) returns (pos: nat)
    requires Holds(buffer, path)
    ensures pos == NameStart(path)
  {
    var p: int := |path|;
    while p != -1 && buffer[p] != '/'
      invariant -1 <= p <= |path|
      invariant forall k :: p < k < |path| ==> path[k] != '/'
    {
      p := p - 1;
      assert 0 <= p ==> buffer[p] == buffer[..|path|][p];
    }
    pos := p + 1;
    assert pos <= |path| by {
      assert '/' != '\0';
    }
    NameStartIs(path, pos);
  }

  /** strncasecmp: it does not read past the terminating zero. */
  method StartsWithPrefix(buffer: array<char>, pos: nat, path: string) returns (yes: bool)
    requires Holds(buffer, path) && Terminated(path) && pos <= |path|
    ensures yes <==> IsShadowName(path[pos..])
  {
    var i := 0;
    while i < 4
      invariant 0 <= i <= 4 && pos + i <= |path|
      invariant forall k :: 0 <= k < i ==> Lower(path[pos + k]) == Lower(SHADOW_PREFIX[k])
    {
      assert pos + i < |path| ==> buffer[pos + i] == buffer[..|path|][pos + i];
      if Lower(buffer[pos + i]) != Lower(SHADOW_PREFIX[i]) {
        return false;
      }
      i := i + 1;
    }
    yes := true;
  }

  /** Moves the name and its terminator right and squeezes the prefix in. */
  method SqueezeIn(buffer: array<char>, pos: nat, path: string)
    requires Holds(buffer, path) && pos <= |path| && buffer.Length == |path| + 5
    modifies buffer
    ensures Holds(buffer, path[..pos] + SHADOW_PREFIX + path[pos..])
  {
    hide NameStart, IsShadow;
    ghost var r := path[..pos] + SHADOW_PREFIX + path[pos..];
    assert buffer[pos..pos + (|path| + 1 - pos)] == path[pos..] + ['\0'] by {
      assert buffer[..|path| + 1] == path + ['\0'];
    }
    assert buffer[..pos] == path[..pos];
    MoveWithin(buffer, pos + 4, pos, |path| + 1 - pos);
    CopyIn(buffer, pos, SHADOW_PREFIX);
    assert buffer[..pos] == path[..pos];
    assert buffer[pos..pos + 4] == SHADOW_PREFIX;
    assert buffer[pos + 4..pos + 4 + (|path| + 1 - pos)] == path[pos..] + ['\0'];
    assert buffer[pos + 4..] == path[pos..] + ['\0'];
    assert buffer[..] == buffer[..pos] + (buffer[pos..pos + 4] + buffer[pos + 4..]);
    assert r + ['\0'] == path[..pos] + (SHADOW_PREFIX + (path[pos..] + ['\0']));
    assert buffer[..] == r + ['\0'];
    assert buffer[..|r|] == r;
  }

  /** A failed allocation gives no buffer. */
  method ConvertToShadowCopyPath(path: string, memory: bool) returns (shadow: array?<char>)
    requires Terminated(path)
    ensures shadow != null <==> memory
    ensures shadow != null ==> fresh(shadow) && shadow.Length == |path| + |SHADOW_PREFIX| + 1 && Holds(shadow, Shadow(path))
  {
    if !memory {
      return null;
    }
    shadow := new char[|path| + |SHADOW_PREFIX| + 1];
    CopyIn(shadow, 0, path + ['\0']);
    assert shadow[..|path| + 1] == path + ['\0'];
    assert shadow[..|path|] == path;
    var pos := FindName(shadow, path);
    var isShadow := StartsWithPrefix(shadow, pos, path);
    if !isShadow {
      SqueezeIn(shadow, pos, path);
    }
  }

  /** The buffer is sized before leading slashes are dropped, with a wide terminator. */
  method ConvertToRedirectedPath(file: string, dir: string, memory: bool) returns (redirected: array?<char>)
    requires Terminated(file) && Terminated(dir)
    ensures redirected != null <==> memory
    ensures redirected != null ==> fresh(redirected) && Holds(redirected, Redirected(file, dir))
  {
    if !memory {
      return null;
    }
    var slashRequired := !(dir == "" || file == "" || file[0] == '/');
    var slashLength := if slashRequired then 1 else 0;
    redirected := new char[|dir| + slashLength + |file| + 4];
    var name := file;
    if dir != "" {
      CopyIn(redirected, 0, dir);
      if slashRequired {
        redirected[|dir|] := '/';
      }
    } else {
      name := StripSlashes(file);
    }
    var at := |dir| + slashLength;
    CopyIn(redirected, at, name + ['\0']);
    assert redirected[at..at + |name| + 1] == name + ['\0'];
    ghost var front := dir + if slashRequired then "/" else "";
    assert redirected[..at] == front;
    ReplaceSlashes(redirected, at, name, front);
    StripsAll(file);
  }

  lemma StripsAll(file: string)
    ensures Slashes(file[Slashes(file)..]) == 0
    ensures file[..Slashes(file)] + file[Slashes(file)..] == file
  {
  }

  method StripSlashes(file: string) returns (name: string)
    ensures name == file[Slashes(file)..]
  {
    name := file;
    ghost var n := 0;
    while name != "" && name[0] == '/'
      invariant n <= |file| && name == file[n..] && forall i :: 0 <= i < n ==> file[i] == '/'
      decreases |name|
    {
      name := name[1..];
      n := n + 1;
    }
    SlashesIs(file, n);
  }

  lemma SlashesIs(path: string, n: nat)
    requires n <= |path| && (forall i :: 0 <= i < n ==> path[i] == '/') && (n < |path| ==> path[n] != '/')
    ensures Slashes(path) == n
  {
  }

  method SkipSlashes(buffer: array<char>, at: nat, name: string) returns (i: nat)
    requires at + |name| < buffer.Length && buffer[at..at + |name| + 1] == name + ['\0']
    ensures i == at + Slashes(name)
  {
    i := at;
    ghost var n := 0;
    while buffer[i] == '/'
      invariant n <= |name| && i == at + n && forall k :: 0 <= k < n ==> name[k] == '/'
      decreases |name| - n
    {
      assert buffer[at..at + |name| + 1][n] == (name + ['\0'])[n];
      i := i + 1;
      n := n + 1;
    }
    assert buffer[at..at + |name| + 1][n] == (name + ['\0'])[n];
    SlashesIs(name, n);
  }

  /** Slashes after the leading ones become dollars. */
  method ReplaceSlashes(buffer: array<char>, at: nat, name: string, ghost front: string)
    requires Terminated(name) && at + |name| < buffer.Length && |front| == at && buffer[..at] == front
    requires buffer[at..at + |name| + 1] == name + ['\0']
    modifies buffer
    ensures Holds(buffer, front + name[..Slashes(name)] + Dollars(name[Slashes(name)..]))
  {
    ghost var was := buffer[..];
    var i := SkipSlashes(buffer, at, name);
    ghost var n := i - at;
    assert forall k :: 0 <= k <= |name| ==> was[at + k] == (name + ['\0'])[k];
    while buffer[i] != '\0'
      invariant at + n <= i <= at + |name|
      invariant forall k :: 0 <= k < at + n ==> buffer[k] == was[k]
      invariant forall k :: at + n <= k < i ==> buffer[k] == Dollars(name[n..])[k - at - n]
      invariant forall k :: i <= k <= at + |name| ==> buffer[k] == was[k]
      decreases |name| + at - i
    {
      if buffer[i] == '/' {
        buffer[i] := '$';
      }
      i := i + 1;
    }
    assert i == at + |name|;
    ghost var r := front + name[..n] + Dollars(name[n..]);
    assert |r| == i;
    assert forall k :: 0 <= k < i ==> buffer[k] == r[k];
  }

  method ConvertToShadowAndThenRedirectedPath(path: string, dir: string, memory: bool, more: bool)
      returns (redirected: array?<char>)
    requires Terminated(path) && Terminated(dir)
    ensures redirected != null <==> memory && more
    ensures redirected != null ==> fresh(redirected) && Holds(redirected, Redirected(Shadow(path), dir))
  {
    var shadow := ConvertToShadowCopyPath(path, memory);
    if shadow == null {
      return null;
    }
    var s := ReadOut(shadow, Shadow(path));
    redirected := ConvertToRedirectedPath(s, dir, more);
  }

  /** The C string in a buffer. */
  method ReadOut(buffer: array<char>, ghost s: string) returns (r: string)
    requires Holds(buffer, s) && Terminated(s)
    ensures r == s
  {
    var n := 0;
    while buffer[n] != '\0'
      invariant 0 <= n <= |s|
      decreases |s| - n
    {
      n := n + 1;
    }
    assert buffer[..|s|] == s;
    r := buffer[..n];
  }

  // ----- shadow paths -----

  lemma ShadowName(path: string)
    requires !IsShadow(path)
    ensures NameStart(Shadow(path)) == NameStart(path)
    ensures Shadow(path)[NameStart(path)..] == SHADOW_PREFIX + path[NameStart(path)..]
    ensures IsShadow(Shadow(path))
  {
    var n := NameStart(path);
    var s := Shadow(path);
    assert s[n..] == SHADOW_PREFIX + path[n..];
    NameStartIs(s, n);
  }

  /** Which names count as shadow names: those that start with .QS_, the letters in either case. */
  lemma ShadowNames(name: string)
    ensures IsShadowName(name) <==>
              |name| >= 4 && name[0] == '.' && name[1] in {'Q', 'q'} && name[2] in {'S', 's'} && name[3] == '_'
    ensures SHADOW_PREFIX == ".QS_"
  {
    if |name| >= 4 {
      LowerIs(name[0], '.');
      LowerIs(name[1], 'q');
      LowerIs(name[2], 's');
      LowerIs(name[3], '_');
      assert Lower(SHADOW_PREFIX[1]) == 'q' && Lower(SHADOW_PREFIX[2]) == 's';
    }
  }

  lemma LowerIs(c: char, l: char)
    requires !('A' <= l <= 'Z')
    ensures Lower(c) == l <==> c == l || ('a' <= l <= 'z' && c == l - 32 as char)
  {
  }

  /** A shadow path is its own shadow path, and has no terminator of its own. */
  lemma ShadowIsIdempotent(path: string)
    ensures IsShadow(Shadow(path)) && Shadow(Shadow(path)) == Shadow(path)
    ensures Terminated(path) ==> Terminated(Shadow(path))
  {
    if !IsShadow(path) {
      ShadowName(path);
    }
  }

  /** The directory is kept, and the name has the prefix, which it had before or which is new. */
  lemma ShadowStaysInDirectory(path: string)
    ensures var n := NameStart(path);
            && Shadow(path)[..n] == path[..n] && NameStart(Shadow(path)) == n
            && Shadow(path)[n..] == if IsShadow(path) then path[n..] else SHADOW_PREFIX + path[n..]
  {
    if !IsShadow(path) {
      ShadowName(path);
    }
  }

  /** Two paths share a shadow path exactly when they are equal or one is the shadow path of the other. */
  lemma ShadowsCollide(p: string, q: string)
    ensures Shadow(p) == Shadow(q) <==> p == q || p == Shadow(q) || q == Shadow(p)
  {
    hide NameStart, IsShadow;
    ShadowIsIdempotent(p);
    ShadowIsIdempotent(q);
    if Shadow(p) == Shadow(q) && !IsShadow(p) && !IsShadow(q) {
      ShadowName(p);
      ShadowName(q);
      var n := NameStart(p);
      var s := Shadow(p);
      assert p == s[..n] + s[n + 4..];
      assert q == s[..n] + s[n + 4..];
    }
  }

  /** The path that a new shadow path was made of. */
  function Unshadowed(shadow: string): string {
    var n := NameStart(shadow);
    if n + 4 <= |shadow| then shadow[..n] + shadow[n + 4..] else shadow
  }

  lemma ShadowRoundTrip(path: string)
    requires !IsShadow(path)
    ensures Unshadowed(Shadow(path)) == path
  {
    hide NameStart, IsShadow;
    ShadowName(path);
    var n, s := NameStart(path), Shadow(path);
    assert s == path[..n] + (SHADOW_PREFIX + path[n..]);
    assert s[..n] == path[..n];
    assert s[n + 4..] == path[n..];
    assert path == path[..n] + path[n..];
  }

  // ----- redirected paths -----

  /** The redirected path is the directory, a slash and the name computed without a directory, exactly when the path is
      not empty and does not start with two slashes. */
  lemma RedirectedIsDirAndName(file: string, dir: string)
    requires dir != ""
    ensures Redirected(file, dir) == dir + "/" + Redirected(file, "")
            <==> file != "" && !(|file| >= 2 && file[0] == '/' && file[1] == '/')
  {
    hide Redirected, Dollars, Slashes;
    var n, name := Slashes(file), Dollars(file[Slashes(file)..]);
    RedirectedName(file);
    RedirectedSize(file, dir);
    SlashesAtMostOne(file);
    if n == 1 {
      assert file[..1] == "/";
    } else if n == 0 && file != "" {
      assert dir + "/" + file[..0] + name == dir + "/" + name;
    } else {
      assert |dir + "/" + name| == |dir| + 1 + |file| - n;
    }
  }

  lemma RedirectedName(file: string)
    ensures Redirected(file, "") == Dollars(file[Slashes(file)..])
  {
    assert "" + Dollars(file[Slashes(file)..]) == Dollars(file[Slashes(file)..]);
  }

  lemma RedirectedSize(file: string, dir: string)
    requires dir != ""
    ensures Redirected(file, dir) == dir + (if file != "" && Slashes(file) == 0 then "/" else "")
                                   + file[..Slashes(file)] + Dollars(file[Slashes(file)..])
    ensures |Redirected(file, dir)| == |dir| + |file| + if file != "" && Slashes(file) == 0 then 1 else 0
  {
  }

  lemma SlashesAtMostOne(file: string)
    ensures Slashes(file) <= 1 <==> !(|file| >= 2 && file[0] == '/' && file[1] == '/')
  {
  }

  /** One leading slash. */
  predicate Rooted(path: string) {
    path != "" && path[0] == '/' && (|path| >= 2 ==> path[1] != '/')
  }

  lemma RootedSlashes(path: string)
    requires Rooted(path)
    ensures Slashes(path) == 1 && path[..1] == "/" && path == "/" + path[1..]
  {
    SlashesIs(path, 1);
  }

  /** After the directory, the only slash of a redirected rooted path is the leading one. */
  lemma OneSlashAfterDirectory(path: string, dir: string)
    requires Rooted(path) && dir != ""
    ensures var r := Redirected(path, dir);
            && |r| == |dir| + |path| && r[..|dir|] == dir && r[|dir|] == '/'
            && forall i :: |dir| < i < |r| ==> r[i] != '/'
  {
    RootedSlashes(path);
    var r := Redirected(path, dir);
    assert r == dir + "/" + Dollars(path[1..]);
  }

  /** Maps dollars back to slashes. */
  function Slashed(name: string): (r: string)
    ensures |r| == |name| && forall i :: 0 <= i < |r| ==> r[i] == if name[i] == '$' then '/' else name[i]
  {
    seq(|name|, i requires 0 <= i < |name| => if name[i] == '$' then '/' else name[i])
  }

  /** Dropping the directory and mapping dollars back undoes redirection, exactly when the path has no dollar. */
  lemma RedirectedRoundTrip(path: string, dir: string)
    requires Rooted(path) && dir != ""
    ensures Slashed(Redirected(path, dir)[|dir|..]) == path <==> '$' !in path
  {
    RootedSlashes(path);
    var r := Redirected(path, dir);
    assert r == dir + "/" + Dollars(path[1..]);
    var back := Slashed(r[|dir|..]);
    assert |back| == |path|;
    assert forall i :: 1 <= i < |path| ==> back[i] == if path[i] == '$' then '/' else path[i] by {
      forall i | 1 <= i < |path| ensures back[i] == if path[i] == '$' then '/' else path[i] {
        assert r[|dir|..][i] == Dollars(path[1..])[i - 1];
        assert path[1..][i - 1] == path[i];
      }
    }
    if '$' in path {
      var i :| 0 <= i < |path| && path[i] == '$';
      assert back[i] == '/';
    }
  }

  /** Two rooted paths are redirected to the same file exactly when they differ at most in slashes against dollars. */
  lemma RedirectionsCollide(p: string, q: string, dir: string)
    requires Rooted(p) && Rooted(q) && dir != ""
    ensures Redirected(p, dir) == Redirected(q, dir) <==> Dollars(p) == Dollars(q)
  {
    RootedRedirected(p, dir);
    RootedRedirected(q, dir);
    FrontCancels(dir + "/", Dollars(p[1..]), Dollars(q[1..]));
    FrontCancels("$", Dollars(p[1..]), Dollars(q[1..]));
  }

  lemma FrontCancels(a: string, b: string, c: string)
    ensures a + b == a + c <==> b == c
  {
    assert (a + b)[|a|..] == b && (a + c)[|a|..] == c;
  }

  lemma RootedRedirected(path: string, dir: string)
    requires Rooted(path) && dir != ""
    ensures Redirected(path, dir) == (dir + "/") + Dollars(path[1..]) && Dollars(path) == "$" + Dollars(path[1..])
  {
    hide Slashes;
    RootedSlashes(path);
    assert dir + "" + "/" == dir + "/";
    assert Dollars(path) == "$" + Dollars(path[1..]);
  }

  /** Shadowing and redirecting loses nothing of a rooted path without dollars that is not a shadow path already. */
  lemma ShadowThenRedirectRoundTrip(path: string, dir: string)
    requires Rooted(path) && '$' !in path && !IsShadow(path) && dir != ""
    ensures Unshadowed(Slashed(Redirected(Shadow(path), dir)[|dir|..])) == path
  {
    ShadowIsRooted(path);
    RedirectedRoundTrip(Shadow(path), dir);
    ShadowRoundTrip(path);
  }

  lemma ShadowIsRooted(path: string)
    requires Rooted(path)
    ensures Rooted(Shadow(path)) && ('$' !in path ==> '$' !in Shadow(path))
  {
    assert path[0] in path && path[0..] == path;
  }

  /** For a rooted path the redirected shadow path is the directory, a slash and the name alone, as renaming needs. */
  lemma RenamedInDirectory(path: string, dir: string)
    requires Rooted(path) && dir != ""
    ensures Redirected(Shadow(path), dir) == dir + "/" + Redirected(Shadow(path), "")
  {
    ShadowIsRooted(path);
    RedirectedIsDirAndName(Shadow(path), dir);
  }

  lemma ShadowThenRedirectIsInjective(p: string, q: string, dir: string)
    requires Rooted(p) && '$' !in p && !IsShadow(p) && Rooted(q) && '$' !in q && !IsShadow(q) && dir != ""
    requires Redirected(Shadow(p), dir) == Redirected(Shadow(q), dir)
    ensures p == q
  {
    ShadowThenRedirectRoundTrip(p, dir);
    ShadowThenRedirectRoundTrip(q, dir);
  }
}
