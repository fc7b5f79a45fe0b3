/**
 The agent forest (services/onboarding/hierarchy.go, agents.go): walks over the
 stored parent links that terminate on any data, and the checked Attach that
 keeps the links a depth-capped forest with one tenant per tree.
 */
module Hierarchy {
  import opened Prelude

  const MAX_DEPTH := 3

  datatype Vetting = Pending | Approved | Suspended | Rejected

  /** `parent` is the empty string for a root. */
  datatype Agent = Agent(tenant: string, parent: string, vetting: Vetting)

  type Registry = map<string, Agent>

  // ---------------------------------------------------------------- links

  /** The agent `n` links above `id`; None past a root, a dangling link or an unknown id. */
  function Up(m: Registry, id: string, n: nat): Option<string>
    decreases n
  {
    if id !in m then None
    else if n == 0 then Some(id)
    else if m[id].parent == "" then None
    else Up(m, m[id].parent, n - 1)
  }

  /** `b` is `a` or one of its descendants. */
  ghost predicate Below(m: Registry, a: string, b: string)
  {
    exists n: nat :: Up(m, b, n) == Some(a)
  }

  ghost predicate RootedAt(m: Registry, id: string, depth: nat)
  {
    Up(m, id, depth).Some? && Up(m, id, depth).value in m && m[Up(m, id, depth).value].parent == ""
  }

  /** The parent link, if any, names a stored agent of the same tenant. */
  predicate LinkOk(m: Registry, id: string)
  {
    id in m && m[id].parent != "" ==> m[id].parent in m && m[m[id].parent].tenant == m[id].tenant
  }

  /** The agent is at most MAX_DEPTH links below a root. */
  ghost predicate Capped(m: Registry, id: string)
  {
    id in m ==> exists d: nat :: d <= MAX_DEPTH && RootedAt(m, id, d)
  }

  /** No dangling parents, no cycles, one tenant per tree, depth within the cap. */
  ghost predicate Forest(m: Registry)
  {
    "" !in m && (forall id :: LinkOk(m, id)) && (forall id :: Capped(m, id))
  }

  lemma {:induction false} UpThen(m: Registry, id: string, i: nat, j: nat)
    requires Up(m, id, i).Some?
    ensures Up(m, id, i + j) == Up(m, Up(m, id, i).value, j)
    decreases i
  {
    if i > 0 { UpThen(m, m[id].parent, i - 1, j); }
  }

  lemma {:induction false} UpInside(m: Registry, id: string, i: nat)
    requires Up(m, id, i).Some?
    ensures Up(m, id, i).value in m && id in m
    decreases i
  {
    if i > 0 { UpInside(m, m[id].parent, i - 1); }
  }

  /** A root ends every walk: nothing lies above it. */
  lemma {:induction false} NothingAboveRoot(m: Registry, id: string, d: nat, n: nat)
    requires RootedAt(m, id, d) && n > d
    ensures Up(m, id, n).None?
  {
    UpThen(m, id, d, n - d);
  }

  lemma {:induction false} DepthUnique(m: Registry, id: string, d: nat, e: nat)
    requires RootedAt(m, id, d) && RootedAt(m, id, e)
    ensures d == e
  {
    if d < e { NothingAboveRoot(m, id, d, e); }
    if e < d { NothingAboveRoot(m, id, e, d); }
  }

  /** An agent with a root above it is on no cycle. */
  lemma {:induction false} NoCycle(m: Registry, id: string, d: nat, n: nat)
    requires RootedAt(m, id, d) && Up(m, id, n) == Some(id)
    ensures n == 0
  {
    if n > 0 {
      Cycle(m, id, n, d + 1);
      NothingAboveRoot(m, id, d, n * (d + 1));
    }
  }

  lemma {:induction false} Cycle(m: Registry, id: string, n: nat, k: nat)
    requires Up(m, id, n) == Some(id) && n > 0
    ensures Up(m, id, n * k) == Some(id) && n * k >= k
    decreases k
  {
    if k > 0 {
      Cycle(m, id, n, k - 1);
      UpThen(m, id, n * (k - 1), n);
      assert n * (k - 1) + n == n * k;
    } else {
      UpInside(m, id, n);
    }
  }

  /** On a forest, two agents are below each other only if they are the same. */
  lemma {:induction false} ForestAntisymmetric(m: Registry, a: string, b: string)
    requires Forest(m) && Below(m, a, b) && Below(m, b, a)
    ensures a == b
  {
    var n: nat :| Up(m, b, n) == Some(a);
    var k: nat :| Up(m, a, k) == Some(b);
    UpThen(m, b, n, k);
    UpInside(m, b, n);
    assert Capped(m, b);
    var d: nat :| d <= MAX_DEPTH && RootedAt(m, b, d);
    NoCycle(m, b, d, n + k);
  }

  /** One tenant per tree. */
  lemma {:induction false} OneTenant(m: Registry, a: string, b: string, n: nat)
    requires Forest(m) && Up(m, b, n) == Some(a)
    ensures a in m && b in m && m[a].tenant == m[b].tenant
    decreases n
  {
    assert LinkOk(m, b);
    if n > 0 { OneTenant(m, a, m[b].parent, n - 1); }
  }

  // ---------------------------------------------------------------- walks

  predicate NoDuplicates<T(==)>(s: seq<T>)
  {
    forall i, j :: 0 <= i < j < |s| ==> s[i] != s[j]
  }

  /** ChildrenOf: the agents whose parent link names `id`, each once. */
  method ChildrenOf(m: Registry, id: string) returns (out: seq<string>)
    ensures NoDuplicates(out)
    ensures forall y :: y in out <==> y in m && m[y].parent == id
  {
    out := [];
    var todo := m.Keys;
    while todo != {}
      invariant todo <= m.Keys
      invariant NoDuplicates(out)
      invariant forall y :: y in out <==> y in m && m[y].parent == id && y !in todo
      decreases |todo|
    {
      var y :| y in todo;
      if m[y].parent == id { out := out + [y]; }
      todo := todo - {y};
    }
  }

  lemma {:induction false} SizeWithin(s: seq<string>, all: set<string>)
    requires NoDuplicates(s) && forall x :: x in s ==> x in all
    ensures |s| <= |all|
    decreases s
  {
    if s != [] {
      var last := s[|s| - 1];
      assert last !in s[..|s| - 1];
      SizeWithin(s[..|s| - 1], all - {last});
    }
  }

  /** A set closed under children and holding `a` holds everything below `a`. */
  lemma {:induction false} ClosedHoldsBelow(m: Registry, a: string, out: seq<string>, y: string, n: nat)
    requires a in out && Up(m, y, n) == Some(a)
    requires forall x, c :: x in out && c in m && m[c].parent == x && x != "" ==> c in out
    requires "" !in m
    ensures y in out
    decreases n
  {
    if n > 0 {
      ClosedHoldsBelow(m, a, out, m[y].parent, n - 1);
    }
  }

  /**
   subtreeOf: breadth-first over children with a visited set. For any stored
   links, cycles included, it terminates with exactly the agents below `id`,
   each once.
   */
  method SubtreeOf(m: Registry, id: string) returns (ok: bool, out: seq<string>)
    requires "" !in m
    ensures ok == (id in m)
    ensures ok ==> |out| > 0 && out[0] == id && NoDuplicates(out) && forall y :: y in out <==> Below(m, id, y)
  {
    out := [];
    if id !in m { return false, out; }
    ok, out := true, [id];
    var visited, queue := {id}, [id];
    assert Up(m, id, 0) == Some(id);
    while |queue| > 0
      invariant |out| > 0 && out[0] == id && NoDuplicates(out)
      invariant forall y :: y in out <==> y in visited
      invariant forall y :: y in out ==> y in m && Below(m, id, y)
      invariant forall x :: x in queue ==> x in out
      invariant forall x, c :: x in out && x !in queue && c in m && m[c].parent == x ==> c in out
      invariant |out| <= |m.Keys|
      decreases |m.Keys| - |out|, |queue|
    {
      var cur := queue[0];
      assert forall x :: x in queue ==> x == cur || x in queue[1..];
      queue := queue[1..];
      var children := ChildrenOf(m, cur);
      ghost var before, rest := |out|, queue;
      for i := 0 to |children|
        invariant |out| > 0 && out[0] == id && NoDuplicates(out)
        invariant forall y :: y in out <==> y in visited
        invariant forall y :: y in out ==> y in m && Below(m, id, y)
        invariant forall x :: x in queue ==> x in out
        invariant cur in out && cur in m && Below(m, id, cur)
        invariant forall x, c :: x in out && x !in queue && x != cur && c in m && m[c].parent == x ==> c in out
        invariant forall j :: 0 <= j < i ==> children[j] in out
        invariant |out| >= before && (|out| == before ==> queue == rest)
      {
        var ch := children[i];
        if ch !in visited {
          BelowChild(m, id, cur, ch);
          visited := visited + {ch};
          out := out + [ch];
          queue := queue + [ch];
        }
      }
      SizeWithin(out, m.Keys);
    }
    forall y | Below(m, id, y) ensures y in out {
      var n: nat :| Up(m, y, n) == Some(id);
      ClosedHoldsBelow(m, id, out, y, n);
    }
  }

  lemma {:induction false} BelowChild(m: Registry, a: string, x: string, c: string)
    requires Below(m, a, x) && c in m && m[c].parent == x && x != ""
    ensures Below(m, a, c)
  {
    var n: nat :| Up(m, x, n) == Some(a);
    assert Up(m, c, n + 1) == Some(a);
  }

  // ---------------------------------------------------------------- depth and ancestors

  datatype DepthResult = Depth(links: nat) | CycleSuspected | NotFound

  /** The walk up from `id` ends after `n` links: at a root, or with a last link to an agent that is not stored. */
  ghost predicate EndsAt(m: Registry, id: string, n: nat)
  {
    RootedAt(m, id, n) || (n > 0 && Dangles(m, id, n - 1))
  }

  ghost predicate Dangles(m: Registry, id: string, n: nat)
  {
    && Up(m, id, n).Some? && Up(m, id, n).value in m
    && m[Up(m, id, n).value].parent != "" && m[Up(m, id, n).value].parent !in m
  }

  /** A walk that gets `n` links up, and on from there, has not ended by then. */
  lemma {:induction false} NotEnded(m: Registry, id: string, n: nat, e: nat)
    requires e <= n && Up(m, id, n).Some? && Up(m, id, n).value in m && m[Up(m, id, n).value].parent != ""
    ensures !EndsAt(m, id, e)
  {
    if RootedAt(m, id, e) && e < n { NothingAboveRoot(m, id, e, n); }
    if e > 0 && Dangles(m, id, e - 1) { UpThen(m, id, e - 1, n - (e - 1)); }
  }

  /** A walk that meets an agent twice never ends. */
  lemma {:induction false} NeverEnds(m: Registry, id: string, k: nat, n: nat, e: nat)
    requires k < n && Up(m, id, k).Some? && Up(m, id, n) == Up(m, id, k)
    ensures !EndsAt(m, id, e)
  {
    var x := Up(m, id, k).value;
    UpThen(m, id, k, n - k);
    Cycle(m, x, n - k, e + 1);
    var far := (n - k) * (e + 1);
    UpThen(m, id, k, far);
    if EndsAt(m, id, e) {
      if RootedAt(m, id, e) {
        NothingAboveRoot(m, id, e, k + far);
      } else {
        UpThen(m, id, e - 1, k + far - (e - 1));
      }
    }
  }

  /**
   depthOf, on any stored links: the number of links to the end of the walk if
   that is at most MAX_DEPTH + 1, and a suspected cycle otherwise.
   */
  method DepthOf(m: Registry, id: string) returns (r: DepthResult)
    ensures r == NotFound <==> id !in m
    ensures forall n: nat :: r == Depth(n) <==> n <= MAX_DEPTH + 1 && EndsAt(m, id, n)
  {
    if id !in m { return NotFound; }
    var depth, cur, seen := 0, id, {id};
    while m[cur].parent != ""
      invariant cur in m && Up(m, id, depth) == Some(cur) && depth <= MAX_DEPTH + 1
      invariant forall x :: x in seen ==> exists k: nat :: k <= depth && Up(m, id, k) == Some(x)
      decreases MAX_DEPTH + 1 - depth
    {
      ghost var below := depth;
      depth := depth + 1;
      UpThen(m, id, below, 1);
      forall e: nat | e <= below ensures !EndsAt(m, id, e) { NotEnded(m, id, below, e); }
      if depth > MAX_DEPTH + 1 {
        return CycleSuspected;
      }
      var up := m[cur].parent;
      if up !in m {
        assert Dangles(m, id, below);
        EndUnique(m, id, depth);
        return Depth(depth);
      }
      assert Up(m, id, depth) == Some(up);
      if up in seen {
        ghost var k: nat :| k < depth && Up(m, id, k) == Some(up);
        forall e: nat ensures !EndsAt(m, id, e) { NeverEnds(m, id, k, depth, e); }
        return CycleSuspected;
      }
      seen := seen + {up};
      cur := up;
    }
    r := Depth(depth);
    assert RootedAt(m, id, depth);
    EndUnique(m, id, depth);
  }

  /** A walk ends once. */
  lemma {:induction false} EndUnique(m: Registry, id: string, n: nat)
    requires EndsAt(m, id, n)
    ensures forall e: nat :: EndsAt(m, id, e) ==> e == n
  {
    forall e: nat | EndsAt(m, id, e) ensures e == n { EndsBefore(m, id, n, e); EndsBefore(m, id, e, n); }
  }

  lemma {:induction false} EndsBefore(m: Registry, id: string, n: nat, e: nat)
    requires EndsAt(m, id, n) && EndsAt(m, id, e)
    ensures n <= e
  {
    if e < n {
      var last := if RootedAt(m, id, n) then n else n - 1;
      if RootedAt(m, id, e) && e < last {
        NothingAboveRoot(m, id, e, last);
      } else if !RootedAt(m, id, e) {
        UpThen(m, id, e - 1, last - (e - 1));
      }
    }
  }

  /** On a forest every walk ends at a root, within the cap. */
  lemma {:induction false} EndsAtRoot(m: Registry, id: string) returns (d: nat)
    requires Forest(m) && id in m
    ensures d <= MAX_DEPTH && RootedAt(m, id, d) && forall e: nat :: EndsAt(m, id, e) <==> e == d
  {
    assert Capped(m, id);
    d :| d <= MAX_DEPTH && RootedAt(m, id, d);
    EndUnique(m, id, d);
  }

  lemma {:induction false} DepthWithin(m: Registry, id: string, n: nat)
    requires Forest(m) && RootedAt(m, id, n)
    ensures n <= MAX_DEPTH
  {
    UpInside(m, id, n);
    assert Capped(m, id);
    var d: nat :| d <= MAX_DEPTH && RootedAt(m, id, d);
    DepthUnique(m, id, n, d);
  }

  lemma {:induction false} TooDeep(m: Registry, id: string, n: nat)
    requires Forest(m) && Up(m, id, n).Some?
    ensures n <= MAX_DEPTH
  {
    UpInside(m, id, n);
    assert Capped(m, id);
    var d: nat :| d <= MAX_DEPTH && RootedAt(m, id, d);
    if n > d { NothingAboveRoot(m, id, d, n); }
  }

  /** On a forest a walk upwards meets an agent at most once. */
  lemma {:induction false} MeetsOnce(m: Registry, id: string, k: nat, n: nat, x: string)
    requires Forest(m) && k <= n && Up(m, id, k) == Some(x) && Up(m, id, n) == Some(x)
    ensures k == n
  {
    UpThen(m, id, k, n - k);
    UpInside(m, id, k);
    assert Capped(m, x);
    var d: nat :| d <= MAX_DEPTH && RootedAt(m, x, d);
    NoCycle(m, x, d, n - k);
  }

  /** Among the first `n` links up from `id` an agent is met twice. */
  ghost predicate Repeats(m: Registry, id: string, n: nat)
  {
    exists i: nat, j: nat :: i < j <= n && Up(m, id, i).Some? && Up(m, id, i) == Up(m, id, j)
  }

  /**
   Ancestors, on any stored links: the upline, parent first, up to the end of the
   walk or MAX_DEPTH links; an error for an unknown agent or a repeated one.
   */
  method Ancestors(m: Registry, id: string) returns (ok: bool, out: seq<string>)
    ensures ok <==> id in m && !Repeats(m, id, MAX_DEPTH)
    ensures ok ==> |out| <= MAX_DEPTH && forall i: nat :: i < |out| ==> Up(m, id, i + 1) == Some(out[i])
    ensures ok ==> |out| == MAX_DEPTH || Up(m, id, |out| + 1).None?
    ensures Forest(m) && id in m ==> ok && RootedAt(m, id, |out|)
  {
    out := [];
    if id !in m { return false, []; }
    var cur, seen := id, {id};
    while m[cur].parent != "" && |out| < MAX_DEPTH
      invariant |out| <= MAX_DEPTH && cur in m && Up(m, id, |out|) == Some(cur)
      invariant forall i: nat :: i < |out| ==> Up(m, id, i + 1) == Some(out[i])
      invariant forall x :: x in seen <==> x == id || x in out
      invariant !Repeats(m, id, |out|)
    {
      var up := m[cur].parent;
      UpThen(m, id, |out|, 1);
      if up !in m { break; }
      assert Up(m, id, |out| + 1) == Some(up);
      if up in seen {
        ghost var k := Position(m, id, out, up);
        assert Repeats(m, id, MAX_DEPTH);
        if Forest(m) { MeetsOnce(m, id, k, |out| + 1, up); }
        return false, [];
      }
      NoRepeatYet(m, id, out, up);
      seen := seen + {up};
      out := out + [up];
      cur := up;
    }
    ok := true;
    UpThen(m, id, |out|, 1);
    if Up(m, id, |out| + 1).None? { NoRepeatAfter(m, id, |out|); }
    if Forest(m) && m[cur].parent != "" {
      assert LinkOk(m, cur);
      TooDeep(m, id, |out| + 1);
    }
  }

  lemma {:induction false} Position(m: Registry, id: string, out: seq<string>, x: string) returns (k: nat)
    requires id in m && (x == id || x in out) && forall i: nat :: i < |out| ==> Up(m, id, i + 1) == Some(out[i])
    ensures k <= |out| && Up(m, id, k) == Some(x)
  {
    if x == id {
      k := 0;
    } else {
      var i: nat :| i < |out| && out[i] == x;
      k := i + 1;
    }
  }

  lemma {:induction false} NoRepeatYet(m: Registry, id: string, out: seq<string>, up: string)
    requires id in m && up != id && up !in out && Up(m, id, |out| + 1) == Some(up) && !Repeats(m, id, |out|)
    requires forall i: nat :: i < |out| ==> Up(m, id, i + 1) == Some(out[i])
    ensures !Repeats(m, id, |out| + 1)
  {
    forall i: nat | i <= |out| ensures Up(m, id, i) != Some(up) {
      if i > 0 { assert Up(m, id, (i - 1) + 1) == Some(out[i - 1]); }
    }
  }

  lemma {:induction false} NoRepeatAfter(m: Registry, id: string, n: nat)
    requires !Repeats(m, id, n) && Up(m, id, n).Some? && Up(m, id, n + 1).None?
    ensures !Repeats(m, id, MAX_DEPTH)
  {
    forall j: nat | j > n ensures Up(m, id, j).None? {
      UpThen(m, id, n, 1);
      UpThen(m, id, n, j - n);
      if j > n + 1 && Up(m, id, j).Some? { UpShorter(m, id, n + 1, j); }
    }
  }

  lemma {:induction false} UpShorter(m: Registry, id: string, n: nat, k: nat)
    requires n <= k && Up(m, id, k).Some?
    ensures Up(m, id, n).Some?
    decreases n
  {
    if n > 0 { UpShorter(m, m[id].parent, n - 1, k - 1); }
  }

  /** On a forest, `b` is in Subtree(a) exactly when `a` is `b` or in Ancestors(b). */
  lemma {:induction false} SubtreeIffAncestor(m: Registry, a: string, b: string, ancestors: seq<string>)
    requires Forest(m) && b in m && RootedAt(m, b, |ancestors|)
    requires forall i: nat :: i < |ancestors| ==> Up(m, b, i + 1) == Some(ancestors[i])
    ensures Below(m, a, b) <==> a == b || a in ancestors
  {
    if Below(m, a, b) {
      var n: nat :| Up(m, b, n) == Some(a);
      if n > |ancestors| { NothingAboveRoot(m, b, |ancestors|, n); }
      if n > 0 { assert ancestors[n - 1] == a; }
    }
    if a == b { assert Up(m, b, 0) == Some(a); }
    if a in ancestors {
      var i: nat :| i < |ancestors| && ancestors[i] == a;
      assert Up(m, b, i + 1) == Some(a);
    }
  }

  /** InSubtree: the authorisation check of hierarchy-scoped reads and writes. */
  method InSubtree(m: Registry, id: string, candidate: string) returns (inside: bool)
    requires "" !in m
    ensures inside <==> id == candidate || Below(m, id, candidate)
  {
    if id == candidate { return true; }
    var ok, sub := SubtreeOf(m, id);
    if !ok {
      if Below(m, id, candidate) {
        var n: nat :| Up(m, candidate, n) == Some(id);
        UpInside(m, candidate, n);
      }
      return false;
    }
    inside := candidate in sub;
  }

  // ---------------------------------------------------------------- height

  /** Some agent is exactly `n` links below `id`. */
  ghost predicate Reaches(m: Registry, id: string, n: nat)
  {
    exists y :: Up(m, y, n) == Some(id)
  }

  /** Every agent below `id` is fewer than `h` links below it. */
  ghost predicate Shallow(m: Registry, id: string, h: nat)
  {
    forall y, n: nat :: Up(m, y, n) == Some(id) ==> n < h
  }

  /** `h` is the length of the longest chain of links ending in `id`. */
  ghost predicate IsHeight(m: Registry, id: string, h: nat)
  {
    Reaches(m, id, h) && Shallow(m, id, h + 1)
  }

  lemma {:induction false} TopLink(m: Registry, y: string, n: nat, id: string)
    requires Up(m, y, n) == Some(id) && n > 0
    ensures exists c :: c in m && m[c].parent == id && id != "" && Up(m, y, n - 1) == Some(c)
    decreases n
  {
    if n > 1 {
      TopLink(m, m[y].parent, n - 1, id);
    } else {
      assert Up(m, y, 0) == Some(y);
    }
  }

  /** No agent below `id` meets itself on its way up. */
  ghost predicate Acyclic(m: Registry, id: string)
  {
    forall x, n: nat :: Below(m, id, x) && Up(m, x, n) == Some(x) ==> n == 0
  }

  lemma {:induction false} ForestAcyclic(m: Registry, id: string)
    requires Forest(m)
    ensures Acyclic(m, id)
  {
    forall x, n: nat | Below(m, id, x) && Up(m, x, n) == Some(x) ensures n == 0 {
      UpInside(m, x, n);
      assert Up(m, x, 0) == Some(x);
      MeetsOnce(m, x, 0, n, x);
    }
  }

  /** The walk is on clean data: no cycle below `id`, nothing on the path below it, and the listing holds all of it. */
  ghost predicate Clean(m: Registry, sub: seq<string>, id: string, onPath: set<string>)
  {
    && "" !in m && Acyclic(m, id) && id in m && id !in onPath
    && (forall z :: z in onPath ==> Below(m, z, id))
    && (forall x :: Below(m, id, x) ==> x in sub)
  }

  /**
   subtreeHeight's recursion. It terminates on any links, because a repeated
   agent cuts the path, and without cycles below `id` it returns the exact height.
   */
  method Walk(m: Registry, sub: seq<string>, id: string, onPath: set<string>) returns (h: nat)
    requires onPath <= (set x | x in sub) && forall x :: x in sub ==> x in m
    requires id in sub
    ensures Clean(m, sub, id, onPath) ==> IsHeight(m, id, h)
    decreases |(set x | x in sub) - onPath|
  {
    hide Below, Acyclic, Reaches, Shallow;
    if id in onPath { return 0; }
    var path := onPath + {id};
    PathGrows(sub, onPath, id);
    h := 0;
    ghost var clean := Clean(m, sub, id, onPath);
    if clean { ReachesSelf(m, id); }
    for i := 0 to |sub|
      invariant clean ==> Reaches(m, id, h)
      invariant clean ==> forall j :: 0 <= j < i ==> m[sub[j]].parent == id ==> Shallow(m, sub[j], h)
    {
      if m[sub[i]].parent == id && id != "" {
        if clean { ChildClean(m, sub, id, sub[i], onPath); }
        var d := Walk(m, sub, sub[i], path);
        if clean { ChildHeight(m, id, sub[i], d, d + 1); }
        if clean { ChildrenShallow(m, sub, id, i, h, d + 1); }
        if d + 1 > h { h := d + 1; }
      }
    }
    if clean { HeightFromChildren(m, sub, id, h); }
  }

  lemma {:induction false} ReachesSelf(m: Registry, id: string)
    requires id in m
    ensures Reaches(m, id, 0)
  {
    assert Up(m, id, 0) == Some(id);
  }

  /** One more child is shallow under the larger of the two bounds. */
  lemma {:induction false} ChildrenShallow(m: Registry, sub: seq<string>, id: string, i: nat, h: nat, k: nat)
    requires i < |sub| && (forall x :: x in sub ==> x in m) && Shallow(m, sub[i], k)
    requires forall j :: 0 <= j < i ==> m[sub[j]].parent == id ==> Shallow(m, sub[j], h)
    ensures forall j :: 0 <= j <= i ==> m[sub[j]].parent == id ==> Shallow(m, sub[j], if k > h then k else h)
  {
    forall j | 0 <= j <= i && m[sub[j]].parent == id ensures Shallow(m, sub[j], if k > h then k else h) {
      ShallowGrows(m, sub[j], if j < i then h else k, if k > h then k else h);
    }
  }

  lemma {:induction false} ShallowGrows(m: Registry, id: string, h: nat, k: nat)
    requires Shallow(m, id, h) && h <= k
    ensures Shallow(m, id, k)
  {
  }

  lemma {:induction false} HeightFromChildren(m: Registry, sub: seq<string>, id: string, h: nat)
    requires Reaches(m, id, h) && (forall x :: Below(m, id, x) ==> x in sub) && (forall x :: x in sub ==> x in m) && id in m
    requires forall j :: 0 <= j < |sub| ==> m[sub[j]].parent == id ==> Shallow(m, sub[j], h)
    ensures IsHeight(m, id, h)
  {
    forall y, n: nat | Up(m, y, n) == Some(id) ensures n < h + 1 {
      if n > 0 {
        TopLink(m, y, n, id);
        var c :| c in m && m[c].parent == id && id != "" && Up(m, y, n - 1) == Some(c);
        assert Up(m, c, 1) == Some(id);
        assert Below(m, id, c) && c in sub;
        var j :| 0 <= j < |sub| && sub[j] == c;
        assert Shallow(m, c, h);
      }
    }
  }

  lemma {:induction false} PathGrows(sub: seq<string>, onPath: set<string>, id: string)
    requires id in sub && id !in onPath
    ensures |(set x | x in sub) - (onPath + {id})| < |(set x | x in sub) - onPath|
  {
    var all := set x | x in sub;
    assert id in all - onPath && id !in all - (onPath + {id});
    CardinalityDrops(all - (onPath + {id}), all - onPath);
  }

  lemma {:induction false} CardinalityDrops(a: set<string>, b: set<string>)
    requires a < b
    ensures |a| < |b|
  {
    assert b == a + (b - a) && b - a != {};
  }

  lemma {:induction false} ChildHeight(m: Registry, id: string, c: string, d: nat, e: nat)
    requires c in m && m[c].parent == id && id != "" && id in m && Reaches(m, c, d) && e == d + 1
    ensures Reaches(m, id, e)
  {
    var y :| Up(m, y, d) == Some(c);
    UpThen(m, y, d, 1);
    assert Up(m, c, 1) == Some(id);
    assert Up(m, y, e) == Some(id);
  }

  lemma {:induction false} ChildClean(m: Registry, sub: seq<string>, id: string, c: string, onPath: set<string>)
    requires Clean(m, sub, id, onPath) && c in m && m[c].parent == id && id != ""
    ensures Clean(m, sub, c, onPath + {id})
  {
    assert Up(m, c, 1) == Some(id);
    assert Below(m, id, c);
    forall z | z in onPath + {id} ensures Below(m, z, c) && z != c {
      if z != id { BelowTrans(m, z, id, c); }
      assert Up(m, id, 0) == Some(id);
      var n: nat :| Up(m, id, n) == Some(z);
      UpThen(m, c, 1, n);
    }
    forall x | Below(m, c, x) ensures x in sub && Below(m, id, x) { BelowTrans(m, id, c, x); }
  }

  lemma {:induction false} BelowTrans(m: Registry, a: string, b: string, c: string)
    requires Below(m, a, b) && Below(m, b, c)
    ensures Below(m, a, c)
  {
    var n: nat :| Up(m, b, n) == Some(a);
    var k: nat :| Up(m, c, k) == Some(b);
    UpThen(m, c, k, n);
  }
}
