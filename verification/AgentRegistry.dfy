/** Registration, vetting and Attach (services/onboarding/agents.go, hierarchy.go) over the agent links. */
module AgentRegistries {
  import opened Prelude
  import opened Hierarchy

  // ---------------------------------------------------------------- relinking

  /** The registry with the parent link of `child` rewritten. */
  function Relink(m: Registry, child: string, parent: string): Registry
    requires child in m
  {
    m[child := m[child].(parent := parent)]
  }

  /** What Attach demands: stated on the links as they are before the move. */
  ghost predicate Attachable(m: Registry, child: string, parent: string)
  {
    && child in m
    && (parent != "" ==>
          && parent in m && m[child].tenant == m[parent].tenant && !Below(m, child, parent)
          && exists d: nat, h: nat :: RootedAt(m, parent, d) && IsHeight(m, child, h) && d + 1 + h <= MAX_DEPTH)
  }

  /** Walks that do not pass through `child` before their last step are unchanged. */
  lemma {:induction false} UpUnchanged(m: Registry, child: string, parent: string, y: string, n: nat)
    requires child in m && forall k: nat :: k < n ==> Up(m, y, k) != Some(child)
    ensures Up(Relink(m, child, parent), y, n) == Up(m, y, n)
    decreases n
  {
    if n > 0 && y in m {
      assert Up(m, y, 0) == Some(y);
      if m[y].parent != "" {
        forall k: nat | k < n - 1 ensures Up(m, m[y].parent, k) != Some(child) {
          assert Up(m, y, k + 1) == Up(m, m[y].parent, k);
        }
        UpUnchanged(m, child, parent, m[y].parent, n - 1);
      }
    }
  }

  /** Outside the subtree of `child` nothing moves. */
  lemma {:induction false} OutsideUnchanged(m: Registry, child: string, parent: string, y: string, n: nat)
    requires child in m && !Below(m, child, y)
    ensures Up(Relink(m, child, parent), y, n) == Up(m, y, n)
  {
    UpUnchanged(m, child, parent, y, n);
  }

  /** Inside the subtree the walk up to `child` is unchanged. */
  lemma {:induction false} InsideUnchanged(m: Registry, child: string, parent: string, y: string, n: nat)
    requires Forest(m) && child in m && Up(m, y, n) == Some(child)
    ensures Up(Relink(m, child, parent), y, n) == Some(child)
  {
    forall k: nat | k < n ensures Up(m, y, k) != Some(child) {
      if Up(m, y, k) == Some(child) { MeetsOnce(m, y, k, n, child); }
    }
    UpUnchanged(m, child, parent, y, n);
  }

  lemma {:induction false} OutsideRooted(m: Registry, child: string, parent: string, y: string, d: nat)
    requires child in m && !Below(m, child, y) && RootedAt(m, y, d)
    ensures RootedAt(Relink(m, child, parent), y, d)
  {
    OutsideUnchanged(m, child, parent, y, d);
    assert Up(m, y, d) != Some(child);
  }

  /** An agent `k` links below a child moved under a parent at depth `d` ends up at depth `k + 1 + d`. */
  lemma {:induction false} MovedRooted(m: Registry, child: string, parent: string, y: string, k: nat, d: nat)
    requires Forest(m) && child in m && parent != "" && parent in m && !Below(m, child, parent)
    requires Up(m, y, k) == Some(child) && RootedAt(m, parent, d)
    ensures RootedAt(Relink(m, child, parent), y, k + (1 + d))
  {
    var m' := Relink(m, child, parent);
    InsideUnchanged(m, child, parent, y, k);
    OutsideRooted(m, child, parent, parent, d);
    UpThen(m', y, k, 1 + d);
    assert Up(m', child, 1 + d) == Up(m', parent, d);
  }

  lemma {:induction false} DetachedRooted(m: Registry, child: string, y: string, k: nat)
    requires Forest(m) && child in m && Up(m, y, k) == Some(child)
    ensures RootedAt(Relink(m, child, ""), y, k) && k <= MAX_DEPTH
  {
    InsideUnchanged(m, child, "", y, k);
    TooDeep(m, y, k);
  }

  lemma {:induction false} LinksStay(m: Registry, child: string, parent: string)
    requires Forest(m) && child in m && (parent == "" || (parent in m && m[parent].tenant == m[child].tenant))
    ensures "" !in Relink(m, child, parent) && forall id :: LinkOk(Relink(m, child, parent), id)
  {
    var m' := Relink(m, child, parent);
    forall id ensures LinkOk(m', id) { assert LinkOk(m, id); }
  }

  /** Attach keeps the forest. */
  lemma {:induction false} AttachKeepsForest(m: Registry, child: string, parent: string)
    requires Forest(m) && Attachable(m, child, parent)
    ensures Forest(Relink(m, child, parent))
  {
    var m' := Relink(m, child, parent);
    LinksStay(m, child, parent);
    forall y ensures Capped(m', y) {
      if y in m' {
        assert Capped(m, y);
        if Below(m, child, y) {
          var k: nat :| Up(m, y, k) == Some(child);
          if parent == "" {
            DetachedRooted(m, child, y, k);
          } else {
            var d: nat, h: nat :| RootedAt(m, parent, d) && IsHeight(m, child, h) && d + 1 + h <= MAX_DEPTH;
            MovedRooted(m, child, parent, y, k, d);
            assert k <= h;
          }
        } else {
          var d: nat :| d <= MAX_DEPTH && RootedAt(m, y, d);
          OutsideRooted(m, child, parent, y, d);
        }
      }
    }
  }

  /** Every agent on a forest has a height within the cap. */
  lemma {:induction false} HeightExists(m: Registry, id: string, h: nat) returns (top: nat)
    requires Forest(m) && id in m && Reaches(m, id, h)
    ensures IsHeight(m, id, top)
    decreases MAX_DEPTH + 1 - h
  {
    var y :| Up(m, y, h) == Some(id);
    TooDeep(m, y, h);
    if Shallow(m, id, h + 1) {
      top := h;
    } else {
      var z, n: nat :| Up(m, z, n) == Some(id) && n >= h + 1;
      TooDeep(m, z, n);
      assert Reaches(m, id, n);
      top := HeightExists(m, id, n);
    }
  }

  /**
   The checks of Attach are exact: it accepts a link precisely when rewriting it
   leaves a forest.
   */
  lemma {:induction false} AttachExact(m: Registry, child: string, parent: string)
    requires Forest(m) && child in m
    ensures Forest(Relink(m, child, parent)) <==> Attachable(m, child, parent)
  {
    var m' := Relink(m, child, parent);
    if Attachable(m, child, parent) {
      AttachKeepsForest(m, child, parent);
    } else if Forest(m') && parent != "" {
      assert LinkOk(m', child);
      if Below(m, child, parent) {
        var k: nat :| Up(m, parent, k) == Some(child);
        InsideUnchanged(m, child, parent, parent, k);
        UpThen(m', parent, k, 1);
        assert Up(m', parent, 0) == Some(parent);
        assert Up(m', parent, k + 1) == Some(parent);
        MeetsOnce(m', parent, 0, k + 1, parent);
      }
      assert Up(m, child, 0) == Some(child) && Reaches(m, child, 0);
      var h := HeightExists(m, child, 0);
      var y :| Up(m, y, h) == Some(child);
      assert Capped(m, parent);
      var d: nat :| d <= MAX_DEPTH && RootedAt(m, parent, d);
      MovedRooted(m, child, parent, y, h, d);
      DepthWithin(m', y, h + (1 + d));
      assert false;
    }
  }

  // ---------------------------------------------------------------- runs

  datatype Op =
    | DoRegister(id: string, tenant: string)
    | DoVetting(id: string, to: Vetting)
    | DoAttach(child: string, parent: string)

  /** agentVettingTransitions. */
  predicate MayVet(from: Vetting, to: Vetting)
  {
    match from
    case Pending => to in {Approved, Rejected}
    case Approved => to == Suspended
    case Suspended => to in {Approved, Rejected}
    case Rejected => to == Pending
  }

  function Enrol(m: Registry, id: string, tenant: string): Registry
  {
    m[id := Agent(if tenant == "" then "default" else tenant, "", Pending)]
  }

  /** Issued ids are new and not empty. */
  ghost function Step(m: Registry, op: Op): Registry
  {
    match op
    case DoRegister(id, tenant) => if id == "" || id in m then m else Enrol(m, id, tenant)
    case DoVetting(id, to) => if id in m && MayVet(m[id].vetting, to) then m[id := m[id].(vetting := to)] else m
    case DoAttach(child, parent) => if Attachable(m, child, parent) then Relink(m, child, parent) else m
  }

  lemma {:induction false} UpIgnores(m: Registry, n: Registry, y: string, k: nat)
    requires forall x :: x in m ==> x in n && n[x].parent == m[x].parent
    requires Up(m, y, k).Some?
    ensures Up(n, y, k) == Up(m, y, k)
    decreases k
  {
    if k > 0 { UpIgnores(m, n, m[y].parent, k - 1); }
  }

  /** Registering a new root, or changing a vetting status, keeps the forest. */
  lemma {:induction false} SameLinksForest(m: Registry, n: Registry)
    requires Forest(m) && "" !in n
    requires forall x :: x in m ==> x in n && n[x].parent == m[x].parent && n[x].tenant == m[x].tenant
    requires forall x :: x in n && x !in m ==> n[x].parent == ""
    ensures Forest(n)
  {
    forall id ensures LinkOk(n, id) && Capped(n, id) {
      assert LinkOk(m, id) && Capped(m, id);
      if id in m {
        var d: nat :| d <= MAX_DEPTH && RootedAt(m, id, d);
        UpIgnores(m, n, id, d);
        UpInside(m, id, d);
        assert RootedAt(n, id, d);
      } else if id in n {
        assert RootedAt(n, id, 0);
      }
    }
  }

  ghost function Run(m: Registry, ops: seq<Op>): Registry
  {
    if ops == [] then m else Step(Run(m, ops[..|ops| - 1]), ops[|ops| - 1])
  }

  /** Every run of registrations, vetting changes and attaches keeps the agents a forest. */
  lemma {:induction false} RunForest(ops: seq<Op>)
    ensures Forest(Run(map[], ops))
  {
    if ops == [] {
      forall id ensures LinkOk(map[], id) && Capped(map[], id) { }
    } else {
      var m, op := Run(map[], ops[..|ops| - 1]), ops[|ops| - 1];
      RunForest(ops[..|ops| - 1]);
      if op.DoAttach? && Attachable(m, op.child, op.parent) {
        AttachKeepsForest(m, op.child, op.parent);
      } else if !op.DoAttach? {
        SameLinksForest(m, Step(m, op));
      }
    }
  }

  // ---------------------------------------------------------------- the registry object

  datatype AttachResult = Attached | AgentNotFound | TenantMismatch | CycleRejected | DepthCapExceeded

  /** Both ends of a real link are stored. */
  predicate Linkable(m: Registry, child: string, parent: string)
  {
    child in m && parent != "" && parent in m
  }

  /** The lowest agent below `child` would be more than MAX_DEPTH links below a root. */
  ghost predicate TooTall(m: Registry, child: string, parent: string)
  {
    exists d: nat, h: nat :: RootedAt(m, parent, d) && IsHeight(m, child, h) && d + 1 + h > MAX_DEPTH
  }

  class AgentRegistry {
    var agents: Registry

    constructor ()
      ensures agents == map[] && Forest(agents)
    {
      agents := map[];
      new;
      forall id ensures LinkOk(agents, id) && Capped(agents, id) { }
    }

    method Register(id: string, tenant: string)
      requires Forest(agents) && id != "" && id !in agents
      modifies this
      ensures Forest(agents) && agents == Step(old(agents), DoRegister(id, tenant))
    {
      ghost var before := agents;
      agents := agents[id := Agent(if tenant == "" then "default" else tenant, "", Pending)];
      SameLinksForest(before, agents);
    }

    method SetVetting(id: string, to: Vetting) returns (ok: bool)
      requires Forest(agents)
      modifies this
      ensures Forest(agents) && agents == Step(old(agents), DoVetting(id, to))
      ensures ok <==> id in old(agents) && MayVet(old(agents)[id].vetting, to)
    {
      ghost var before := agents;
      ok := id in agents && MayVet(agents[id].vetting, to);
      if ok {
        agents := agents[id := agents[id].(vetting := to)];
        SameLinksForest(before, agents);
      }
    }

    /**
     Attach under the mutex: the link is written exactly when the result is a
     forest, and otherwise nothing changes and the error names a failed check.
     */
    method Attach(child: string, parent: string) returns (r: AttachResult)
      requires Forest(agents)
      modifies this
      ensures Forest(agents) && agents == Step(old(agents), DoAttach(child, parent))
      ensures r == Attached <==> Attachable(old(agents), child, parent)
      ensures r == AgentNotFound <==> child !in old(agents) || (parent != "" && parent !in old(agents))
      ensures r == TenantMismatch <==>
                Linkable(old(agents), child, parent) && old(agents)[child].tenant != old(agents)[parent].tenant
      ensures r == CycleRejected <==>
                && Linkable(old(agents), child, parent) && old(agents)[child].tenant == old(agents)[parent].tenant
                && Below(old(agents), child, parent)
      ensures r == DepthCapExceeded <==>
                && Linkable(old(agents), child, parent) && old(agents)[child].tenant == old(agents)[parent].tenant
                && !Below(old(agents), child, parent) && TooTall(old(agents), child, parent)
    {
      var m := agents;
      if child !in m { return AgentNotFound; }
      if parent == "" {
        AttachKeepsForest(m, child, parent);
        agents := Relink(m, child, "");
        return Attached;
      }
      if parent !in m { return AgentNotFound; }
      if m[child].tenant != m[parent].tenant { return TenantMismatch; }
      assert Up(m, child, 0) == Some(child) && Below(m, child, child);
      if parent == child { return CycleRejected; }
      var _, sub := SubtreeOf(m, child);
      if parent in sub { return CycleRejected; }
      var depth := DepthOf(m, parent);
      ghost var d := EndsAtRoot(m, parent);
      assert EndsAt(m, parent, d) && depth == Depth(d);
      forall x | x in sub ensures x in m {
        var n: nat :| Up(m, x, n) == Some(child);
        UpInside(m, x, n);
      }
      ForestAcyclic(m, child);
      var height := Walk(m, sub, child, {});
      assert Clean(m, sub, child, {});
      if depth.links + 1 + height > MAX_DEPTH {
        NotAttachable(m, child, parent, depth.links, height);
        return DepthCapExceeded;
      }
      assert Attachable(m, child, parent);
      NotTooTall(m, child, parent, depth.links, height);
      AttachKeepsForest(m, child, parent);
      agents := Relink(m, child, parent);
      r := Attached;
    }
  }

  lemma {:induction false} HeightUnique(m: Registry, id: string, h: nat, g: nat)
    requires IsHeight(m, id, h) && IsHeight(m, id, g)
    ensures h == g
  {
    var y :| Up(m, y, h) == Some(id);
    var z :| Up(m, z, g) == Some(id);
  }

  lemma {:induction false} NotAttachable(m: Registry, child: string, parent: string, d: nat, h: nat)
    requires RootedAt(m, parent, d) && IsHeight(m, child, h) && d + 1 + h > MAX_DEPTH && parent != ""
    ensures !Attachable(m, child, parent) && TooTall(m, child, parent)
  {
    forall e: nat, g: nat | RootedAt(m, parent, e) && IsHeight(m, child, g) ensures e + 1 + g > MAX_DEPTH {
      DepthUnique(m, parent, d, e);
      HeightUnique(m, child, h, g);
    }
  }

  lemma {:induction false} NotTooTall(m: Registry, child: string, parent: string, d: nat, h: nat)
    requires RootedAt(m, parent, d) && IsHeight(m, child, h) && d + 1 + h <= MAX_DEPTH
    ensures !TooTall(m, child, parent)
  {
    forall e: nat, g: nat | RootedAt(m, parent, e) && IsHeight(m, child, g) ensures e + 1 + g <= MAX_DEPTH {
      DepthUnique(m, parent, d, e);
      HeightUnique(m, child, h, g);
    }
  }

  // ---------------------------------------------------------------- registration and vetting

  /** An agent starts pending, unlinked, in its own tenant or the default one; an issued id is never reissued. */
  lemma {:induction false} RegisterOutcome(m: Registry, id: string, tenant: string)
    requires id != "" && id !in m
    ensures var n := Step(m, DoRegister(id, tenant));
            && n.Keys == m.Keys + {id} && n[id].vetting == Pending && n[id].parent == ""
            && (tenant != "" ==> n[id].tenant == tenant) && (tenant == "" ==> n[id].tenant == "default")
            && forall x :: x in m ==> n[x] == m[x]
  {
  }

  /**
   Six moves and no other: a pending agent is approved or rejected, an approved one suspended, a suspended one approved
   again or rejected, and a rejected one sent back to pending.
   */
  lemma {:induction false} VettingMoves(m: Registry, id: string, to: Vetting)
    requires id in m && m[id].vetting != to
    ensures var from, n := m[id].vetting, Step(m, DoVetting(id, to));
            if || (from == Pending && to == Approved) || (from == Pending && to == Rejected)
               || (from == Approved && to == Suspended)
               || (from == Suspended && to == Approved) || (from == Suspended && to == Rejected)
               || (from == Rejected && to == Pending)
            then n == m[id := Agent(m[id].tenant, m[id].parent, to)]
            else n == m
  {
  }

  // ---------------------------------------------------------------- the cap, in numbers

  /** In every run no agent is more than three links below a root. */
  lemma {:induction false} ThreeLevelsAtMost(ops: seq<Op>, id: string)
    requires id in Run(map[], ops)
    ensures exists d: nat :: d <= 3 && RootedAt(Run(map[], ops), id, d)
  {
    RunForest(ops);
    assert Capped(Run(map[], ops), id);
  }

  /** An agent nobody links to may be attached below any agent of its tenant that is at most two links below its root, and below no other. */
  lemma {:induction false} LeafAttachableIff(m: Registry, child: string, parent: string, d: nat)
    requires Forest(m) && child in m && parent in m && child != parent && RootedAt(m, parent, d)
    requires forall x :: x in m ==> m[x].parent != child
    ensures Attachable(m, child, parent) <==> m[child].tenant == m[parent].tenant && d <= 2
  {
    LeafHeight(m, child);
    forall n: nat ensures Up(m, parent, n) != Some(child) { LeafUp(m, child, parent, n); }
    if Attachable(m, child, parent) {
      var e: nat, h: nat :| RootedAt(m, parent, e) && IsHeight(m, child, h) && e + 1 + h <= MAX_DEPTH;
      DepthUnique(m, parent, d, e);
      HeightUnique(m, child, h, 0);
    }
    assert parent != "" by { assert "" !in m; }
  }

  /** Only the agent itself leads up to an agent nobody links to. */
  lemma {:induction false} LeafUp(m: Registry, child: string, y: string, n: nat)
    requires forall x :: x in m ==> m[x].parent != child
    ensures Up(m, y, n) == Some(child) ==> n == 0 && y == child
    decreases n
  {
    if n > 0 && y in m { LeafUp(m, child, m[y].parent, n - 1); }
  }

  lemma {:induction false} LeafHeight(m: Registry, child: string)
    requires child in m && forall x :: x in m ==> m[x].parent != child
    ensures IsHeight(m, child, 0)
  {
    assert Up(m, child, 0) == Some(child);
    forall y, n: nat | Up(m, y, n) == Some(child) ensures n == 0 { LeafUp(m, child, y, n); }
  }
}
