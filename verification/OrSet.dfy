/**
 The operation-based observed-remove set (internal/platform/crdtx/crdtx.go:97-198):
 idempotent, order-independent delivery, and removes that tombstone exactly the
 tags the remover had observed.
 */
module OrSets {
  import opened Hlc

  datatype Kind = Add | Remove | OtherKind

  /** An op id; `NoId` is the empty string, `RemoveId` the id Remove derives from element and tag. */
  datatype OpId = NoId | Named(name: string) | RemoveId(element: string, tag: string)

  datatype Op = Op(id: OpId, kind: Kind, element: string, tag: HLC, payload: string)

  datatype State = State(adds: map<string, map<string, Op>>, removes: map<string, set<string>>, seen: set<OpId>)

  const EMPTY := State(map[], map[], {})

  function AddsOf(s: State, e: string): map<string, Op>
  {
    if e in s.adds then s.adds[e] else map[]
  }

  function RemovesOf(s: State, e: string): set<string>
  {
    if e in s.removes then s.removes[e] else {}
  }

  /** Apply: the new state and whether the op was new. */
  function Apply(s: State, op: Op): (State, bool)
  {
    if op.id == NoId || op.id in s.seen then (s, false)
    else
      var s1 := s.(seen := s.seen + {op.id});
      match op.kind
      case Add => (s1.(adds := s.adds[op.element := AddsOf(s, op.element)[Print(op.tag) := op]]), true)
      case Remove => (s1.(removes := s.removes[op.element := RemovesOf(s, op.element) + {Print(op.tag)}]), true)
      case OtherKind => (s1, false)
  }

  function Merge(s: State, ops: seq<Op>): State
  {
    if ops == [] then s else Apply(Merge(s, ops[..|ops| - 1]), ops[|ops| - 1]).0
  }

  /** How many of the ops were new when they arrived. */
  function NewOps(s: State, ops: seq<Op>): nat
  {
    if ops == [] then 0
    else NewOps(s, ops[..|ops| - 1]) + if Apply(Merge(s, ops[..|ops| - 1]), ops[|ops| - 1]).1 then 1 else 0
  }

  /** Contains: some observed add tag is not tombstoned. */
  predicate Live(s: State, e: string)
  {
    exists t :: t in AddsOf(s, e) && t !in RemovesOf(s, e)
  }

  // ---------------------------------------------------------------- what delivery means

  /** Equal op ids mean equal ops. */
  predicate Consistent(ops: seq<Op>)
  {
    forall i, j :: 0 <= i < |ops| && 0 <= j < |ops| && ops[i].id == ops[j].id ==> ops[i] == ops[j]
  }

  /** A delivered op of the given kind names this element and tag. */
  predicate Delivered(ops: seq<Op>, kind: Kind, e: string, t: string)
  {
    exists op :: op in ops && op.id != NoId && op.kind == kind && op.element == e && Print(op.tag) == t
  }

  predicate SeenReflects(s: State, ops: seq<Op>, id: OpId)
  {
    id in s.seen <==> id != NoId && exists op :: op in ops && op.id == id
  }

  predicate TagReflects(s: State, ops: seq<Op>, e: string, t: string)
  {
    && (t in AddsOf(s, e) <==> Delivered(ops, Add, e, t))
    && (t in RemovesOf(s, e) <==> Delivered(ops, Remove, e, t))
  }

  /** The state is exactly what the set of delivered ops says. */
  ghost predicate Reflects(s: State, ops: seq<Op>)
  {
    (forall id :: SeenReflects(s, ops, id)) && (forall e, t :: TagReflects(s, ops, e, t))
  }

  lemma {:induction false} MergeReflects(ops: seq<Op>)
    requires Consistent(ops)
    ensures Reflects(Merge(EMPTY, ops), ops)
  {
    if ops == [] {
      forall id ensures SeenReflects(EMPTY, ops, id) { }
      forall e, t ensures TagReflects(EMPTY, ops, e, t) { }
    } else {
      var n := |ops| - 1;
      var before, op := ops[..n], ops[n];
      assert ops == before + [op];
      assert forall i :: 0 <= i < n ==> before[i] == ops[i];
      MergeReflects(before);
      ApplyReflects(Merge(EMPTY, before), before, op);
    }
  }

  lemma {:induction false} ApplyReflects(s: State, before: seq<Op>, op: Op)
    requires Reflects(s, before) && Consistent(before + [op])
    ensures Reflects(Apply(s, op).0, before + [op])
  {
    var ops, s' := before + [op], Apply(s, op).0;
    forall id ensures SeenReflects(s', ops, id) {
      assert SeenReflects(s, before, id);
      SeenMore(before, op, id);
    }
    forall e, t ensures TagReflects(s', ops, e, t) { ApplyTag(s, before, op, e, t); }
  }

  lemma {:induction false} ApplyTag(s: State, before: seq<Op>, op: Op, e: string, t: string)
    requires Reflects(s, before) && Consistent(before + [op])
    ensures TagReflects(Apply(s, op).0, before + [op], e, t)
  {
    assert TagReflects(s, before, e, t) && SeenReflects(s, before, op.id);
    DeliveredMore(before, op, Add, e, t);
    DeliveredMore(before, op, Remove, e, t);
    if op.id != NoId && op.id in s.seen { TwinDelivered(before, op); }
  }

  /** An op whose id was delivered before was itself delivered before. */
  lemma {:induction false} TwinDelivered(before: seq<Op>, op: Op)
    requires Consistent(before + [op]) && exists x :: x in before && x.id == op.id
    ensures op in before
  {
    var ops := before + [op];
    var x :| x in before && x.id == op.id;
    var i :| 0 <= i < |before| && before[i] == x;
    assert ops[i] == x && ops[|before|] == op;
  }

  lemma {:induction false} SeenMore(before: seq<Op>, op: Op, id: OpId)
    ensures (exists x :: x in before + [op] && x.id == id) <==> (exists x :: x in before && x.id == id) || op.id == id
  {
    assert forall x :: x in before + [op] <==> x in before || x == op;
    if op.id == id { assert op in before + [op]; }
    if exists x :: x in before && x.id == id {
      var x :| x in before && x.id == id;
      assert x in before + [op];
    }
  }

  lemma {:induction false} DeliveredMore(before: seq<Op>, op: Op, kind: Kind, e: string, t: string)
    ensures Delivered(before + [op], kind, e, t) <==>
              Delivered(before, kind, e, t) || (op.id != NoId && op.kind == kind && op.element == e && Print(op.tag) == t)
  {
    assert forall x :: x in before + [op] <==> x in before || x == op;
    if Delivered(before, kind, e, t) {
      var x :| x in before && x.id != NoId && x.kind == kind && x.element == e && Print(x.tag) == t;
      assert x in before + [op];
    }
  }

  /** The simple specification: some delivered add's tag is the target of no delivered remove. */
  ghost predicate LiveSpec(ops: seq<Op>, e: string)
  {
    exists t :: Delivered(ops, Add, e, t) && !Delivered(ops, Remove, e, t)
  }

  lemma {:induction false} LiveMeetsSpec(ops: seq<Op>, e: string)
    requires Consistent(ops)
    ensures Live(Merge(EMPTY, ops), e) <==> LiveSpec(ops, e)
  {
    var s := Merge(EMPTY, ops);
    MergeReflects(ops);
    if Live(s, e) {
      var t :| t in AddsOf(s, e) && t !in RemovesOf(s, e);
      assert TagReflects(s, ops, e, t);
      assert Delivered(ops, Add, e, t) && !Delivered(ops, Remove, e, t);
    }
    if LiveSpec(ops, e) {
      var t :| Delivered(ops, Add, e, t) && !Delivered(ops, Remove, e, t);
      assert TagReflects(s, ops, e, t);
      assert t in AddsOf(s, e) && t !in RemovesOf(s, e);
    }
  }

  /** Batching does not matter: merging in parts is merging the whole. */
  lemma {:induction false} MergeInParts(s: State, a: seq<Op>, b: seq<Op>)
    ensures Merge(Merge(s, a), b) == Merge(s, a + b)
    decreases b
  {
    if b == [] {
      assert a + b == a;
    } else {
      var n := |b| - 1;
      assert (a + b)[..|a + b| - 1] == a + b[..n];
      MergeInParts(s, a, b[..n]);
    }
  }

  /** The same ops in any order and with any duplicates make the same elements live. */
  lemma {:induction false} LiveConverges(a: seq<Op>, b: seq<Op>, e: string)
    requires Consistent(a) && Consistent(b) && forall op :: op in a <==> op in b
    ensures Live(Merge(EMPTY, a), e) <==> Live(Merge(EMPTY, b), e)
  {
    LiveMeetsSpec(a, e);
    LiveMeetsSpec(b, e);
    assert forall kind, t :: Delivered(a, kind, e, t) <==> Delivered(b, kind, e, t);
  }

  // ---------------------------------------------------------------- sorted elements

  predicate Ascending(s: seq<string>)
  {
    forall i, j :: 0 <= i < j < |s| ==> StringLess(s[i], s[j])
  }

  /** An ascending sequence is determined by its members. */
  lemma {:induction false} AscendingUnique(a: seq<string>, b: seq<string>)
    requires Ascending(a) && Ascending(b) && forall x :: x in a <==> x in b
    ensures a == b
    decreases |a|
  {
    HasMember(a);
    HasMember(b);
    if a != [] {
      assert a[0] in b;
      assert b[0] in a;
      var i :| 0 <= i < |b| && b[i] == a[0];
      var j :| 0 <= j < |a| && a[j] == b[0];
      if i > 0 && j > 0 {
        StringLessTransitive(a[0], b[0], a[0]);
        StringLessIrreflexive(a[0]);
      }
      assert a[0] == b[0];
      TailMembers(a, b);
      AscendingUnique(a[1..], b[1..]);
      assert a == [a[0]] + a[1..] && b == [b[0]] + b[1..];
    }
  }

  lemma {:induction false} HasMember(s: seq<string>)
    ensures s == [] || exists x :: x in s
  {
    if s != [] { assert s[0] in s; }
  }

  lemma {:induction false} TailMembers(a: seq<string>, b: seq<string>)
    requires a != [] && b != [] && a[0] == b[0] && Ascending(a) && Ascending(b) && forall x :: x in a <==> x in b
    ensures forall x :: x in a[1..] <==> x in b[1..]
  {
    StringLessIrreflexive(a[0]);
    assert a[0] !in a[1..] && b[0] !in b[1..];
    assert forall x :: x in a[1..] <==> x in a && x != a[0];
    assert forall x :: x in b[1..] <==> x in b && x != b[0];
  }

  /** Strong convergence: replicas that received the same ops list the same elements, in the same order. */
  lemma {:induction false} ElementsConverge(a: seq<Op>, b: seq<Op>, la: seq<string>, lb: seq<string>)
    requires Consistent(a) && Consistent(b) && forall op :: op in a <==> op in b
    requires Ascending(la) && forall e :: e in la <==> Live(Merge(EMPTY, a), e)
    requires Ascending(lb) && forall e :: e in lb <==> Live(Merge(EMPTY, b), e)
    ensures la == lb
  {
    forall e ensures e in la <==> e in lb { LiveConverges(a, b, e); }
    AscendingUnique(la, lb);
  }

  // ---------------------------------------------------------------- observed remove

  /** Every stored tag string is the print of its op's tag, and a seen remove id has its tombstone. */
  ghost predicate WellTagged(s: State)
  {
    && (forall e, t :: t in AddsOf(s, e) ==> Print(AddsOf(s, e)[t].tag) == t)
    && (forall e, t :: RemoveId(e, t) in s.seen ==> t in RemovesOf(s, e))
  }

  /** Remove ids are used only for what Remove issues: the tombstone of that element and tag. */
  predicate Genuine(op: Op)
  {
    op.id.RemoveId? ==> op.kind == Remove && op.element == op.id.element && Print(op.tag) == op.id.tag
  }

  lemma {:induction false} ApplyWellTagged(s: State, op: Op)
    requires WellTagged(s) && Genuine(op)
    ensures WellTagged(Apply(s, op).0)
  {
    hide Apply, AddsOf, RemovesOf, Genuine, Print;
    var s' := Apply(s, op).0;
    forall e, t | t in AddsOf(s', e) ensures Print(AddsOf(s', e)[t].tag) == t { ApplyTagged(s, op, e, t); }
    forall e, t | RemoveId(e, t) in s'.seen ensures t in RemovesOf(s', e) { ApplyRemoved(s, op, e, t); }
  }

  lemma {:induction false} ApplyTagged(s: State, op: Op, e: string, t: string)
    requires WellTagged(s) && Genuine(op) && t in AddsOf(Apply(s, op).0, e)
    ensures Print(AddsOf(Apply(s, op).0, e)[t].tag) == t
  {
    hide Print;
    if t in AddsOf(s, e) { assert Print(AddsOf(s, e)[t].tag) == t; }
  }

  lemma {:induction false} ApplyRemoved(s: State, op: Op, e: string, t: string)
    requires WellTagged(s) && Genuine(op) && RemoveId(e, t) in Apply(s, op).0.seen
    ensures t in RemovesOf(Apply(s, op).0, e)
  {
    hide Print;
    if RemoveId(e, t) in s.seen { assert t in RemovesOf(s, e); }
  }

  lemma {:induction false} MergeWellTagged(s: State, ops: seq<Op>)
    requires WellTagged(s) && forall i :: 0 <= i < |ops| ==> Genuine(ops[i])
    ensures WellTagged(Merge(s, ops))
  {
    if ops != [] {
      var n := |ops| - 1;
      assert forall i :: 0 <= i < n ==> ops[..n][i] == ops[i];
      MergeWellTagged(s, ops[..n]);
      ApplyWellTagged(Merge(s, ops[..n]), ops[n]);
    }
  }

  /** With a node id free of white space, the op Remove issues for a tag tombstones exactly that tag; otherwise it does not. */
  lemma {:induction false} RemoveOpExactIff(e: string, h: HLC)
    ensures Print(RemoveOp(e, Print(h)).tag) == Print(h) <==> NoSpace(h.node)
  {
    ReparseIff(h);
    if Print(Reparse(Print(h))) == Print(h) { PrintInjective(Reparse(Print(h)), h); }
  }

  /** `ops` are the ops Remove issues for `e` at a replica in state `s`. */
  ghost predicate Issued(s: State, e: string, ops: seq<Op>)
  {
    forall op :: op in ops <==> exists t :: t in AddsOf(s, e) && t !in RemovesOf(s, e) && op == RemoveOp(e, t)
  }

  /** All tags observed for `e` come from nodes whose ids are free of white space. */
  ghost predicate CleanTags(s: State, e: string)
  {
    forall t :: t in AddsOf(s, e) ==> NoSpace(AddsOf(s, e)[t].tag.node)
  }

  lemma {:induction false} IssuedGenuine(s: State, e: string, op: Op, t: string)
    requires WellTagged(s) && CleanTags(s, e) && t in AddsOf(s, e) && op == RemoveOp(e, t)
    ensures Genuine(op) && Print(op.tag) == t
  {
    assert Print(AddsOf(s, e)[t].tag) == t;
    RemoveOpExactIff(e, AddsOf(s, e)[t].tag);
  }

  /** Applying a prefix of issued removes adds exactly their tags to the tombstones of `e` and touches nothing else. */
  lemma {:induction false} RemovesApplied(s: State, e: string, ops: seq<Op>)
    requires WellTagged(s) && forall i :: 0 <= i < |ops| ==> Genuine(ops[i]) && ops[i].kind == Remove && ops[i].element == e
    ensures var s' := Merge(s, ops);
            && WellTagged(s') && s'.adds == s.adds
            && (forall x, t :: t in RemovesOf(s', x) ==>
                  t in RemovesOf(s, x) || (x == e && exists i :: 0 <= i < |ops| && Print(ops[i].tag) == t))
            && (forall x, t :: t in RemovesOf(s, x) ==> t in RemovesOf(s', x))
            && (forall i :: 0 <= i < |ops| && ops[i].id.RemoveId? ==> Print(ops[i].tag) in RemovesOf(s', e))
  {
    if ops != [] {
      var n := |ops| - 1;
      var before := ops[..n];
      assert forall i :: 0 <= i < n ==> before[i] == ops[i];
      RemovesApplied(s, e, before);
      var u, s' := Merge(s, before), Merge(s, ops);
      ApplyWellTagged(u, ops[n]);
      forall x, t | t in RemovesOf(s', x)
        ensures t in RemovesOf(s, x) || (x == e && exists i :: 0 <= i < |ops| && Print(ops[i].tag) == t)
      {
        if t in RemovesOf(u, x) && t !in RemovesOf(s, x) {
          var i :| 0 <= i < |before| && Print(before[i].tag) == t;
          assert Print(ops[i].tag) == t;
        }
      }
    }
  }

  lemma {:induction false} SameLive(s: State, s': State, x: string)
    requires s'.adds == s.adds && forall t :: t in RemovesOf(s', x) <==> t in RemovesOf(s, x)
    ensures Live(s', x) <==> Live(s, x)
  {
    assert AddsOf(s', x) == AddsOf(s, x);
  }

  /**
   Observed-remove is exact: at the removing replica the element is gone, the
   tombstones of the element become exactly the old ones and the observed tags,
   and no other element is touched.
   */
  lemma {:induction false} RemoveExact(s: State, e: string, ops: seq<Op>)
    requires WellTagged(s) && CleanTags(s, e) && Issued(s, e, ops)
    ensures var s' := Merge(s, ops);
            && !Live(s', e)
            && (forall t :: t in RemovesOf(s', e) <==> t in RemovesOf(s, e) || t in AddsOf(s, e))
            && (forall x :: x != e ==> (Live(s', x) <==> Live(s, x)))
  {
    forall i | 0 <= i < |ops| ensures Genuine(ops[i]) && ops[i].kind == Remove && ops[i].element == e && ops[i].id.RemoveId? {
      assert ops[i] in ops;
      var t :| t in AddsOf(s, e) && t !in RemovesOf(s, e) && ops[i] == RemoveOp(e, t);
      IssuedGenuine(s, e, ops[i], t);
    }
    RemovesApplied(s, e, ops);
    var s' := Merge(s, ops);
    forall t | t in AddsOf(s, e) ensures t in RemovesOf(s', e) {
      if t !in RemovesOf(s, e) {
        assert RemoveOp(e, t) in ops;
        var i :| 0 <= i < |ops| && ops[i] == RemoveOp(e, t);
        IssuedGenuine(s, e, ops[i], t);
      }
    }
    forall t | t in RemovesOf(s', e) && t !in RemovesOf(s, e) ensures t in AddsOf(s, e) {
      var i :| 0 <= i < |ops| && Print(ops[i].tag) == t;
      assert ops[i] in ops;
      var u :| u in AddsOf(s, e) && u !in RemovesOf(s, e) && ops[i] == RemoveOp(e, u);
      IssuedGenuine(s, e, ops[i], u);
    }
    forall x | x != e ensures Live(s', x) <==> Live(s, x) { SameLive(s, s', x); }
  }

  /**
   Add wins: an add whose tag the remover had not observed survives at every
   replica, however the deliveries are ordered, unless some other remove names it.
   */
  lemma {:induction false} ConcurrentAddSurvives(s: State, e: string, removed: seq<Op>, add: Op, ops: seq<Op>)
    requires WellTagged(s) && CleanTags(s, e) && Issued(s, e, removed)
    requires add.kind == Add && add.id != NoId && add.element == e && Print(add.tag) !in AddsOf(s, e)
    requires Consistent(ops) && add in ops
    requires forall op :: op in ops && op.kind == Remove && op.element == e && Print(op.tag) == Print(add.tag) ==> op in removed
    ensures Live(Merge(EMPTY, ops), e)
  {
    var t := Print(add.tag);
    assert Delivered(ops, Add, e, t);
    forall op | op in ops && op.kind == Remove && op.element == e ensures Print(op.tag) != t {
      if op in removed {
        var u :| u in AddsOf(s, e) && u !in RemovesOf(s, e) && op == RemoveOp(e, u);
        IssuedGenuine(s, e, op, u);
      }
    }
    assert !Delivered(ops, Remove, e, t);
    LiveMeetsSpec(ops, e);
  }

  class ORSet {
    var adds: map<string, map<string, Op>>
    var removes: map<string, set<string>>
    var seen: set<OpId>

    ghost function Value(): State
      reads this
    {
      State(adds, removes, seen)
    }

    constructor ()
      ensures Value() == EMPTY
    {
      adds, removes, seen := map[], map[], {};
    }

    method ApplyOp(op: Op) returns (isNew: bool)
      modifies this
      ensures (Value(), isNew) == Apply(old(Value()), op)
    {
      if op.id == NoId || op.id in seen { return false; }
      seen := seen + {op.id};
      var ts := Print(op.tag);
      match op.kind
      case Add =>
        var tags := if op.element in adds then adds[op.element] else map[];
        adds := adds[op.element := tags[ts := op]];
        return true;
      case Remove =>
        var tags := if op.element in removes then removes[op.element] else {};
        removes := removes[op.element := tags + {ts}];
        return true;
      case OtherKind => return false;
    }

    method MergeOps(ops: seq<Op>) returns (n: nat)
      modifies this
      ensures Value() == Merge(old(Value()), ops) && n == NewOps(old(Value()), ops)
    {
      n := 0;
      for i := 0 to |ops|
        invariant Value() == Merge(old(Value()), ops[..i]) && n == NewOps(old(Value()), ops[..i])
      {
        assert ops[..i + 1][..i] == ops[..i];
        var isNew := ApplyOp(ops[i]);
        if isNew { n := n + 1; }
      }
      assert ops[..|ops|] == ops;
    }

    method Contains(e: string) returns (live: bool)
      ensures live == Live(Value(), e)
    {
      if e !in adds { return false; }
      var todo := adds[e].Keys;
      var gone := if e in removes then removes[e] else {};
      while todo != {}
        invariant todo <= adds[e].Keys
        invariant forall t :: t in adds[e] && t !in todo ==> t in gone
        decreases |todo|
      {
        var t :| t in todo;
        if t !in gone {
          assert t in AddsOf(Value(), e) && t !in RemovesOf(Value(), e);
          return true;
        }
        todo := todo - {t};
      }
      live := false;
    }

    /** Elements: the live elements, ascending. */
    method Elements() returns (out: seq<string>)
      ensures Ascending(out) && forall e :: e in out <==> Live(Value(), e)
    {
      out := [];
      var todo := adds.Keys;
      while todo != {}
        invariant todo <= adds.Keys && Ascending(out)
        invariant forall e :: e in out <==> Live(Value(), e) && e !in todo
        decreases |todo|
      {
        var e :| e in todo;
        var live := Contains(e);
        if live { out := Insert(out, e); }
        todo := todo - {e};
      }
    }

    /** Remove: one op per observed, not yet tombstoned tag, applied locally. */
    method RemoveElement(e: string) returns (ops: seq<Op>)
      modifies this
      ensures Value() == Merge(old(Value()), ops)
      ensures Issued(old(Value()), e, ops)
    {
      ops := [];
      var mine := if e in adds then adds[e] else map[];
      var gone := if e in removes then removes[e] else {};
      var todo := mine.Keys;
      while todo != {}
        invariant todo <= mine.Keys && Value() == Merge(old(Value()), ops)
        invariant forall op :: op in ops <==> exists t :: t in mine && t !in gone && t !in todo && op == RemoveOp(e, t)
        decreases |todo|
      {
        var t :| t in todo;
        todo := todo - {t};
        if t !in gone {
          var op := RemoveOp(e, t);
          var _ := ApplyOp(op);
          assert (ops + [op])[..|ops|] == ops;
          ops := ops + [op];
        }
      }
    }
  }

  /** The op Remove issues for an observed tag: the printed tag is parsed back. */
  function RemoveOp(e: string, t: string): Op
  {
    Op(RemoveId(e, t), Remove, e, Reparse(t), "")
  }

  method Insert(s: seq<string>, x: string) returns (r: seq<string>)
    requires Ascending(s) && x !in s
    ensures Ascending(r) && forall y :: y in r <==> y in s || y == x
  {
    var k := 0;
    while k < |s| && StringLess(s[k], x)
      invariant 0 <= k <= |s| && forall i :: 0 <= i < k ==> StringLess(s[i], x)
    {
      k := k + 1;
    }
    if k < |s| {
      StringLessTotal(s[k], x);
      forall j | k < j < |s| ensures StringLess(x, s[j]) { StringLessTransitive(x, s[k], s[j]); }
    }
    r := s[..k] + [x] + s[k..];
    assert forall y :: y in s <==> y in s[..k] || y in s[k..] by { assert s == s[..k] + s[k..]; }
  }
}
