/**
 The per-node hybrid logical clock (internal/platform/crdtx/crdtx.go:35-95), and
 what its timestamps mean across any set of nodes and messages. Wall readings
 are parameters and may go backwards; the uint32 counter wraps.
 */
module Clocks {
  import opened Prelude
  import opened Hlc

  const ZERO := HLC(0, 0, "")

  function NowOf(node: string, last: HLC, wall: int): HLC
  {
    if wall <= last.wall then HLC(last.wall, (last.count + 1) % WRAP, node) else HLC(wall, 0, node)
  }

  function Max(a: int, b: int): int { if a > b then a else b }

  /** The counter Update gives, before it is cut to 32 bits. */
  function UpdateCount(last: HLC, remote: HLC, wall: int): nat
  {
    var maxWall := Max(last.wall, remote.wall);
    if wall > maxWall then 0
    else if maxWall == last.wall && maxWall == remote.wall then (if last.count > remote.count then last.count else remote.count) + 1
    else if maxWall == last.wall then last.count + 1
    else remote.count + 1
  }

  function UpdateOf(node: string, last: HLC, remote: HLC, wall: int): HLC
  {
    HLC(Max(wall, Max(last.wall, remote.wall)), UpdateCount(last, remote, wall) % WRAP, node)
  }

  class Clock {
    const node: string
    var last: HLC

    constructor (node: string)
      ensures this.node == node && last == ZERO
    {
      this.node := node;
      last := ZERO;
    }

    method Now(reading: int) returns (h: HLC)
      modifies this
      ensures h == last == NowOf(node, old(last), reading)
    {
      var wall := reading;
      var count := 0;
      if wall <= last.wall {
        wall := last.wall;
        count := (last.count + 1) % WRAP;
      }
      last := HLC(wall, count, node);
      h := last;
    }

    method Update(remote: HLC, reading: int) returns (h: HLC)
      modifies this
      ensures h == last == UpdateOf(node, old(last), remote, reading)
    {
      var maxWall := last.wall;
      if remote.wall > maxWall { maxWall := remote.wall; }
      var count: nat;
      if reading > maxWall {
        count := 0;
      } else if maxWall == last.wall && maxWall == remote.wall {
        count := ((if last.count > remote.count then last.count else remote.count) + 1) % WRAP;
      } else if maxWall == last.wall {
        count := (last.count + 1) % WRAP;
      } else {
        count := (remote.count + 1) % WRAP;
      }
      last := HLC(if reading > maxWall then reading else maxWall, count, node);
      h := last;
    }
  }

  /** Now moves strictly forward, except exactly when the counter wraps. */
  lemma {:induction false} NowForwardIff(node: string, last: HLC, wall: int)
    requires last.count < WRAP
    ensures Less(last, NowOf(node, last, wall)) <==> !(wall <= last.wall && last.count == WRAP - 1)
  {
  }

  /** Update moves strictly past both its own last timestamp and the received one, except exactly when the counter wraps. */
  lemma {:induction false} UpdateForwardIff(node: string, last: HLC, remote: HLC, wall: int)
    requires last.count < WRAP && remote.count < WRAP
    ensures var h := UpdateOf(node, last, remote, wall);
            Less(last, h) && Less(remote, h) <==> UpdateCount(last, remote, wall) < WRAP
  {
    var c := UpdateCount(last, remote, wall);
    if c >= WRAP { assert c == WRAP && c % WRAP == 0; }
  }

  /** A later wall reading is taken over with the counter at zero; otherwise the wall stands and the counter goes up by one. */
  lemma {:induction false} NowFollowsWall(node: string, last: HLC, wall: int)
    requires last.count < WRAP
    ensures NowOf(node, last, wall).node == node
    ensures last.wall < wall ==> NowOf(node, last, wall).wall == wall && NowOf(node, last, wall).count == 0
    ensures wall <= last.wall ==>
              && NowOf(node, last, wall).wall == last.wall
              && (last.count < WRAP - 1 ==> NowOf(node, last, wall).count == last.count + 1)
              && (last.count == WRAP - 1 ==> NowOf(node, last, wall).count == 0)
  {
  }

  /**
   The merged wall is the latest of the three and no later; the counter starts again at zero where the reading is the latest
   alone, and otherwise is one more than the highest counter seen with that wall.
   */
  lemma {:induction false} UpdateFollowsWall(node: string, last: HLC, remote: HLC, wall: int)
    requires last.count < WRAP - 1 && remote.count < WRAP - 1
    ensures var h := UpdateOf(node, last, remote, wall);
            && h.node == node && h.wall in {wall, last.wall, remote.wall} && h.wall >= wall && h.wall >= last.wall && h.wall >= remote.wall
            && (h.wall > last.wall && h.wall > remote.wall ==> h.count == 0)
            && (h.wall == last.wall && h.wall > remote.wall ==> h.count == last.count + 1)
            && (h.wall == remote.wall && h.wall > last.wall ==> h.count == remote.count + 1)
            && (h.wall == last.wall == remote.wall ==>
                  h.count in {last.count + 1, remote.count + 1} && h.count > last.count && h.count > remote.count)
  {
  }

  /** While every wall reading runs ahead of all that came before, each local stamp is its reading, with counter zero. */
  lemma {:induction false} StampsFollowWall(events: seq<Event>, t: Trace, i: nat)
    requires RunOf(events) == Some(t) && i < |events| && events[i].Local?
    requires forall j :: 0 <= j < i ==> events[j].wall < events[i].wall
    requires forall j :: 0 <= j < i ==> 0 <= events[j].wall
    requires events[i].wall > 0
    ensures |t.stamps| == |events| && t.stamps[i] == HLC(events[i].wall, 0, events[i].node)
  {
    RunsOrdered(events, t);
    var n := |events| - 1;
    var u := RunOf(events[..n]).value;
    RunsOrdered(events[..n], u);
    if i < n {
      StampsFollowWall(events[..n], u, i);
    } else {
      StampsBelow(events[..n], u, events[n].wall);
    }
  }

  /** No clock is ahead of every wall reading so far. */
  lemma {:induction false} StampsBelow(events: seq<Event>, t: Trace, bound: int)
    requires RunOf(events) == Some(t) && bound > 0 && forall j :: 0 <= j < |events| ==> events[j].wall < bound
    ensures forall node :: ClockAt(t, node).wall < bound
    ensures forall k :: 0 <= k < |t.stamps| ==> t.stamps[k].wall < bound
  {
    if events != [] {
      var n := |events| - 1;
      var u := RunOf(events[..n]).value;
      StampsBelow(events[..n], u, bound);
      forall node ensures ClockAt(t, node).wall < bound { assert ClockAt(u, node).wall < bound; }
    }
  }

  // ---------------------------------------------------------------- many nodes

  /** An event: a local one, or the receipt of the timestamp of an earlier event. */
  datatype Event = Local(node: string, wall: int) | Receive(node: string, wall: int, from: nat)

  datatype Trace = Trace(clocks: map<string, HLC>, stamps: seq<HLC>)

  function ClockAt(t: Trace, node: string): HLC
  {
    if node in t.clocks then t.clocks[node] else ZERO
  }

  /** The timestamp the next event gets; None if it would receive from the future or wrap the counter. */
  function Stamp(t: Trace, e: Event): Option<HLC>
  {
    var last := ClockAt(t, e.node);
    match e
    case Local(node, wall) =>
      if wall <= last.wall && last.count + 1 >= WRAP then None else Some(NowOf(node, last, wall))
    case Receive(node, wall, from) =>
      if from >= |t.stamps| || UpdateCount(last, t.stamps[from], wall) >= WRAP then None
      else Some(UpdateOf(node, last, t.stamps[from], wall))
  }

  /** The trace of a run from fresh clocks; None if some event got no timestamp. */
  function RunOf(events: seq<Event>): Option<Trace>
  {
    if events == [] then Some(Trace(map[], []))
    else
      var e := events[|events| - 1];
      match RunOf(events[..|events| - 1])
      case None => None
      case Some(u) =>
        match Stamp(u, e)
        case None => None
        case Some(h) => Some(Trace(u.clocks[e.node := h], u.stamps + [h]))
  }

  /** Every stamp carries its node, fits the counter, and is not after its node's clock. */
  ghost predicate StampedBy(events: seq<Event>, t: Trace)
  {
    && |t.stamps| == |events|
    && (forall i :: 0 <= i < |events| ==>
          && t.stamps[i].node == events[i].node && t.stamps[i].count < WRAP
          && (t.stamps[i] == ClockAt(t, events[i].node) || Less(t.stamps[i], ClockAt(t, events[i].node))))
    && (forall node :: ClockAt(t, node).count < WRAP)
  }

  /** Stamps of one node increase along the run, and a receipt is after what it received. */
  ghost predicate Ordered(events: seq<Event>, t: Trace)
  {
    && |t.stamps| == |events|
    && (forall i, j :: 0 <= i < j < |events| && events[i].node == events[j].node ==> Less(t.stamps[i], t.stamps[j]))
    && (forall j :: 0 <= j < |events| && events[j].Receive? ==> events[j].from < j && Less(t.stamps[events[j].from], t.stamps[j]))
  }

  lemma {:induction false} StampForward(events: seq<Event>, u: Trace, e: Event)
    requires StampedBy(events, u) && Stamp(u, e).Some?
    ensures var h := Stamp(u, e).value;
            && Less(ClockAt(u, e.node), h) && h.node == e.node && h.count < WRAP
            && (e.Receive? ==> e.from < |u.stamps| && Less(u.stamps[e.from], h))
  {
    var last := ClockAt(u, e.node);
    match e
    case Local(node, wall) => NowForwardIff(node, last, wall);
    case Receive(node, wall, from) => UpdateForwardIff(node, last, u.stamps[from], wall);
  }

  lemma {:induction false} RunsOrdered(events: seq<Event>, t: Trace)
    requires RunOf(events) == Some(t)
    ensures StampedBy(events, t) && Ordered(events, t)
  {
    if events != [] {
      var n := |events| - 1;
      var u, e := RunOf(events[..n]).value, events[n];
      RunsOrdered(events[..n], u);
      StampForward(events[..n], u, e);
      ExtendOrdered(events, u, Stamp(u, e).value);
      ExtendStamped(events, u, Stamp(u, e).value);
    }
  }

  /** `h` is a proper next stamp for the last event after `u`. */
  ghost predicate Next(events: seq<Event>, u: Trace, h: HLC)
    requires events != []
  {
    var e := events[|events| - 1];
    && StampedBy(events[..|events| - 1], u)
    && Less(ClockAt(u, e.node), h) && h.node == e.node && h.count < WRAP
    && (e.Receive? ==> e.from < |u.stamps| && Less(u.stamps[e.from], h))
  }

  lemma {:induction false} ExtendOrdered(events: seq<Event>, u: Trace, h: HLC)
    requires events != [] && Next(events, u, h) && Ordered(events[..|events| - 1], u)
    ensures Ordered(events, Trace(u.clocks[events[|events| - 1].node := h], u.stamps + [h]))
  {
    var n := |events| - 1;
    var before, e, stamps := events[..n], events[n], u.stamps + [h];
    assert forall i :: 0 <= i < n ==> before[i] == events[i] && u.stamps[i] == stamps[i];
    forall i, j | 0 <= i < j < |events| && events[i].node == events[j].node ensures Less(stamps[i], stamps[j]) {
      if j == n {
        assert u.stamps[i] == ClockAt(u, before[i].node) || Less(u.stamps[i], ClockAt(u, before[i].node));
        LessStrictTotal(u.stamps[i], ClockAt(u, e.node), h);
      } else {
        assert before[i].node == before[j].node;
      }
    }
    forall j | 0 <= j < |events| && events[j].Receive?
      ensures events[j].from < j && Less(stamps[events[j].from], stamps[j])
    {
      if j < n { assert before[j].Receive?; }
    }
  }

  lemma {:induction false} ExtendStamped(events: seq<Event>, u: Trace, h: HLC)
    requires events != [] && Next(events, u, h)
    ensures StampedBy(events, Trace(u.clocks[events[|events| - 1].node := h], u.stamps + [h]))
  {
    var n := |events| - 1;
    var before, e := events[..n], events[n];
    var t := Trace(u.clocks[e.node := h], u.stamps + [h]);
    forall node ensures ClockAt(t, node).count < WRAP { assert ClockAt(u, node).count < WRAP; }
    forall i | 0 <= i < |events|
      ensures t.stamps[i].node == events[i].node && t.stamps[i].count < WRAP
      ensures t.stamps[i] == ClockAt(t, events[i].node) || Less(t.stamps[i], ClockAt(t, events[i].node))
    {
      if i < n {
        assert before[i] == events[i] && t.stamps[i] == u.stamps[i];
        assert u.stamps[i] == ClockAt(u, before[i].node) || Less(u.stamps[i], ClockAt(u, before[i].node));
        LessStrictTotal(u.stamps[i], ClockAt(u, e.node), h);
      }
    }
  }

  /** Happened-before: earlier on the same node, received from, or a chain of these. */
  ghost predicate HappenedBefore(events: seq<Event>, i: nat, j: nat)
    decreases j - i
  {
    && i < j < |events|
    && (|| events[i].node == events[j].node
        || (events[j].Receive? && events[j].from == i)
        || exists k :: i < k < j && HappenedBefore(events, i, k) && HappenedBefore(events, k, j))
  }

  /** Happened-before implies Less, on every run of any nodes with any wall readings. */
  lemma {:induction false} HappenedBeforeImpliesLess(events: seq<Event>, t: Trace, i: nat, j: nat)
    requires RunOf(events) == Some(t) && HappenedBefore(events, i, j)
    ensures |t.stamps| == |events|
    ensures Less(t.stamps[i], t.stamps[j])
    decreases j - i
  {
    RunsOrdered(events, t);
    if events[i].node != events[j].node && !(events[j].Receive? && events[j].from == i) {
      var k :| i < k < j && HappenedBefore(events, i, k) && HappenedBefore(events, k, j);
      HappenedBeforeImpliesLess(events, t, i, k);
      HappenedBeforeImpliesLess(events, t, k, j);
      LessStrictTotal(t.stamps[i], t.stamps[k], t.stamps[j]);
    }
  }

  /** No two events of a run share a timestamp. */
  lemma {:induction false} StampsUnique(events: seq<Event>, t: Trace, i: nat, j: nat)
    requires RunOf(events) == Some(t) && i < j < |events|
    ensures |t.stamps| == |events|
    ensures t.stamps[i] != t.stamps[j]
  {
    RunsOrdered(events, t);
    if events[i].node == events[j].node { LessStrictTotal(t.stamps[i], t.stamps[j], t.stamps[i]); }
  }
}
