/** The geofence engine: which positions of a vessel cross which boundary, and the exact run of
    events that follows. Whether a polygon covers a point is a parameter. */
module Geofences {
  import opened Wrappers
  import opened VesselRepository

  datatype Kind = Entry | Exit

  /** Name-based identifiers are injective in the parts of the name. */
  datatype EventId = EventId(positionId: Uuid, geofenceId: Uuid, kind: Kind)

  datatype GeofenceEvent = GeofenceEvent(
    id: EventId, vesselId: Uuid, geofenceId: Uuid, positionId: Uuid, kind: Kind, occurredAt: int)

  type Covers = (Uuid, real, real) -> bool

  datatype Engine = Engine(state: map<(Uuid, Uuid), bool>, events: set<EventId>)

  function Inside(covers: Covers, geofence: Uuid, p: VesselPosition): bool {
    covers(geofence, p.longitude, p.latitude)
  }

  function KindOf(inside: bool): Kind {
    if inside then Entry else Exit
  }

  /** The event that a position can cause at a geofence. */
  function Crossing(p: VesselPosition, geofence: Uuid, inside: bool): GeofenceEvent {
    var kind := KindOf(inside);
    GeofenceEvent(
      EventId(p.id, geofence, kind), p.vesselId, geofence, p.id, kind, p.sourceTimestamp)
  }

  // ---------------------------------------------------------------- one evaluation

  /** The side a vessel was last seen on. */
  function Seen(e: Engine, vessel: Uuid, geofence: Uuid): Option<bool> {
    if (vessel, geofence) in e.state then Some(e.state[(vessel, geofence)]) else None
  }

  /** An event is due when the side changed and the event's identifier is new. */
  predicate Due(e: Engine, p: VesselPosition, geofence: Uuid, inside: bool) {
    Seen(e, p.vesselId, geofence) == Some(!inside) && Crossing(p, geofence, inside).id !in e.events
  }

  /** The engine after the first `k` geofences were looked at, and the events so far. */
  function Visit(e: Engine, covers: Covers, geofences: seq<Uuid>, p: VesselPosition, k: nat)
    : (Engine, seq<GeofenceEvent>)
    requires k <= |geofences|
  {
    if k == 0 then (e, [])
    else
      var (before, events) := Visit(e, covers, geofences, p, k - 1);
      var g := geofences[k - 1];
      var inside := Inside(covers, g, p);
      var state := before.state[(p.vesselId, g) := inside];
      if Due(before, p, g, inside) then
        var crossing := Crossing(p, g, inside);
        (Engine(state, before.events + {crossing.id}), events + [crossing])
      else (Engine(state, before.events), events)
  }

  /** The kinds of a vessel's events at one geofence, in order. */
  ghost function KindsOf(events: seq<GeofenceEvent>, vessel: Uuid, geofence: Uuid): seq<Kind> {
    if events == [] then []
    else
      var last := events[|events| - 1];
      KindsOf(events[..|events| - 1], vessel, geofence)
      + if last.vesselId == vessel && last.geofenceId == geofence then [last.kind] else []
  }

  lemma KindsPush(events: seq<GeofenceEvent>, event: GeofenceEvent, vessel: Uuid, geofence: Uuid)
    ensures KindsOf(events + [event], vessel, geofence)
            == KindsOf(events, vessel, geofence)
               + if event.vesselId == vessel && event.geofenceId == geofence then [event.kind] else []
  {
    assert (events + [event])[..|events|] == events;
  }

  lemma {:induction false} KindsConcat(a: seq<GeofenceEvent>, b: seq<GeofenceEvent>, vessel: Uuid, geofence: Uuid)
    ensures KindsOf(a + b, vessel, geofence) == KindsOf(a, vessel, geofence) + KindsOf(b, vessel, geofence)
  {
    if b == [] {
      assert a + b == a;
    } else {
      var init := b[..|b| - 1];
      KindsConcat(a, init, vessel, geofence);
      assert (a + b)[..|a + b| - 1] == a + init;
    }
  }

  /** What the change from one side to the other produces. */
  ghost function Change(seen: Option<bool>, inside: bool): seq<Kind> {
    if seen == Some(!inside) then [KindOf(inside)] else []
  }

  /** No event of this position was emitted before. */
  ghost predicate FreshPosition(e: Engine, id: Uuid) {
    forall event :: event in e.events ==> event.positionId != id
  }

  ghost predicate VisitedPair(
    e: Engine, covers: Covers, geofences: seq<Uuid>, p: VesselPosition, k: nat, vessel: Uuid, geofence: Uuid)
    requires k <= |geofences|
  {
    var (after, events) := Visit(e, covers, geofences, p, k);
    var kinds := KindsOf(events, vessel, geofence);
    if vessel == p.vesselId && geofence in geofences[..k] then
      var inside := Inside(covers, geofence, p);
      Seen(after, vessel, geofence) == Some(inside) && kinds == Change(Seen(e, vessel, geofence), inside)
    else
      Seen(after, vessel, geofence) == Seen(e, vessel, geofence) && kinds == []
  }

  /** New identifiers come from this position and the geofences already looked at. */
  ghost predicate NewIdsAreOwn(
    e: Engine, covers: Covers, geofences: seq<Uuid>, p: VesselPosition, k: nat, id: EventId)
    requires k <= |geofences|
  {
    id in Visit(e, covers, geofences, p, k).0.events ==>
      id in e.events || (id.positionId == p.id && id.geofenceId in geofences[..k])
  }

  lemma {:induction false} VisitOwnIds(
    e: Engine, covers: Covers, geofences: seq<Uuid>, p: VesselPosition, k: nat, id: EventId)
    requires k <= |geofences|
    ensures NewIdsAreOwn(e, covers, geofences, p, k, id)
  {
    if k > 0 {
      VisitOwnIds(e, covers, geofences, p, k - 1, id);
      assert geofences[..k] == geofences[..k - 1] + [geofences[k - 1]];
    }
  }

  lemma OwnIdIsNew(e: Engine, covers: Covers, geofences: seq<Uuid>, p: VesselPosition, k: nat, g: Uuid, inside: bool)
    requires k <= |geofences| && FreshPosition(e, p.id) && g !in geofences[..k]
    ensures Crossing(p, g, inside).id !in Visit(e, covers, geofences, p, k).0.events
  {
    hide Visit;
    VisitOwnIds(e, covers, geofences, p, k, Crossing(p, g, inside).id);
  }

  /** What looking at geofence `g` does to one pair. */
  lemma OneVisit(
    before: Engine, events: seq<GeofenceEvent>, p: VesselPosition, g: Uuid, inside: bool, known: set<EventId>,
    vessel: Uuid, geofence: Uuid)
    ensures var own := vessel == p.vesselId && geofence == g;
            var after := Engine(before.state[(p.vesselId, g) := inside], known);
            && Seen(after, vessel, geofence) == (if own then Some(inside) else Seen(before, vessel, geofence))
            && KindsOf(events + [Crossing(p, g, inside)], vessel, geofence)
               == KindsOf(events, vessel, geofence) + if own then [KindOf(inside)] else []
  {
    hide KindsOf, KindOf;
    KindsPush(events, Crossing(p, g, inside), vessel, geofence);
  }

  /** Every pair of the vessel is updated once, however often a geofence is listed. */
  lemma {:induction false} VisitEveryPair(
    e: Engine, covers: Covers, geofences: seq<Uuid>, p: VesselPosition, k: nat, vessel: Uuid, geofence: Uuid)
    requires k <= |geofences| && FreshPosition(e, p.id)
    ensures VisitedPair(e, covers, geofences, p, k, vessel, geofence)
  {
    hide KindsOf, Inside, KindOf, Crossing, Seen, FreshPosition;
    if k == 0 {
      NoKinds(vessel, geofence);
    } else {
      VisitEveryPair(e, covers, geofences, p, k - 1, vessel, geofence);
      var (before, events) := Visit(e, covers, geofences, p, k - 1);
      var g := geofences[k - 1];
      var inside := Inside(covers, g, p);
      assert geofences[..k] == geofences[..k - 1] + [g];
      OneVisit(before, events, p, g, inside, Visit(e, covers, geofences, p, k).0.events, vessel, geofence);
      if vessel == p.vesselId && geofence == g {
        if g in geofences[..k - 1] {
          assert !Due(before, p, g, inside);
        } else {
          OwnIdIsNew(e, covers, geofences, p, k - 1, g, inside);
          assert Due(before, p, g, inside) <==> Seen(e, vessel, geofence) == Some(!inside);
        }
      }
    }
  }

  lemma NoKinds(vessel: Uuid, geofence: Uuid)
    ensures KindsOf([], vessel, geofence) == []
  {
  }

  ghost function EventIds(events: seq<GeofenceEvent>): set<EventId> {
    if events == [] then {} else EventIds(events[..|events| - 1]) + {events[|events| - 1].id}
  }

  /** Every event was new when it was found, and is known from then on. */
  ghost predicate AllNew(known: set<EventId>, events: seq<GeofenceEvent>) {
    forall i :: 0 <= i < |events| ==> events[i].id !in known + EventIds(events[..i])
  }

  lemma {:induction false} VisitFindsNewIds(e: Engine, covers: Covers, geofences: seq<Uuid>, p: VesselPosition, k: nat)
    requires k <= |geofences|
    ensures var (after, events) := Visit(e, covers, geofences, p, k);
            AllNew(e.events, events) && after.events == e.events + EventIds(events)
  {
    if k > 0 {
      VisitFindsNewIds(e, covers, geofences, p, k - 1);
      var (before, events) := Visit(e, covers, geofences, p, k - 1);
      var crossing := Crossing(p, geofences[k - 1], Inside(covers, geofences[k - 1], p));
      var longer := events + [crossing];
      assert longer[..|events|] == events;
      forall i | 0 <= i < |events| ensures longer[..i] == events[..i] {
      }
    }
  }

  // ---------------------------------------------------------------- runs

  /** The engine after a run of evaluations, and every event of the run. */
  ghost function Run(covers: Covers, geofences: seq<Uuid>, log: seq<VesselPosition>)
    : (Engine, seq<GeofenceEvent>)
  {
    if log == [] then (Engine(map[], {}), [])
    else
      var (before, events) := Run(covers, geofences, log[..|log| - 1]);
      var (after, more) := Visit(before, covers, geofences, log[|log| - 1], |geofences|);
      (after, events + more)
  }

  /** On which side the vessel was at each of its positions. */
  ghost function Sides(covers: Covers, log: seq<VesselPosition>, vessel: Uuid, geofence: Uuid): seq<bool> {
    if log == [] then []
    else
      var p := log[|log| - 1];
      Sides(covers, log[..|log| - 1], vessel, geofence)
      + if p.vesselId == vessel then [covers(geofence, p.longitude, p.latitude)] else []
  }

  /** One event per change of side. */
  ghost function Edges(sides: seq<bool>): seq<Kind> {
    if |sides| < 2 then []
    else
      var n := |sides|;
      Edges(sides[..n - 1]) + Change(Some(sides[n - 2]), sides[n - 1])
  }

  ghost predicate DistinctPositions(log: seq<VesselPosition>) {
    forall i, j :: 0 <= i < j < |log| ==> log[i].id != log[j].id
  }

  lemma {:induction false} EventsComeFromTheLog(
    covers: Covers, geofences: seq<Uuid>, log: seq<VesselPosition>, id: EventId)
    requires id in Run(covers, geofences, log).0.events
    ensures exists i :: 0 <= i < |log| && log[i].id == id.positionId
  {
    if log != [] {
      var init, p := log[..|log| - 1], log[|log| - 1];
      var before := Run(covers, geofences, init).0;
      VisitOwnIds(before, covers, geofences, p, |geofences|, id);
      if id in before.events {
        EventsComeFromTheLog(covers, geofences, init, id);
        var i :| 0 <= i < |init| && init[i].id == id.positionId;
        assert log[i].id == id.positionId;
      }
    }
  }

  ghost function LastSide(sides: seq<bool>): Option<bool> {
    if sides == [] then None else Some(sides[|sides| - 1])
  }

  ghost predicate Follows(
    covers: Covers, geofences: seq<Uuid>, log: seq<VesselPosition>, vessel: Uuid, geofence: Uuid)
  {
    var (engine, events) := Run(covers, geofences, log);
    var sides := Sides(covers, log, vessel, geofence);
    && KindsOf(events, vessel, geofence) == Edges(sides)
    && Seen(engine, vessel, geofence) == LastSide(sides)
  }

  lemma EdgesPush(sides: seq<bool>, inside: bool)
    ensures Edges(sides + [inside]) == Edges(sides) + Change(LastSide(sides), inside)
  {
    assert (sides + [inside])[..|sides|] == sides;
  }

  lemma RunPush(covers: Covers, geofences: seq<Uuid>, log: seq<VesselPosition>, p: VesselPosition)
    requires DistinctPositions(log + [p])
    ensures DistinctPositions(log) && FreshPosition(Run(covers, geofences, log).0, p.id)
    ensures var (before, events) := Run(covers, geofences, log);
            var (after, more) := Visit(before, covers, geofences, p, |geofences|);
            Run(covers, geofences, log + [p]) == (after, events + more)
  {
    var longer := log + [p];
    assert longer[..|log|] == log;
    assert forall i :: 0 <= i < |log| ==> longer[i] == log[i];
    forall id | id in Run(covers, geofences, log).0.events ensures id.positionId != p.id {
      EventsComeFromTheLog(covers, geofences, log, id);
      var i :| 0 <= i < |log| && log[i].id == id.positionId;
      assert longer[i].id != longer[|log|].id;
    }
  }

  /** When no position is evaluated twice, a pair's events are exactly its changes of side. */
  lemma {:induction false} EventsAreEdges(
    covers: Covers, geofences: seq<Uuid>, log: seq<VesselPosition>, vessel: Uuid, geofence: Uuid)
    requires DistinctPositions(log) && geofence in geofences
    ensures Follows(covers, geofences, log, vessel, geofence)
  {
    if log != [] {
      var init, p := log[..|log| - 1], log[|log| - 1];
      assert init + [p] == log;
      RunPush(covers, geofences, init, p);
      EventsAreEdges(covers, geofences, init, vessel, geofence);
      var (before, events) := Run(covers, geofences, init);
      VisitEveryPair(before, covers, geofences, p, |geofences|, vessel, geofence);
      assert geofences[..|geofences|] == geofences;
      var (after, more) := Visit(before, covers, geofences, p, |geofences|);
      KindsConcat(events, more, vessel, geofence);
      var sides := Sides(covers, init, vessel, geofence);
      EdgesPush(sides, Inside(covers, geofence, p));
      hide Run, Visit, KindsOf, Edges, Inside;
      assert KindsOf(events, vessel, geofence) + [] == KindsOf(events, vessel, geofence);
      assert sides + [] == sides;
    }
  }

  // ---------------------------------------------------------------- edges alternate

  ghost predicate Alternates(kinds: seq<Kind>) {
    forall i :: 0 < i < |kinds| ==> kinds[i] != kinds[i - 1]
  }

  ghost function CountKind(kinds: seq<Kind>, kind: Kind): nat {
    if kinds == [] then 0
    else CountKind(kinds[..|kinds| - 1], kind) + if kinds[|kinds| - 1] == kind then 1 else 0
  }

  function AsNumber(inside: bool): int {
    if inside then 1 else 0
  }

  lemma CountPush(kinds: seq<Kind>, last: Kind, kind: Kind)
    ensures CountKind(kinds + [last], kind) == CountKind(kinds, kind) + if last == kind then 1 else 0
  {
    assert (kinds + [last])[..|kinds|] == kinds;
  }

  /** Entries and exits alternate, the last one names the present side, and the surplus of entries
      is the difference between the present and the first side. */
  ghost predicate Balanced(kinds: seq<Kind>, first: bool, present: bool) {
    && Alternates(kinds)
    && (if kinds == [] then present == first else kinds[|kinds| - 1] == KindOf(present))
    && CountKind(kinds, Entry) - CountKind(kinds, Exit) == AsNumber(present) - AsNumber(first)
  }

  lemma BalancedPush(kinds: seq<Kind>, first: bool, present: bool)
    requires Balanced(kinds, first, present)
    ensures Balanced(kinds + [KindOf(!present)], first, !present)
  {
    CountPush(kinds, KindOf(!present), Entry);
    CountPush(kinds, KindOf(!present), Exit);
  }

  lemma BalancedStep(kinds: seq<Kind>, first: bool, present: bool, inside: bool)
    requires Balanced(kinds, first, present)
    ensures Balanced(kinds + Change(Some(present), inside), first, inside)
  {
    if inside == !present {
      BalancedPush(kinds, first, present);
    } else {
      assert kinds + [] == kinds;
    }
  }

  lemma {:induction false} EdgesBalance(sides: seq<bool>)
    requires sides != []
    ensures Balanced(Edges(sides), sides[0], sides[|sides| - 1])
  {
    hide Balanced;
    var n := |sides|;
    if n == 1 {
      NothingIsBalanced(sides[0]);
    } else {
      EdgesBalance(sides[..n - 1]);
      BalancedStep(Edges(sides[..n - 1]), sides[0], sides[n - 2], sides[n - 1]);
    }
  }

  lemma NothingIsBalanced(side: bool)
    ensures Balanced([], side, side)
  {
  }

  lemma NoSidesNoEdges()
    ensures Edges([]) == []
  {
  }

  /** The alternation of a pair's events over a whole run. */
  lemma PairAlternates(
    covers: Covers, geofences: seq<Uuid>, log: seq<VesselPosition>, vessel: Uuid, geofence: Uuid)
    requires DistinctPositions(log) && geofence in geofences
    ensures var kinds := KindsOf(Run(covers, geofences, log).1, vessel, geofence);
            var sides := Sides(covers, log, vessel, geofence);
            if sides == [] then kinds == [] else Balanced(kinds, sides[0], sides[|sides| - 1])
  {
    hide KindsOf, Run, Sides, Balanced, Edges, DistinctPositions;
    EventsAreEdges(covers, geofences, log, vessel, geofence);
    var sides := Sides(covers, log, vessel, geofence);
    NoSidesNoEdges();
    if sides != [] {
      EdgesBalance(sides);
    }
  }

  /** The event says which vessel crossed which boundary where, when and in which direction. */
  ghost predicate Caused(covers: Covers, geofences: seq<Uuid>, p: VesselPosition, event: GeofenceEvent) {
    && event.geofenceId in geofences
    && event.vesselId == p.vesselId && event.positionId == p.id && event.occurredAt == p.sourceTimestamp
    && event.id == EventId(p.id, event.geofenceId, event.kind)
    && (event.kind == Entry <==> covers(event.geofenceId, p.longitude, p.latitude))
  }

  lemma {:induction false} VisitIsCaused(
    e: Engine, covers: Covers, geofences: seq<Uuid>, p: VesselPosition, k: nat, event: GeofenceEvent)
    requires k <= |geofences| && event in Visit(e, covers, geofences, p, k).1
    ensures Caused(covers, geofences, p, event)
  {
    if event in Visit(e, covers, geofences, p, k - 1).1 {
      VisitIsCaused(e, covers, geofences, p, k - 1, event);
    } else {
      assert event == Crossing(p, geofences[k - 1], Inside(covers, geofences[k - 1], p));
    }
  }

  /** Every event of a run was caused by a position of the run. */
  lemma {:induction false} EventsAreCaused(
    covers: Covers, geofences: seq<Uuid>, log: seq<VesselPosition>, event: GeofenceEvent)
    requires event in Run(covers, geofences, log).1
    ensures exists p :: p in log && Caused(covers, geofences, p, event)
  {
    hide Visit, Caused;
    var init, last := log[..|log| - 1], log[|log| - 1];
    if event in Run(covers, geofences, init).1 {
      EventsAreCaused(covers, geofences, init, event);
      var p :| p in init && Caused(covers, geofences, p, event);
      assert p in log;
    } else {
      VisitIsCaused(Run(covers, geofences, init).0, covers, geofences, last, |geofences|, event);
    }
  }

  // ---------------------------------------------------------------- the engine

  class GeofenceEngine {
    const geofences: seq<Uuid>
    const covers: Covers
    var state: map<(Uuid, Uuid), bool>
    var events: set<EventId>
    /** Every evaluated position. */
    ghost var log: seq<VesselPosition>

    ghost predicate Valid()
      reads this
    {
      Engine(state, events) == Run(covers, geofences, log).0
    }

    constructor (geofences: seq<Uuid>, covers: Covers)
      ensures Valid() && log == [] && this.geofences == geofences && this.covers == covers
    {
      this.geofences, this.covers := geofences, covers;
      state, events, log := map[], {}, [];
    }

    /** Looks at every geofence and returns the events of this position: the run grows by it. */
    method Evaluate(p: VesselPosition) returns (found: seq<GeofenceEvent>)
      requires Valid()
      modifies this
      ensures Valid() && log == old(log) + [p]
      ensures (Engine(state, events), found)
              == Visit(Engine(old(state), old(events)), covers, geofences, p, |geofences|)
      ensures Run(covers, geofences, log).1 == Run(covers, geofences, old(log)).1 + found
    {
      ghost var before := Engine(state, events);
      found := [];
      for k := 0 to |geofences|
        invariant (Engine(state, events), found) == Visit(before, covers, geofences, p, k)
        invariant log == old(log)
      {
        var g := geofences[k];
        var inside := covers(g, p.longitude, p.latitude);
        var key := (p.vesselId, g);
        var previous := if key in state then Some(state[key]) else None;
        state := state[key := inside];
        if previous.None? || previous.value == inside {
          continue;
        }
        var crossing := Crossing(p, g, inside);
        if crossing.id in events {
          continue;
        }
        events := events + {crossing.id};
        found := found + [crossing];
      }
      assert (log + [p])[..|log|] == log;
      log := log + [p];
    }
  }
}
