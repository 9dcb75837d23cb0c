/** The maritime watch: observations go through deduplication into the vessel index and the geofence
    engine, the operating mode follows an audited chain, and the broker tells the subscribers of
    everything. Normalisation, fresh identifiers and the form of a payload are parameters. */
module MaritimeWatch {
  import opened Wrappers
  import opened OperationsBroker
  import opened VesselRepository
  import opened Geofences

  datatype Connection = Connecting | Connected | Impaired

  datatype Reason = NotConfigured | LiveFailure | ReplayFallback | ValidatedMessage

  datatype Transition = Transition(id: Uuid, from: Mode, to: Mode, reason: Reason, auditEventId: Uuid)

  datatype AuditEvent = AuditEvent(id: Uuid, resourceId: Uuid)

  datatype Message =
    | Quarantined(mode: Mode)
    | PositionSeen(mode: Mode, view: View)
    | Crossed(mode: Mode, event: GeofenceEvent)
    | ModeChanged(mode: Mode, transition: Transition)

  function TypeOf(m: Message): EventType {
    match m
    case Quarantined(_) => Error
    case PositionSeen(_, _) => EventType.VesselPosition
    case Crossed(_, _) => GeofenceCrossed
    case ModeChanged(_, _) => ModeTransition
  }

  /** A raw message with the outcome of its normalisation: nothing if that raised. */
  datatype RawMessage = RawMessage(live: bool, observation: Option<View>, newId: Uuid, newAuditId: Uuid)

  // ---------------------------------------------------------------- specification

  ghost function PositionsOf(log: seq<View>): seq<VesselPosition> {
    seq(|log|, i requires 0 <= i < |log| => log[i].position)
  }

  /** Transitions lead from DEGRADED to the present mode, each from where the last one ended, and
      each really changes the mode. */
  ghost predicate Chain(transitions: seq<Transition>, mode: Mode) {
    if transitions == [] then mode == Degraded
    else
      var last := transitions[|transitions| - 1];
      last.to == mode && last.from != last.to && Chain(transitions[..|transitions| - 1], last.from)
  }

  /** One audit event per transition, in order, each naming its transition. */
  ghost predicate Audited(transitions: seq<Transition>, audits: seq<AuditEvent>) {
    && |audits| == |transitions|
    && forall i :: 0 <= i < |audits| ==>
         audits[i] == AuditEvent(transitions[i].auditEventId, transitions[i].id)
  }

  /** The messages of each kind, in order. */
  ghost function PositionMessages(outbox: seq<Message>): seq<View> {
    if outbox == [] then []
    else
      var m := outbox[|outbox| - 1];
      PositionMessages(outbox[..|outbox| - 1]) + if m.PositionSeen? then [m.view] else []
  }

  ghost function CrossingMessages(outbox: seq<Message>): seq<GeofenceEvent> {
    if outbox == [] then []
    else
      var m := outbox[|outbox| - 1];
      CrossingMessages(outbox[..|outbox| - 1]) + if m.Crossed? then [m.event] else []
  }

  ghost function ModeMessages(outbox: seq<Message>): seq<Transition> {
    if outbox == [] then []
    else
      var m := outbox[|outbox| - 1];
      ModeMessages(outbox[..|outbox| - 1]) + if m.ModeChanged? then [m.transition] else []
  }

  /** The mode after a list of transitions. */
  ghost function ModeAfter(transitions: seq<Transition>): Mode {
    if transitions == [] then Degraded else transitions[|transitions| - 1].to
  }

  /** Every message carries the mode in force when it was published, a change of mode the new one. */
  ghost predicate Stamped(outbox: seq<Message>) {
    outbox == []
    || (Stamped(outbox[..|outbox| - 1]) && outbox[|outbox| - 1].mode == ModeAfter(ModeMessages(outbox)))
  }

  lemma StampPush(outbox: seq<Message>, m: Message)
    requires Stamped(outbox) && m.mode == ModeAfter(ModeMessages(outbox + [m]))
    ensures Stamped(outbox + [m])
  {
    assert (outbox + [m])[..|outbox|] == outbox;
  }

  lemma ChainEnds(transitions: seq<Transition>, mode: Mode)
    requires Chain(transitions, mode)
    ensures mode == ModeAfter(transitions)
  {
  }

  /** From the first message to the last, subscribers are told the mode in which it was published. */
  lemma {:induction false} MessagesCarryMode(outbox: seq<Message>, i: nat)
    requires Stamped(outbox) && i < |outbox|
    ensures outbox[i].mode == ModeAfter(ModeMessages(outbox[..i + 1]))
  {
    hide ModeAfter, ModeMessages;
    var init := outbox[..|outbox| - 1];
    if i < |init| {
      MessagesCarryMode(init, i);
      assert init[..i + 1] == outbox[..i + 1];
    } else {
      assert outbox[..i + 1] == outbox;
    }
  }

  lemma MessagePush(outbox: seq<Message>, m: Message)
    ensures PositionMessages(outbox + [m]) == PositionMessages(outbox) + if m.PositionSeen? then [m.view] else []
    ensures CrossingMessages(outbox + [m]) == CrossingMessages(outbox) + if m.Crossed? then [m.event] else []
    ensures ModeMessages(outbox + [m]) == ModeMessages(outbox) + if m.ModeChanged? then [m.transition] else []
  {
    assert (outbox + [m])[..|outbox|] == outbox;
  }

  /** The `n`-th published event as the broker numbers it. */
  ghost function EventOf(render: Message -> string, outbox: seq<Message>, n: nat): Event
    requires 0 < n <= |outbox|
  {
    var m := outbox[n - 1];
    var eventType :=
      if m.PositionSeen? then EventType.VesselPosition
      else if m.Crossed? then GeofenceCrossed
      else if m.ModeChanged? then ModeTransition
      else Error;
    Event(n, eventType, m.mode, render(m))
  }

  /** The broker's log holds the messages, one event each. */
  ghost predicate Relays(published: seq<Event>, render: Message -> string, outbox: seq<Message>) {
    && |published| == |outbox|
    && forall n: nat :: 0 < n <= |outbox| ==> published[n - 1] == EventOf(render, outbox, n)
  }

  /** The observations held after a run of raw messages: what normalises and is new, in order. */
  ghost function AcceptedAfter(log: seq<View>, raws: seq<RawMessage>): seq<View> {
    if raws == [] then log
    else
      var before, raw := AcceptedAfter(log, raws[..|raws| - 1]), raws[|raws| - 1];
      if raw.observation.Some? && raw.observation.value.position.id !in Ids(before)
      then before + [raw.observation.value] else before
  }

  ghost function Unreadable(raws: seq<RawMessage>): nat {
    if raws == [] then 0
    else Unreadable(raws[..|raws| - 1]) + if raws[|raws| - 1].observation.None? then 1 else 0
  }

  lemma {:induction false} AcceptedInTurn(log: seq<View>, a: seq<RawMessage>, b: seq<RawMessage>)
    ensures AcceptedAfter(log, a + b) == AcceptedAfter(AcceptedAfter(log, a), b)
  {
    if b == [] {
      assert a + b == a;
    } else {
      AcceptedInTurn(log, a, b[..|b| - 1]);
      assert (a + b)[..|a + b| - 1] == a + b[..|b| - 1];
    }
  }

  lemma RelaysPush(published: seq<Event>, render: Message -> string, outbox: seq<Message>, m: Message)
    requires Relays(published, render, outbox)
    ensures Relays(published + [Event(|published| + 1, TypeOf(m), m.mode, render(m))], render, outbox + [m])
  {
    var longer := outbox + [m];
    forall n: nat | 0 < n <= |outbox| ensures EventOf(render, longer, n) == EventOf(render, outbox, n) {
      assert longer[n - 1] == outbox[n - 1];
    }
  }

  /** Where the outbox holds the message of the `i`-th observation. */
  lemma {:induction false} MessageOf(outbox: seq<Message>, i: nat) returns (n: nat)
    requires i < |PositionMessages(outbox)|
    ensures 0 < n <= |outbox| && outbox[n - 1].PositionSeen? && outbox[n - 1].view == PositionMessages(outbox)[i]
    ensures |PositionMessages(outbox[..n - 1])| == i
  {
    var init := outbox[..|outbox| - 1];
    if i < |PositionMessages(init)| {
      n := MessageOf(init, i);
      assert outbox[..n - 1] == init[..n - 1];
    } else {
      n := |outbox|;
    }
  }

  lemma ChainPush(transitions: seq<Transition>, t: Transition)
    requires Chain(transitions, t.from) && t.from != t.to
    ensures Chain(transitions + [t], t.to)
  {
    assert (transitions + [t])[..|transitions|] == transitions;
  }

  lemma AuditedPush(transitions: seq<Transition>, audits: seq<AuditEvent>, t: Transition)
    requires Audited(transitions, audits)
    ensures Audited(transitions + [t], audits + [AuditEvent(t.auditEventId, t.id)])
  {
  }

  /** Reading the chain forwards. */
  lemma {:induction false} ChainLinks(transitions: seq<Transition>, mode: Mode, i: nat)
    requires Chain(transitions, mode) && i < |transitions|
    ensures transitions[i].from == if i == 0 then Degraded else transitions[i - 1].to
    ensures transitions[i].from != transitions[i].to
    decreases |transitions|
  {
    var n := |transitions|;
    if i < n - 1 {
      ChainLinks(transitions[..n - 1], transitions[n - 1].from, i);
    }
  }

  function ConnectionFor(mode: Mode): Connection {
    if mode == Live || mode == Replay then Connected else Impaired
  }

  // ---------------------------------------------------------------- the service

  class MaritimeWatchService {
    const repository: InMemoryMaritimeRepository
    const engine: GeofenceEngine
    const broker: OperationsBroker
    const render: Message -> string
    var mode: Mode
    var connection: Connection
    var quarantined: nat
    /** Saved through the repository in the source: transitions, audit events, geofence events. */
    var transitions: seq<Transition>
    var audits: seq<AuditEvent>
    var geofenceEvents: seq<GeofenceEvent>
    var geofenceEventIds: set<EventId>
    /** Every message handed to the broker. */
    ghost var outbox: seq<Message>

    ghost predicate Valid()
      reads this, repository, engine, broker, broker.subscribers
    {
      && repository.Valid() && engine.Valid() && Relayed()
      && engine.log == PositionsOf(repository.log)
      && Announced()
      && ModeAudited()
    }

    /** Subscribers are told of every accepted observation and every crossing, once and in order. */
    ghost predicate Announced()
      reads this, repository, engine
    {
      && geofenceEvents == Run(engine.covers, engine.geofences, engine.log).1
      && geofenceEventIds == engine.events
      && PositionMessages(outbox) == repository.log
      && CrossingMessages(outbox) == geofenceEvents
    }

    ghost predicate Relayed()
      reads this, broker, broker.subscribers
    {
      broker.Valid() && Relays(broker.published, render, outbox)
    }

    ghost predicate ModeAudited()
      reads this
    {
      && Chain(transitions, mode) && Audited(transitions, audits) && ModeMessages(outbox) == transitions
      && Stamped(outbox)
    }

    constructor (
      repository: InMemoryMaritimeRepository, engine: GeofenceEngine, broker: OperationsBroker,
      render: Message -> string)
      requires repository.Valid() && repository.log == [] && engine.Valid() && engine.log == []
      requires broker.Valid() && broker.published == []
      ensures Valid() && this.repository == repository && this.engine == engine && this.broker == broker
      ensures this.render == render && mode == Degraded && quarantined == 0
    {
      this.repository, this.engine, this.broker, this.render := repository, engine, broker, render;
      mode, connection, outbox, quarantined := Degraded, Connecting, [], 0;
      transitions, audits, geofenceEvents, geofenceEventIds := [], [], [], {};
    }

    /** Publishes a message through the broker. */
    method Tell(m: Message)
      requires Relayed() && Stamped(outbox)
      requires m.mode == ModeAfter(ModeMessages(outbox) + if m.ModeChanged? then [m.transition] else [])
      modifies this`outbox, broker, broker.subscribers
      ensures Stamped(outbox)
      ensures Relayed() && outbox == old(outbox) + [m] && broker.subscribers == old(broker.subscribers)
      ensures PositionMessages(outbox) == PositionMessages(old(outbox)) + if m.PositionSeen? then [m.view] else []
      ensures CrossingMessages(outbox) == CrossingMessages(old(outbox)) + if m.Crossed? then [m.event] else []
      ensures ModeMessages(outbox) == ModeMessages(old(outbox)) + if m.ModeChanged? then [m.transition] else []
    {
      hide Relays, PositionMessages, CrossingMessages, ModeMessages, TypeOf, Stamped, ModeAfter;
      RelaysPush(broker.published, render, outbox, m);
      MessagePush(outbox, m);
      StampPush(outbox, m);
      var event := broker.Publish(TypeOf(m), m.mode, render(m));
      outbox := outbox + [m];
    }

    /** Changes the mode, with an audit record; staying in a mode leaves no trace. */
    method ChangeMode(to: Mode, reason: Reason, newId: Uuid, newAuditId: Uuid)
      requires ModeAudited() && Relayed()
      modifies this`mode, this`connection, this`outbox, this`transitions, this`audits, broker, broker.subscribers
      ensures broker.subscribers == old(broker.subscribers)
      ensures ModeAudited() && Relayed() && mode == to
      ensures connection == if to == Degraded then Impaired else Connected
      ensures transitions
              == old(transitions)
                 + if old(mode) == to then [] else [Transition(newId, old(mode), to, reason, newAuditId)]
      ensures PositionMessages(outbox) == PositionMessages(old(outbox))
      ensures CrossingMessages(outbox) == CrossingMessages(old(outbox))
    {
      hide Stamped, ModeAfter, Chain, Audited, CrossingMessages, ModeMessages, PositionMessages, Relays;
      if to == mode {
        connection := ConnectionFor(to);
        return;
      }
      var transition := Transition(newId, mode, to, reason, newAuditId);
      ChainPush(transitions, transition);
      AuditedPush(transitions, audits, transition);
      mode, connection := to, ConnectionFor(to);
      transitions := transitions + [transition];
      audits := audits + [AuditEvent(newAuditId, newId)];
      ChainEnds(transitions, mode);
      Tell(ModeChanged(mode, transition));
    }

    /** One raw message: quarantine, mode change, deduplication, index, events. */
    method Process(raw: RawMessage)
      requires Valid()
      modifies this, repository, engine, broker, broker.subscribers
      ensures broker.subscribers == old(broker.subscribers)
      ensures Valid()
      ensures mode == if raw.live && raw.observation.Some? then Live else old(mode)
      ensures connection == old(connection) || connection == Connected
      ensures quarantined == old(quarantined) + if raw.observation.None? then 1 else 0
      ensures raw.observation.None? ==> outbox == old(outbox) + [Quarantined(old(mode))]
      ensures transitions
              == old(transitions)
                 + if raw.live && raw.observation.Some? && old(mode) != Live
                   then [Transition(raw.newId, old(mode), Live, ValidatedMessage, raw.newAuditId)] else []
      ensures repository.log
              == old(repository.log)
                 + if raw.observation.Some? && raw.observation.value.position.id !in Ids(old(repository.log))
                   then [raw.observation.value] else []
    {
      hide Run, PositionMessages, CrossingMessages, ModeMessages, Chain, Audited, Relays, Ids, PositionsOf,
        Stamped, ModeAfter;
      if raw.observation.None? {
        quarantined := quarantined + 1;
        ChainEnds(transitions, mode);
        assert transitions + [] == transitions;
        Tell(Quarantined(mode));
        return;
      }
      var view := raw.observation.value;
      if raw.live && mode != Live {
        ChangeMode(Live, ValidatedMessage, raw.newId, raw.newAuditId);
      }
      Accept(view);
    }

    /** A normalised observation: deduplication, index, events. */
    method Accept(view: View)
      requires Valid()
      modifies this`outbox, this`geofenceEvents, this`geofenceEventIds, repository, engine
      modifies broker, broker.subscribers
      ensures broker.subscribers == old(broker.subscribers)
      ensures Valid()
      ensures repository.log
              == old(repository.log) + if view.position.id !in Ids(old(repository.log)) then [view] else []
    {
      hide Run, Visit, AllNew, EventIds, Ids, Chain, Audited, CrossingMessages, ModeMessages, PositionMessages,
        Relays, Stamped, ModeAfter;
      hide InMemoryMaritimeRepository.Valid, OperationsBroker.Valid;
      var accepted := repository.SaveObservation(view);
      if !accepted {
        return;
      }
      ChainEnds(transitions, mode);
      assert transitions + [] == transitions;
      Tell(PositionSeen(mode, view));
      ghost var before := Engine(engine.state, engine.events);
      var found := engine.Evaluate(view.position);
      VisitFindsNewIds(before, engine.covers, engine.geofences, view.position, |engine.geofences|);
      Announce(found);
      assert engine.log == PositionsOf(repository.log);
    }

    /** Keeps an event unless its identifier was kept before. */
    method SaveGeofenceEvent(event: GeofenceEvent) returns (saved: bool)
      modifies this`geofenceEvents, this`geofenceEventIds
      ensures saved == (event.id !in old(geofenceEventIds))
      ensures geofenceEventIds == old(geofenceEventIds) + {event.id}
      ensures geofenceEvents == old(geofenceEvents) + if saved then [event] else []
    {
      saved := event.id !in geofenceEventIds;
      if saved {
        geofenceEventIds := geofenceEventIds + {event.id};
        geofenceEvents := geofenceEvents + [event];
      }
    }

    /** Saves and publishes the events of one position. */
    method Announce(found: seq<GeofenceEvent>)
      requires AllNew(geofenceEventIds, found) && ModeAudited() && Relayed()
      modifies this`geofenceEvents, this`geofenceEventIds, this`outbox, broker, broker.subscribers
      ensures Relayed() && broker.subscribers == old(broker.subscribers)
      ensures geofenceEvents == old(geofenceEvents) + found
      ensures geofenceEventIds == old(geofenceEventIds) + EventIds(found)
      ensures CrossingMessages(outbox) == CrossingMessages(old(outbox)) + found
      ensures PositionMessages(outbox) == PositionMessages(old(outbox)) && ModeAudited()
    {
      hide Stamped, ModeAfter, Chain, Audited, CrossingMessages, ModeMessages, PositionMessages;
      assert found[..0] == [];
      for i := 0 to |found|
        invariant geofenceEvents == old(geofenceEvents) + found[..i]
        invariant geofenceEventIds == old(geofenceEventIds) + EventIds(found[..i])
        invariant CrossingMessages(outbox) == CrossingMessages(old(outbox)) + found[..i]
        invariant PositionMessages(outbox) == PositionMessages(old(outbox)) && ModeAudited()
        invariant Relayed() && broker.subscribers == old(broker.subscribers)
      {
        var event := found[i];
        assert found[..i + 1] == found[..i] + [event] && found[..i + 1][..i] == found[..i];
        assert event.id !in old(geofenceEventIds) + EventIds(found[..i]);
        var saved := SaveGeofenceEvent(event);
        if saved {
          ChainEnds(transitions, mode);
          assert transitions + [] == transitions;
          Tell(Crossed(mode, event));
        }
      }
      assert found[..|found|] == found;
    }

    /** Deduplication gives every evaluated position its own identifier, so through the service a
        vessel's events at a geofence strictly alternate and balance. */
    lemma CrossingsAlternate(vessel: Uuid, geofence: Uuid)
      requires Valid() && geofence in engine.geofences
      ensures var kinds := KindsOf(CrossingMessages(outbox), vessel, geofence);
              var sides := Sides(engine.covers, PositionsOf(PositionMessages(outbox)), vessel, geofence);
              && kinds == Edges(sides)
              && if sides == [] then kinds == [] else Balanced(kinds, sides[0], sides[|sides| - 1])
    {
      assert DistinctPositions(engine.log);
      EventsAreEdges(engine.covers, engine.geofences, engine.log, vessel, geofence);
      PairAlternates(engine.covers, engine.geofences, engine.log, vessel, geofence);
    }

    /** No observation is lost silently: what was accepted after a subscriber joined is in its stream,
        or is skipped by a marker that carries the same or a later number. */
    lemma ObservationsReachSubscribers(q: Subscriber, i: nat) returns (n: nat, at: nat)
      requires Valid() && q in broker.subscribers && i < |repository.log|
      ensures 0 < n <= |outbox| && outbox[n - 1].PositionSeen? && outbox[n - 1].view == repository.log[i]
      ensures q.joined < n ==>
                var stream := q.delivered + q.items;
                && at < |stream| && Previous(q.joined, stream, at) < n <= stream[at].sequence <= |outbox|
                && (stream[at].eventType == ResyncRequired || stream[at] == EventOf(render, outbox, n))
    {
      n := MessageOf(outbox, i);
      at := 0;
      if q.joined < n {
        at := NothingLostSilently(q.joined, q.delivered + q.items, broker.published, n, 0);
      }
    }

    /** Drains one source. */
    method Consume(raws: seq<RawMessage>)
      requires Valid()
      modifies this, repository, engine, broker, broker.subscribers
      ensures broker.subscribers == old(broker.subscribers)
      ensures Valid()
      ensures mode == old(mode) || mode == Live
      ensures connection == old(connection) || connection == Connected
      ensures (forall i :: 0 <= i < |raws| ==> !raws[i].live) ==> mode == old(mode) && transitions == old(transitions)
      ensures repository.log == AcceptedAfter(old(repository.log), raws)
      ensures quarantined == old(quarantined) + Unreadable(raws)
    {
      hide PositionsOf, Chain, Audited, Relays, PositionMessages, CrossingMessages, ModeMessages, Run, Ids,
        Stamped, ModeAfter;
      for i := 0 to |raws|
        invariant Valid() && broker.subscribers == old(broker.subscribers)
        invariant mode == old(mode) || mode == Live
        invariant connection == old(connection) || connection == Connected
        invariant (forall k :: 0 <= k < |raws| ==> !raws[k].live) ==>
                    mode == old(mode) && transitions == old(transitions)
        invariant repository.log == AcceptedAfter(old(repository.log), raws[..i])
        invariant quarantined == old(quarantined) + Unreadable(raws[..i])
      {
        assert raws[..i + 1][..i] == raws[..i];
        Process(raws[i]);
      }
      assert raws[..|raws|] == raws;
    }

    /** The ingestion task: the live source if there is one, then the replay. A live source that
        ends or fails leads through DEGRADED to REPLAY, and a replay without live messages stays there. */
    method Ingest(live: Option<seq<RawMessage>>, replay: seq<RawMessage>, first: (Uuid, Uuid), second: (Uuid, Uuid))
      requires Valid()
      modifies this, repository, engine, broker, broker.subscribers
      ensures broker.subscribers == old(broker.subscribers)
      ensures Valid()
      ensures (forall i :: 0 <= i < |replay| ==> !replay[i].live) ==> mode == Replay && connection == Connected
      ensures var raws := (if live.Some? then live.value else []) + replay;
              && repository.log == AcceptedAfter(old(repository.log), raws)
              && quarantined == old(quarantined)
                 + (if live.Some? then Unreadable(live.value) else 0) + Unreadable(replay)
      ensures live.Some? && (forall i :: 0 <= i < |replay| ==> !replay[i].live) ==>
                transitions != []
                && transitions[|transitions| - 1]
                   == Transition(second.0, Degraded, Replay, ReplayFallback, second.1)
      ensures live.None? && (forall i :: 0 <= i < |replay| ==> !replay[i].live) ==>
                transitions
                == old(transitions)
                   + if old(mode) == Replay then []
                     else [Transition(first.0, old(mode), Replay, NotConfigured, first.1)]
    {
      hide Stamped, ModeAfter, Chain, Audited, CrossingMessages, ModeMessages, PositionMessages, Run, PositionsOf,
        Relays, AcceptedAfter, Unreadable;
      hide InMemoryMaritimeRepository.Valid, GeofenceEngine.Valid, OperationsBroker.Valid;
      assert [] + replay == replay;
      if live.None? {
        ChangeMode(Replay, NotConfigured, first.0, first.1);
      } else {
        connection := Connecting;
        Consume(live.value);
        AcceptedInTurn(old(repository.log), live.value, replay);
        ChangeMode(Degraded, LiveFailure, first.0, first.1);
        ChangeMode(Replay, ReplayFallback, second.0, second.1);
      }
      connection := Connected;
      Consume(replay);
    }
  }
}
