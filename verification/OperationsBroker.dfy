/** The operations event broker: a bounded history and bounded subscriber queues. What every
    subscriber dequeues is related to the unbounded log of published events. */
module OperationsBroker {
  import opened Sequences
  import opened Wrappers

  datatype EventType = VesselPosition | GeofenceCrossed | ModeTransition | Heartbeat | ResyncRequired | Error

  datatype Mode = Live | Degraded | Replay

  datatype Event = Event(sequence: nat, eventType: EventType, mode: Mode, payload: string)

  // ---------------------------------------------------------------- streams

  /** The event a full queue receives instead of the published one. */
  function Marker(e: Event): Event {
    Event(e.sequence, ResyncRequired, e.mode, "subscriber_queue_overflow")
  }

  function Full(queued: seq<Event>, capacity: int): bool {
    capacity > 0 && |queued| >= capacity
  }

  /** What publishing leaves in one queue. */
  function Offer(queued: seq<Event>, capacity: int, e: Event): seq<Event> {
    if Full(queued, capacity) then [Marker(e)] else queued + [e]
  }

  ghost predicate Numbered(published: seq<Event>) {
    forall k :: 0 <= k < |published| ==> published[k].sequence == k + 1
  }

  function Previous(joined: nat, stream: seq<Event>, i: int): nat
    requires 0 <= i <= |stream|
  {
    if i == 0 then joined else stream[i - 1].sequence
  }

  /** The i-th item is the published event right after the previous item, or tells the client to
      resynchronise, up to the number it carries. */
  ghost predicate StepRight(joined: nat, stream: seq<Event>, published: seq<Event>, i: int) {
    0 <= i < |stream| ==>
      var e, previous := stream[i], Previous(joined, stream, i);
      && previous < e.sequence <= |published|
      && (e.eventType == ResyncRequired || (e == published[e.sequence - 1] && e.sequence == previous + 1))
  }

  /** Everything a subscriber has received or still holds, since it joined. */
  ghost predicate StreamRight(joined: nat, stream: seq<Event>, published: seq<Event>) {
    && joined <= |published|
    && (forall i :: StepRight(joined, stream, published, i))
    && Previous(joined, stream, |stream|) == |published|
  }

  lemma StreamPush(
    joined: nat, delivered: seq<Event>, queued: seq<Event>, capacity: int, published: seq<Event>, e: Event)
    requires StreamRight(joined, delivered + queued, published) && e.sequence == |published| + 1
    ensures StreamRight(joined, delivered + Offer(queued, capacity, e), published + [e])
    ensures capacity > 0 && |queued| <= capacity ==> |Offer(queued, capacity, e)| <= capacity
  {
    var before, after := delivered + queued, delivered + Offer(queued, capacity, e);
    assert (published + [e])[|published|] == e;
    assert !Full(queued, capacity) ==> after == before + [e];
    forall i ensures StepRight(joined, after, published + [e], i) {
      assert StepRight(joined, before, published, i);
      if 0 <= i < |after| - 1 {
        assert after[i] == before[i];
      } else if i == |after| - 1 {
        PreviousBounded(joined, before, published, i);
        assert i > 0 ==> after[i - 1] == before[i - 1];
      }
    }
  }

  lemma {:induction false} PreviousBounded(joined: nat, stream: seq<Event>, published: seq<Event>, i: int)
    requires StreamRight(joined, stream, published) && 0 <= i <= |stream|
    ensures joined <= Previous(joined, stream, i) <= |published|
  {
    if i > 0 {
      assert StepRight(joined, stream, published, i - 1);
      PreviousBounded(joined, stream, published, i - 1);
    }
  }

  /** No event asks for a resynchronisation by itself; only the broker's own items do. */
  ghost predicate Ordinary(published: seq<Event>) {
    forall k :: 0 <= k < |published| ==> published[k].eventType != ResyncRequired
  }

  /** What a client can see: an item is the event published under its number, and follows the item
      before it without a jump, exactly when it does not ask for a resynchronisation. */
  lemma JumpsAreVisible(joined: nat, stream: seq<Event>, published: seq<Event>, i: nat)
    requires StreamRight(joined, stream, published) && Ordinary(published) && i < |stream|
    ensures 0 < stream[i].sequence <= |published|
    ensures stream[i].eventType != ResyncRequired <==>
              stream[i] == published[stream[i].sequence - 1]
              && stream[i].sequence == (if i == 0 then joined else stream[i - 1].sequence) + 1
  {
    PreviousBounded(joined, stream, published, i);
    assert StepRight(joined, stream, published, i);
  }

  /** No silent loss: every event published since the subscriber joined reaches it, or is skipped
      by an item that asks for a resynchronisation and carries the same or a later number. */
  lemma {:induction false} NothingLostSilently(joined: nat, stream: seq<Event>, published: seq<Event>, n: nat, i: nat)
    returns (at: nat)
    requires StreamRight(joined, stream, published) && i <= |stream|
    requires Previous(joined, stream, i) < n <= |published|
    ensures at < |stream| && Previous(joined, stream, at) < n <= stream[at].sequence <= |published|
    ensures stream[at].eventType == ResyncRequired || stream[at] == published[n - 1]
    decreases |stream| - i
  {
    assert StepRight(joined, stream, published, i);
    if n <= stream[i].sequence {
      at := i;
    } else {
      at := NothingLostSilently(joined, stream, published, n, i + 1);
    }
  }

  // ---------------------------------------------------------------- a consumer that obeys the markers

  /** The state after a run of events. */
  ghost function Fold<S>(step: (S, Event) -> S, init: S, events: seq<Event>): S {
    if events == [] then init
    else step(Fold(step, init, events[..|events| - 1]), events[|events| - 1])
  }

  /** A consumer that starts from the state at its joining, applies events, and when it is told to
      resynchronise reloads the state of that moment. */
  ghost function Consume<S>(
    step: (S, Event) -> S, init: S, published: seq<Event>, joined: nat, stream: seq<Event>): S
    requires joined <= |published|
  {
    if stream == [] then Fold(step, init, published[..joined])
    else
      var e := stream[|stream| - 1];
      if 0 < e.sequence <= |published| && e.eventType == ResyncRequired then
        Fold(step, init, published[..e.sequence])
      else step(Consume(step, init, published, joined, stream[..|stream| - 1]), e)
  }

  /** Such a consumer is never out of step: after any prefix of its stream it holds exactly the
      state the broker's log had at the last sequence number it saw. */
  lemma {:induction false} ConsumerStaysInStep<S>(
    step: (S, Event) -> S, init: S, published: seq<Event>, joined: nat, stream: seq<Event>, k: nat)
    requires StreamRight(joined, stream, published) && k <= |stream|
    ensures Previous(joined, stream, k) <= |published|
    ensures Consume(step, init, published, joined, stream[..k])
            == Fold(step, init, published[..Previous(joined, stream, k)])
  {
    if k > 0 {
      assert StepRight(joined, stream, published, k - 1);
      ConsumerStaysInStep(step, init, published, joined, stream, k - 1);
      assert stream[..k][..k - 1] == stream[..k - 1];
      var n := stream[k - 1].sequence;
      assert published[..n][..n - 1] == published[..n - 1];
    }
  }

  // ---------------------------------------------------------------- the retained history

  /** The events a client with this cursor has not seen. A number the broker never gave out comes
      from an earlier run, or from nowhere, and then none of its events was seen. */
  ghost function Unseen(published: seq<Event>, cursor: int): seq<Event> {
    if 0 <= cursor <= |published| then published[cursor..] else published
  }

  /** The client is not told to resynchronise, and yet misses events. */
  ghost predicate Lost(published: seq<Event>, cursor: int, answer: Option<seq<Event>>) {
    answer.Some? && answer.value != Unseen(published, cursor)
  }

  /** What a reconnecting client is told. */
  ghost function SinceAnswer(published: seq<Event>, historySize: nat, cursor: int): Option<seq<Event>> {
    var oldest := |published| - |Keep(published, historySize)| + 1;
    if |Keep(published, historySize)| == 0 then Some([])
    else if cursor != 0 && cursor < oldest - 1 then None
    else if cursor >= |published| then Some([])
    else Some(published[if cursor >= oldest - 1 then cursor else oldest - 1..])
  }

  /** Where the events after a cursor start in a list numbered from `base + 1`. */
  ghost function FirstAfter(length: nat, base: nat, cursor: int): (k: nat)
    ensures k <= length
  {
    if cursor <= base then 0 else if cursor >= base + length then length else cursor - base
  }

  /** A reconnecting client is given every event it has not seen, or told to resynchronise - unless
      its cursor is zero and the history has overflowed, or its cursor lies ahead of the broker, as
      after a restart, or nothing is retained at all. */
  lemma SinceLosesExactly(published: seq<Event>, historySize: nat, cursor: int)
    ensures Lost(published, cursor, SinceAnswer(published, historySize, cursor)) <==>
              published != []
              && if historySize == 0 then cursor != |published|
                 else cursor > |published| || (cursor == 0 && |published| > historySize)
  {
    if historySize > 0 && cursor == 0 && |published| > historySize {
      assert |published[|published| - historySize..]| < |published|;
    } else if historySize > 0 && cursor == |published| {
      assert published[cursor..] == [];
    }
  }

  // ---------------------------------------------------------------- the broker

  class Subscriber {
    const capacity: int
    ghost const joined: nat
    var items: seq<Event>
    ghost var delivered: seq<Event>

    ghost predicate Right(published: seq<Event>)
      reads this
    {
      && StreamRight(joined, delivered + items, published)
      && (capacity > 0 ==> |items| <= capacity)
    }

    constructor (capacity: int, ghost joined: nat)
      ensures this.capacity == capacity && this.joined == joined && items == [] && delivered == []
    {
      this.capacity, this.joined := capacity, joined;
      items, delivered := [], [];
    }

    /** The broker's side: a full queue is drained and left with the marker. */
    method Receive(event: Event)
      modifies this
      ensures items == Offer(old(items), capacity, event) && delivered == old(delivered)
    {
      if capacity > 0 && |items| >= capacity {
        while items != []
          invariant delivered == old(delivered)
          decreases |items|
        {
          items := items[1..];
        }
        items := items + [Marker(event)];
      } else {
        items := items + [event];
      }
    }

    /** The consumer's dequeue; it proceeds once an item is there. */
    method Dequeue() returns (e: Event)
      requires items != []
      modifies this
      ensures [e] + items == old(items) && delivered == old(delivered) + [e]
      ensures delivered + items == old(delivered + items)
    {
      e := items[0];
      items := items[1..];
      delivered := delivered + [e];
    }
  }

  class OperationsBroker {
    const historySize: nat
    const queueSize: int
    var history: seq<Event>
    var subscribers: set<Subscriber>
    var sequence: nat
    ghost var published: seq<Event>

    ghost predicate Valid()
      reads this, subscribers
    {
      && sequence == |published| && Numbered(published)
      && history == Keep(published, historySize)
      && forall q :: q in subscribers ==> q.capacity == queueSize && q.Right(published)
    }

    constructor (historySize: nat, queueSize: int)
      ensures Valid() && subscribers == {} && published == []
      ensures this.historySize == historySize && this.queueSize == queueSize
    {
      this.historySize, this.queueSize := historySize, queueSize;
      history, subscribers, sequence, published := [], {}, 0, [];
    }

    /** Numbers the event, retains it, and offers it to every queue. A full queue is drained and
        left with one item, which asks for a resynchronisation. */
    method Publish(eventType: EventType, mode: Mode, payload: string) returns (event: Event)
      requires Valid()
      modifies this, subscribers
      ensures Valid() && subscribers == old(subscribers)
      ensures event == Event(old(sequence) + 1, eventType, mode, payload)
      ensures published == old(published) + [event]
      ensures forall q :: q in subscribers ==>
                q.delivered == old(q.delivered)
                && q.items == if queueSize > 0 && |old(q.items)| >= queueSize
                              then [Event(event.sequence, ResyncRequired, mode, "subscriber_queue_overflow")]
                              else old(q.items) + [event]
    {
      sequence := sequence + 1;
      event := Event(sequence, eventType, mode, payload);
      KeepPush(published, historySize, event);
      history := Keep(history + [event], historySize);
      ghost var before := published;
      published := published + [event];
      Broadcast(event);
      forall q | q in subscribers ensures q.Right(published) {
        StreamPush(q.joined, old(q.delivered), old(q.items), queueSize, before, event);
      }
    }

    /** Offers the event to every queue of a snapshot of the subscribers. */
    method Broadcast(event: Event)
      requires forall q :: q in subscribers ==> q.capacity == queueSize
      modifies subscribers
      ensures forall q :: q in subscribers ==>
                q.items == Offer(old(q.items), queueSize, event) && q.delivered == old(q.delivered)
    {
      var todo := subscribers;
      while todo != {}
        invariant todo <= subscribers
        invariant forall q :: q in subscribers ==> q.delivered == old(q.delivered)
        invariant forall q :: q in subscribers ==>
                    q.items == if q in todo then old(q.items) else Offer(old(q.items), queueSize, event)
      {
        var q :| q in todo;
        q.Receive(event);
        todo := todo - {q};
      }
    }

    /** The retained events after the cursor, or `None` when the client must resynchronise. */
    method Since(cursor: int) returns (answer: Option<seq<Event>>)
      requires Valid()
      ensures answer == SinceAnswer(published, historySize, cursor)
    {
      if history == [] {
        return Some([]);
      }
      var oldest := history[0].sequence;
      if cursor != 0 && cursor < oldest - 1 {
        return None;
      }
      var found := After(history, |published| - |history|, cursor);
      answer := Some(found);
    }

    /** The items of a consecutively numbered list that come after the cursor. */
    static method After(list: seq<Event>, ghost base: nat, cursor: int) returns (found: seq<Event>)
      requires forall k :: 0 <= k < |list| ==> list[k].sequence == base + k + 1
      ensures found == list[FirstAfter(|list|, base, cursor)..]
    {
      found := [];
      ghost var from := FirstAfter(|list|, base, cursor);
      for i := 0 to |list|
        invariant found == if i <= from then [] else list[from..i]
      {
        if list[i].sequence > cursor {
          found := found + [list[i]];
        }
      }
    }

    /** A queue joins with an empty stream. */
    method Subscribe() returns (q: Subscriber)
      requires Valid()
      modifies this
      ensures Valid() && fresh(q) && subscribers == old(subscribers) + {q}
      ensures q.items == [] && q.delivered == [] && q.joined == |published| && published == old(published)
    {
      q := new Subscriber(queueSize, |published|);
      subscribers := subscribers + {q};
    }

    method Unsubscribe(q: Subscriber)
      requires Valid()
      modifies this
      ensures Valid() && subscribers == old(subscribers) - {q} && published == old(published)
    {
      subscribers := subscribers - {q};
    }

    /** A consumer's step between the broker's steps. */
    method Consume(q: Subscriber) returns (e: Event)
      requires Valid() && q in subscribers && q.items != []
      modifies q
      ensures Valid() && q.delivered == old(q.delivered) + [e] && [e] + q.items == old(q.items)
    {
      e := q.Dequeue();
    }
  }
}
