/** The in-memory vessel index: sorted positions, track segments and the latest view per vessel,
    under any order of arrivals, duplicates and ties. */
module VesselRepository {
  import opened Wrappers
  import opened Ordering
  import opened Sequences

  const RECENT_TRACK := 50

  datatype VesselPosition = VesselPosition(
    id: Uuid, vesselId: Uuid, sourceTimestamp: int, longitude: real, latitude: real)

  /** `assessments` stands for the India-bound and sanctions assessments the view carries. */
  datatype View = View(position: VesselPosition, recentTrack: seq<(real, real)>, assessments: nat)

  datatype Segment = Segment(vesselId: Uuid, start: VesselPosition, end: VesselPosition) {
    function StartAt(): int {
      start.sourceTimestamp
    }

    function EndAt(): int {
      end.sourceTimestamp
    }
  }

  datatype History = History(vesselId: Uuid, positions: seq<VesselPosition>, segments: seq<Segment>)

  function ByTime(): (VesselPosition, VesselPosition) -> bool {
    (a: VesselPosition, b: VesselPosition) => a.sourceTimestamp <= b.sourceTimestamp
  }

  // ---------------------------------------------------------------- the accepted observations

  /** The accepted observations of one vessel, in order of arrival. */
  ghost function Arrived(log: seq<View>, vessel: Uuid): seq<VesselPosition> {
    if log == [] then []
    else
      var last := log[|log| - 1].position;
      Arrived(log[..|log| - 1], vessel) + if last.vesselId == vessel then [last] else []
  }

  ghost function Ids(log: seq<View>): set<Uuid> {
    set i | 0 <= i < |log| :: log[i].position.id
  }

  ghost predicate DistinctIds(log: seq<View>) {
    forall i, j :: 0 <= i < j < |log| ==> log[i].position.id != log[j].position.id
  }

  /** What the index has to hold for a vessel: its observations by time, ties by arrival. */
  ghost function Track(arrived: seq<VesselPosition>): (track: seq<VesselPosition>)
    ensures |track| == |arrived|
  {
    StableSort(ByTime(), arrived)
  }

  function Coordinates(positions: seq<VesselPosition>): seq<(real, real)> {
    seq(|positions|, i requires 0 <= i < |positions| => (positions[i].longitude, positions[i].latitude))
  }

  /** Python's `s[-n:]`; with `n == 0` that is the whole list. */
  function LastOf<T>(s: seq<T>, n: nat): seq<T> {
    if n == 0 || n >= |s| then s else s[|s| - n..]
  }

  /** A segment joins the latest position to each arrival that is strictly later. */
  ghost function Segments(arrived: seq<VesselPosition>): seq<Segment> {
    if |arrived| <= 1 then []
    else
      var init, x := arrived[..|arrived| - 1], arrived[|arrived| - 1];
      var latest := Track(init)[|init| - 1];
      Segments(init)
      + if latest.sourceTimestamp < x.sourceTimestamp then [Segment(x.vesselId, latest, x)] else []
  }

  lemma ByTimeIsPreorder()
    ensures Preorder(ByTime())
  {
  }

  /** The last entry of the track has the largest timestamp. */
  lemma LatestIsLargest(arrived: seq<VesselPosition>, i: nat)
    requires i < |arrived|
    ensures Track(arrived)[|arrived| - 1] in arrived
    ensures arrived[i].sourceTimestamp <= Track(arrived)[|arrived| - 1].sourceTimestamp
  {
    ByTimeIsPreorder();
    StableSortSorts(ByTime(), arrived);
    var track := Track(arrived);
    MemberOfSort(ByTime(), arrived, arrived[i]);
    MemberOfSort(ByTime(), arrived, track[|track| - 1]);
    var k :| 0 <= k < |track| && track[k] == arrived[i];
    assert k < |track| - 1 ==> ByTime()(track[k], track[|track| - 1]);
  }

  /** Inserting at the end of a sorted track, or in front of a strictly later entry. */
  lemma LatestAfter(arrived: seq<VesselPosition>, x: VesselPosition)
    ensures var track := Track(arrived + [x]);
            |track| == |arrived| + 1
            && track[|arrived|] ==
               if arrived != [] && Track(arrived)[|arrived| - 1].sourceTimestamp > x.sourceTimestamp
               then Track(arrived)[|arrived| - 1] else x
    ensures Track(arrived + [x]) == StableSort(ByTime(), Track(arrived) + [x])
  {
    ByTimeIsPreorder();
    StableSortSorts(ByTime(), arrived);
    AppendThenSort(ByTime(), Track(arrived), x);
    assert (arrived + [x])[..|arrived|] == arrived;
  }

  // ---------------------------------------------------------------- the chain of segments

  /** Consecutive segments meet in time, and each ends strictly later than it starts. */
  ghost predicate Chained(segments: seq<Segment>) {
    && (forall i :: 0 <= i < |segments| ==> segments[i].StartAt() < segments[i].EndAt())
    && (forall i :: 0 < i < |segments| ==> segments[i].StartAt() == segments[i - 1].EndAt())
  }

  ghost function Duration(segments: seq<Segment>): int {
    if segments == [] then 0
    else
      var last := segments[|segments| - 1];
      Duration(segments[..|segments| - 1]) + (last.EndAt() - last.StartAt())
  }

  /** The segments lead, without gap or overlap in time, from one instant to another, and their
      durations add up to the time between. */
  ghost predicate Spans(segments: seq<Segment>, from: int, to: int) {
    && Chained(segments) && Duration(segments) == to - from
    && (if segments == [] then from == to
        else segments[0].StartAt() == from && segments[|segments| - 1].EndAt() == to)
  }

  lemma SpansPush(segments: seq<Segment>, from: int, to: int, s: Segment)
    requires Spans(segments, from, to) && s.StartAt() == to && to < s.EndAt()
    ensures Spans(segments + [s], from, s.EndAt())
  {
    assert (segments + [s])[..|segments|] == segments;
  }

  /** From the first accepted observation to the latest one. */
  lemma {:induction false} SegmentsSpanTheTrack(arrived: seq<VesselPosition>)
    requires arrived != []
    ensures Spans(Segments(arrived), arrived[0].sourceTimestamp, Track(arrived)[|arrived| - 1].sourceTimestamp)
  {
    hide Track;
    var n := |arrived|;
    var init, x := arrived[..n - 1], arrived[n - 1];
    LatestAfter(init, x);
    assert init + [x] == arrived;
    if n > 1 {
      hide Spans;
      SegmentsSpanTheTrack(init);
      var latest := Track(init)[n - 2];
      if latest.sourceTimestamp < x.sourceTimestamp {
        SpansPush(Segments(init), init[0].sourceTimestamp, latest.sourceTimestamp, Segment(x.vesselId, latest, x));
      } else {
        assert Segments(init) + [] == Segments(init);
      }
    }
  }

  /** The end points of segments are accepted observations of the vessel. */
  lemma {:induction false} SegmentsJoinObservations(arrived: seq<VesselPosition>, i: nat)
    requires i < |Segments(arrived)|
    ensures Segments(arrived)[i].start in arrived && Segments(arrived)[i].end in arrived
  {
    var n := |arrived|;
    var init, x := arrived[..n - 1], arrived[n - 1];
    if i < |Segments(init)| {
      SegmentsJoinObservations(init, i);
    } else {
      LatestIsLargest(init, 0);
    }
  }

  // ---------------------------------------------------------------- where the chain breaks

  /** Each segment starts at the very position where the one before it ended. */
  ghost predicate Joined(segments: seq<Segment>) {
    forall i :: 0 < i < |segments| ==> segments[i].start == segments[i - 1].end
  }

  /** Arrival `k` carries the same timestamp as an earlier arrival `i`, no arrival before it is
      later, and the vessel had moved on from its first timestamp. */
  ghost predicate Tie(arrived: seq<VesselPosition>, i: nat, k: nat) {
    && i < k < |arrived|
    && arrived[0].sourceTimestamp < arrived[i].sourceTimestamp == arrived[k].sourceTimestamp
    && forall j :: 0 <= j < k ==> arrived[j].sourceTimestamp <= arrived[k].sourceTimestamp
  }

  ghost predicate TieTo(arrived: seq<VesselPosition>, i: nat, k: nat, timestamp: int) {
    k < |arrived| && Tie(arrived, i, k) && arrived[k].sourceTimestamp == timestamp
  }

  ghost predicate TieAt(arrived: seq<VesselPosition>, timestamp: int) {
    exists i: nat, k: nat :: TieTo(arrived, i, k, timestamp)
  }

  ghost predicate Overtaken(arrived: seq<VesselPosition>, i: nat, k: nat, m: nat) {
    k < m < |arrived| && Tie(arrived, i, k) && arrived[k].sourceTimestamp < arrived[m].sourceTimestamp
  }

  /** A tie with the latest timestamp that a strictly later arrival overtook. */
  ghost predicate TieOvertaken(arrived: seq<VesselPosition>) {
    exists i: nat, k: nat, m: nat :: Overtaken(arrived, i, k, m)
  }

  lemma TiePush(init: seq<VesselPosition>, x: VesselPosition, i: nat, k: nat)
    requires k < |init|
    ensures Tie(init + [x], i, k) <==> Tie(init, i, k)
  {
    var longer := init + [x];
    assert forall j :: 0 <= j < |init| ==> longer[j] == init[j];
  }

  /** One more arrival overtakes a tie exactly when it is later than the latest one and that one
      was tied. */
  lemma OvertakenPush(init: seq<VesselPosition>, x: VesselPosition, top: nat)
    requires top < |init|
    requires forall j :: 0 <= j < |init| ==> init[j].sourceTimestamp <= init[top].sourceTimestamp
    ensures var latest := init[top].sourceTimestamp;
            TieOvertaken(init + [x]) <==> TieOvertaken(init) || (latest < x.sourceTimestamp && TieAt(init, latest))
  {
    hide Tie;
    var longer, latest := init + [x], init[top].sourceTimestamp;
    if TieOvertaken(init) {
      var i: nat, k: nat, m: nat :| Overtaken(init, i, k, m);
      TiePush(init, x, i, k);
      assert Overtaken(longer, i, k, m);
    }
    if latest < x.sourceTimestamp && TieAt(init, latest) {
      var i: nat, k: nat :| TieTo(init, i, k, latest);
      TiePush(init, x, i, k);
      assert Overtaken(longer, i, k, |init|);
    }
    if TieOvertaken(longer) {
      var i: nat, k: nat, m: nat :| Overtaken(longer, i, k, m);
      TiePush(init, x, i, k);
      if m < |init| {
        assert Overtaken(init, i, k, m);
      } else if init[k].sourceTimestamp < latest {
        TopIsLater(init, i, k, top);
        assert Overtaken(init, i, k, top);
      } else {
        assert TieTo(init, i, k, latest);
      }
    }
  }

  lemma TopIsLater(init: seq<VesselPosition>, i: nat, k: nat, top: nat)
    requires Tie(init, i, k) && top < |init| && init[k].sourceTimestamp < init[top].sourceTimestamp
    ensures k < top
  {
  }

  /** After one more arrival the latest timestamp is tied if the arrival repeats it, and stays as
      tied as it was if the arrival is earlier. */
  lemma TieAtPush(init: seq<VesselPosition>, x: VesselPosition, top: nat)
    requires top < |init|
    requires forall j :: 0 <= j < |init| ==> init[j].sourceTimestamp <= init[top].sourceTimestamp
    ensures var latest := init[top].sourceTimestamp;
            && (latest < x.sourceTimestamp ==> !TieAt(init + [x], x.sourceTimestamp))
            && (latest == x.sourceTimestamp && init[0].sourceTimestamp < latest ==> TieAt(init + [x], latest))
            && (latest > x.sourceTimestamp ==> (TieAt(init + [x], latest) <==> TieAt(init, latest)))
  {
    var longer, latest := init + [x], init[top].sourceTimestamp;
    if latest == x.sourceTimestamp && init[0].sourceTimestamp < latest {
      assert TieTo(longer, top, |init|, latest);
    } else if latest > x.sourceTimestamp {
      hide Tie;
      if TieAt(init, latest) {
        var i: nat, k: nat :| TieTo(init, i, k, latest);
        TiePush(init, x, i, k);
        assert TieTo(longer, i, k, latest);
      }
      if TieAt(longer, latest) {
        var i: nat, k: nat :| TieTo(longer, i, k, latest);
        TiePush(init, x, i, k);
        assert TieTo(init, i, k, latest);
      }
    }
  }

  /** The chain of segments also joins in position exactly when no arrival ever tied with the
      latest timestamp and was then overtaken by a strictly later one. */
  lemma {:induction false} SegmentsJoinUnlessTied(arrived: seq<VesselPosition>)
    requires arrived != [] && NoRepeats(arrived)
    ensures Joined(Segments(arrived)) <==> !TieOvertaken(arrived)
    ensures var segments, latest := Segments(arrived), Track(arrived)[|arrived| - 1];
            segments != []
            ==> (segments[|segments| - 1].end == latest <==> !TieAt(arrived, latest.sourceTimestamp))
  {
    hide Track, Segments, Joined, TieOvertaken, TieAt;
    var init, x := arrived[..|arrived| - 1], arrived[|arrived| - 1];
    assert init + [x] == arrived;
    if init == [] {
      SingleArrivalJoins(arrived);
    } else {
      SegmentsJoinUnlessTied(init);
      JoinStep(init, x);
    }
  }

  lemma SingleArrivalJoins(arrived: seq<VesselPosition>)
    requires |arrived| == 1
    ensures Segments(arrived) == [] && Joined(Segments(arrived)) && !TieOvertaken(arrived)
  {
    hide Track;
  }

  lemma JoinStep(init: seq<VesselPosition>, x: VesselPosition)
    requires init != [] && x !in init
    requires Joined(Segments(init)) <==> !TieOvertaken(init)
    requires var segments, latest := Segments(init), Track(init)[|init| - 1];
             segments != []
             ==> (segments[|segments| - 1].end == latest <==> !TieAt(init, latest.sourceTimestamp))
    ensures Joined(Segments(init + [x])) <==> !TieOvertaken(init + [x])
    ensures var segments, latest := Segments(init + [x]), Track(init + [x])[|init|];
            segments != []
            ==> (segments[|segments| - 1].end == latest <==> !TieAt(init + [x], latest.sourceTimestamp))
  {
    hide Track, Segments, TieOvertaken, TieAt, Chained, Duration;
    var segments, latest := Segments(init), Track(init)[|init| - 1];
    forall j | 0 <= j < |init| ensures init[j].sourceTimestamp <= latest.sourceTimestamp {
      LatestIsLargest(init, j);
    }
    LatestIsLargest(init, 0);
    var top :| 0 <= top < |init| && init[top] == latest;
    OvertakenPush(init, x, top);
    TieAtPush(init, x, top);
    SegmentsPush(init, x);
    LatestAfter(init, x);
    SegmentsSpanTheTrack(init);
    ChainsAdvance(segments);
    NoTieAtFirst(init);
    if segments != [] {
      SegmentsJoinObservations(init, |segments| - 1);
      assert segments[|segments| - 1].end != x;
    }
    JoinedPush(segments, Segment(x.vesselId, latest, x));
    assert segments + [] == segments;
  }

  lemma {:induction false} ChainsAdvance(segments: seq<Segment>)
    requires Chained(segments)
    ensures if segments == [] then Duration(segments) == 0 else Duration(segments) > 0
  {
    if segments != [] {
      var init := segments[..|segments| - 1];
      assert forall i :: 0 <= i < |init| ==> init[i] == segments[i];
      ChainsAdvance(init);
    }
  }

  lemma NoTieAtFirst(init: seq<VesselPosition>)
    requires init != []
    ensures !TieAt(init, init[0].sourceTimestamp)
  {
  }

  lemma JoinedPush(segments: seq<Segment>, s: Segment)
    ensures Joined(segments + [s]) <==>
            Joined(segments) && (segments != [] ==> segments[|segments| - 1].end == s.start)
  {
    var longer := segments + [s];
    assert forall i :: 0 <= i < |segments| ==> longer[i] == segments[i];
    if Joined(longer) && segments != [] {
      assert longer[|segments|].start == longer[|segments| - 1].end;
    }
  }

  lemma {:induction false} ArrivedIsDistinct(log: seq<View>, vessel: Uuid)
    requires DistinctIds(log)
    ensures NoRepeats(Arrived(log, vessel))
    ensures forall p :: p in Arrived(log, vessel) ==> p.id in Ids(log)
  {
    if log != [] {
      var init, last := log[..|log| - 1], log[|log| - 1];
      assert forall i :: 0 <= i < |init| ==> init[i] == log[i];
      ArrivedIsDistinct(init, vessel);
      assert init + [last] == log;
      assert last.position.id !in Ids(init);
      IdsPush(init, last);
    }
  }

  /** Two positions at the same second between two others break the chain. */
  lemma TiedArrivalBreaksTheChain(vessel: Uuid, a: Uuid, b: Uuid, c: Uuid, d: Uuid)
    requires NoRepeats([a, b, c, d])
    ensures var arrived := [VesselPosition(a, vessel, 0, 0.0, 0.0), VesselPosition(b, vessel, 1, 0.0, 0.0),
                            VesselPosition(c, vessel, 1, 2.0, 0.0), VesselPosition(d, vessel, 2, 2.0, 0.0)];
            NoRepeats(arrived) && !Joined(Segments(arrived))
  {
    hide Segments;
    assert [a, b, c, d][0] != [a, b, c, d][3] && [a, b, c, d][1] != [a, b, c, d][2];
    var arrived := [VesselPosition(a, vessel, 0, 0.0, 0.0), VesselPosition(b, vessel, 1, 0.0, 0.0),
                    VesselPosition(c, vessel, 1, 2.0, 0.0), VesselPosition(d, vessel, 2, 2.0, 0.0)];
    assert Tie(arrived, 1, 2);
    assert Overtaken(arrived, 1, 2, 3);
    SegmentsJoinUnlessTied(arrived);
  }

  // ---------------------------------------------------------------- history slices

  /** The last `n` elements in their order, or all of them if there are fewer, or if `n` is zero. */
  ghost predicate IsTail<T>(tail: seq<T>, s: seq<T>, n: nat) {
    if n == 0 || |s| <= n then tail == s else |tail| == n && tail == s[|s| - n..]
  }

  /** At most one segment fewer than positions is returned for every limit the route accepts,
      except that a limit of one returns every segment. */
  lemma HistoryIsBounded(segments: seq<Segment>, limit: nat)
    ensures |LastOf(segments, if limit == 0 then 0 else limit - 1)| <= (if limit == 0 then 0 else limit - 1)
            <==> limit >= 2 || segments == []
  {
  }

  // ---------------------------------------------------------------- the repository

  ghost predicate VesselAt(
    positions: map<Uuid, seq<VesselPosition>>, segments: map<Uuid, seq<Segment>>, views: map<Uuid, View>,
    log: seq<View>, vessel: Uuid)
  {
    var arrived := Arrived(log, vessel);
    && (vessel in positions <==> arrived != []) && (vessel in views <==> arrived != [])
    && (vessel in positions ==> positions[vessel] == Track(arrived))
    && (if vessel in segments then segments[vessel] else []) == Segments(arrived)
    && (vessel in views ==> LatestView(views[vessel], log, Track(arrived)))
  }

  /** The stored view is the one accepted with the last position of the track; only its recent
      track was recomputed. */
  ghost predicate LatestView(view: View, log: seq<View>, track: seq<VesselPosition>) {
    && track != [] && view.position == track[|track| - 1]
    && RecentOf(view.recentTrack, track)
    && exists i :: 0 <= i < |log| && log[i].position == view.position && log[i].assessments == view.assessments
  }

  /** Longitude and latitude of the last fifty positions. */
  ghost predicate RecentOf(recent: seq<(real, real)>, track: seq<VesselPosition>) {
    var from := if |track| <= 50 then 0 else |track| - 50;
    && |recent| == |track| - from
    && forall i :: 0 <= i < |recent| ==>
         recent[i] == (track[from + i].longitude, track[from + i].latitude)
  }

  lemma CoordinatesAreRecent(track: seq<VesselPosition>)
    ensures RecentOf(Coordinates(LastOf(track, RECENT_TRACK)), track)
  {
  }

  lemma ArrivedPush(log: seq<View>, view: View, vessel: Uuid)
    ensures Arrived(log + [view], vessel)
            == Arrived(log, vessel) + if view.position.vesselId == vessel then [view.position] else []
  {
    assert (log + [view])[..|log|] == log;
  }

  lemma LatestViewKept(view: View, log: seq<View>, next: View, track: seq<VesselPosition>)
    requires LatestView(view, log, track)
    ensures LatestView(view, log + [next], track)
  {
    var i :| 0 <= i < |log| && log[i].position == view.position && log[i].assessments == view.assessments;
    assert (log + [next])[i] == log[i];
  }

  class InMemoryMaritimeRepository {
    var positionIds: set<Uuid>
    var positions: map<Uuid, seq<VesselPosition>>
    var segments: map<Uuid, seq<Segment>>
    var views: map<Uuid, View>
    /** Every accepted observation, in order of arrival. */
    ghost var log: seq<View>

    ghost predicate Valid()
      reads this
    {
      && DistinctIds(log) && positionIds == Ids(log)
      && forall vessel :: VesselAt(positions, segments, views, log, vessel)
    }

    constructor ()
      ensures Valid() && log == []
    {
      positionIds, positions, segments, views, log := {}, map[], map[], map[], [];
    }

    /** Accepts an observation unless its position id was seen before. */
    method SaveObservation(view: View) returns (accepted: bool)
      requires Valid()
      modifies this
      ensures Valid() && accepted == (view.position.id !in Ids(old(log)))
      ensures log == if accepted then old(log) + [view] else old(log)
      ensures !accepted ==> unchanged(this)
    {
      hide Arrived, Track, Segments, LatestView, Coordinates, LastOf, StableSort, Ids;
      var position := view.position;
      if position.id in positionIds {
        return false;
      }
      var vessel := position.vesselId;
      ghost var before := log;
      ghost var oldPositions, oldSegments, oldViews := positions, segments, views;
      assert VesselAt(positions, segments, views, log, vessel);
      positionIds := positionIds + {position.id};
      var track := if vessel in positions then positions[vessel] else [];
      if track != [] && track[|track| - 1].sourceTimestamp < position.sourceTimestamp {
        var known := if vessel in segments then segments[vessel] else [];
        segments := segments[vessel := known + [Segment(vessel, track[|track| - 1], position)]];
      }
      var longer := StableSort(ByTime(), track + [position]);
      positions := positions[vessel := longer];
      var latest :=
        if vessel in views && views[vessel].position.sourceTimestamp > position.sourceTimestamp
        then views[vessel] else view;
      views := views[vessel := latest.(recentTrack := Coordinates(LastOf(longer, RECENT_TRACK)))];
      log := log + [view];
      assert DistinctIds(log) && positionIds == Ids(log) by {
        IdsPush(before, view);
      }
      SavedVessel(before, view, oldPositions, positions, oldSegments, segments, oldViews, views);
      accepted := true;
      forall v ensures VesselAt(positions, segments, views, log, v) {
        if v != vessel {
          OtherVessel(before, view, oldPositions, positions, oldSegments, segments, oldViews, views, v);
        }
      }
    }

    /** The last `limit` positions, and the last `limit - 1` segments - or all of them when that
        number is zero. */
    method VesselHistory(vessel: Uuid, limit: nat) returns (history: Option<History>)
      requires Valid()
      ensures Arrived(log, vessel) == [] <==> history.None?
      ensures history.Some? ==>
                var arrived := Arrived(log, vessel);
                && history.value.vesselId == vessel
                && IsTail(history.value.positions, Track(arrived), limit)
                && IsTail(history.value.segments, Segments(arrived), if limit == 0 then 0 else limit - 1)
    {
      assert VesselAt(positions, segments, views, log, vessel);
      if vessel !in positions {
        return None;
      }
      var known := if vessel in segments then segments[vessel] else [];
      history := Some(History(
          vessel, LastOf(positions[vessel], limit), LastOf(known, if limit == 0 then 0 else limit - 1)));
    }

    /** In every reachable state the stored segments of a vessel join in position exactly when none
        of its arrivals tied with the latest one and was overtaken. */
    lemma StoredSegmentsJoin(vessel: Uuid)
      requires Valid() && vessel in segments
      ensures Joined(segments[vessel]) <==> !TieOvertaken(Arrived(log, vessel))
    {
      assert VesselAt(positions, segments, views, log, vessel);
      ArrivedIsDistinct(log, vessel);
      if Arrived(log, vessel) != [] {
        SegmentsJoinUnlessTied(Arrived(log, vessel));
      }
    }
  }

  lemma IdsPush(log: seq<View>, view: View)
    requires DistinctIds(log) && view.position.id !in Ids(log)
    ensures DistinctIds(log + [view]) && Ids(log + [view]) == Ids(log) + {view.position.id}
  {
    var longer := log + [view];
    forall i | 0 <= i < |log| ensures longer[i].position.id in Ids(log) {
      assert longer[i] == log[i];
    }
    forall id | id in Ids(log) + {view.position.id} ensures id in Ids(longer) {
      if id == view.position.id {
        assert longer[|log|].position.id == id;
      } else {
        var i :| 0 <= i < |log| && log[i].position.id == id;
        assert longer[i].position.id == id;
      }
    }
  }

  lemma OtherVessel(
    log: seq<View>, view: View,
    p: map<Uuid, seq<VesselPosition>>, p': map<Uuid, seq<VesselPosition>>,
    s: map<Uuid, seq<Segment>>, s': map<Uuid, seq<Segment>>,
    w: map<Uuid, View>, w': map<Uuid, View>, vessel: Uuid)
    requires VesselAt(p, s, w, log, vessel) && vessel != view.position.vesselId
    requires vessel in p <==> vessel in p'
    requires vessel in s <==> vessel in s'
    requires vessel in w <==> vessel in w'
    requires vessel in p ==> p'[vessel] == p[vessel]
    requires vessel in s ==> s'[vessel] == s[vessel]
    requires vessel in w ==> w'[vessel] == w[vessel]
    ensures VesselAt(p', s', w', log + [view], vessel)
  {
    ArrivedPush(log, view, vessel);
    assert Arrived(log, vessel) + [] == Arrived(log, vessel);
    hide Arrived, Track, Segments, LatestView;
    if vessel in w {
      LatestViewKept(w[vessel], log, view, Track(Arrived(log, vessel)));
    }
  }

  /** The stored view after one more observation: the one stored before stays if it is later. */
  lemma SavedView(
    log: seq<View>, view: View, known: Option<View>, track: seq<VesselPosition>, longer: seq<VesselPosition>)
    requires known.Some? <==> track != []
    requires known.Some? ==> LatestView(known.value, log, track)
    requires longer != []
    requires longer[|longer| - 1]
             == if track != [] && track[|track| - 1].sourceTimestamp > view.position.sourceTimestamp
                then track[|track| - 1] else view.position
    ensures var stays := known.Some? && known.value.position.sourceTimestamp > view.position.sourceTimestamp;
            LatestView((if stays then known.value else view).(recentTrack := Coordinates(LastOf(longer, RECENT_TRACK))),
                       log + [view], longer)
  {
    hide Coordinates, LastOf, RecentOf;
    CoordinatesAreRecent(longer);
    if known.Some? && known.value.position.sourceTimestamp > view.position.sourceTimestamp {
      LatestViewKept(known.value, log, view, track);
    } else {
      assert (log + [view])[|log|] == view;
    }
  }

  /** The saved vessel's entries, as the method computes them, describe the longer log. */
  lemma SavedVessel(
    log: seq<View>, view: View,
    p: map<Uuid, seq<VesselPosition>>, p': map<Uuid, seq<VesselPosition>>,
    s: map<Uuid, seq<Segment>>, s': map<Uuid, seq<Segment>>,
    w: map<Uuid, View>, w': map<Uuid, View>)
    requires VesselAt(p, s, w, log, view.position.vesselId)
    requires var x := view.position;
             var v := x.vesselId;
             var track := if v in p then p[v] else [];
             var known := if v in s then s[v] else [];
             && v in p' && p'[v] == StableSort(ByTime(), track + [x])
             && (if v in s' then s'[v] else [])
                == known + (if track != [] && track[|track| - 1].sourceTimestamp < x.sourceTimestamp
                            then [Segment(v, track[|track| - 1], x)] else [])
             && v in w'
             && w'[v] == (if v in w && w[v].position.sourceTimestamp > x.sourceTimestamp then w[v] else view)
                         .(recentTrack := Coordinates(LastOf(p'[v], RECENT_TRACK)))
    ensures VesselAt(p', s', w', log + [view], view.position.vesselId)
  {
    hide Arrived, Track, Coordinates, Segments, StableSort, LastOf, LatestView;
    var x := view.position;
    var v, arrived := x.vesselId, Arrived(log, x.vesselId);
    ArrivedPush(log, view, v);
    SegmentsPush(arrived, x);
    LatestAfter(arrived, x);
    assert arrived == [] ==> Track(arrived) == [];
    SavedView(log, view, if v in w then Some(w[v]) else None, Track(arrived), Track(arrived + [x]));
    assert (if v in p then p[v] else []) == Track(arrived);
  }

  lemma SegmentsPush(arrived: seq<VesselPosition>, x: VesselPosition)
    ensures Segments(arrived + [x])
            == Segments(arrived)
               + (if arrived != [] && Track(arrived)[|arrived| - 1].sourceTimestamp < x.sourceTimestamp
                  then [Segment(x.vesselId, Track(arrived)[|arrived| - 1], x)] else [])
  {
    hide Track;
    assert (arrived + [x])[..|arrived|] == arrived;
  }
}
