/** The procurement input builder: simulated flows become options or exclusions, cited provenance is
    closed, and the result is validated as a procurement input. Name-based identifiers and canonical
    fingerprints are parameters. Times are in seconds. */
module InputBuilder {
  import opened Arithmetic
  import opened Wrappers
  import opened Ordering
  import opened Rounding
  import opened PlanModel
  import opened Sequences
  import RouteSearch

  // ---------------------------------------------------------------- inputs

  datatype AssetKind = SupplierNode | RefineryNode | IndianPort | OtherAsset

  datatype TwinNode = TwinNode(kind: AssetKind, capacity: Option<real>)

  datatype TwinRoute = TwinRoute(route: RouteSearch.Route, capacity: real, transitDays: real, distance: real)

  datatype Grade = Grade(loadPorts: seq<Uuid>, sanctioned: bool)

  datatype AssumptionFacts = AssumptionFacts(approved: bool, expiresAt: Option<int>)

  datatype Snapshot = Snapshot(
    routes: seq<TwinRoute>, nodes: map<Uuid, TwinNode>, grades: map<Uuid, Grade>,
    compatibility: map<(Uuid, Uuid), bool>, evidence: seq<Uuid>, assumptions: map<Uuid, AssumptionFacts>)

  datatype Horizon = Horizon(start: int, end: int)

  datatype Flow = Flow(supplier: Uuid, grade: Uuid, route: Uuid, disruptedCapacity: real)

  datatype TransportStatus = NotAssessed | Candidate | EvidenceBackedConfirmed | Unavailable

  /** `cost` is the outcome of reconciling the components, and `priced` says that commodity price and
      freight are among them and not negative. */
  datatype Commercial = Commercial(
    evidenceIds: seq<Uuid>, assumptionIds: seq<Uuid>, capacity: real, available: real,
    status: TransportStatus, confirmed: bool, cost: Option<LandedCost>, priced: bool)

  datatype Context = Context(
    snapshot: Snapshot, horizon: Horizon, flows: seq<Flow>,
    commercial: map<(Uuid, Uuid, Uuid, Uuid), Commercial>, commercialAssumptions: map<Uuid, AssumptionFacts>)

  datatype Naming = Naming(
    identify: (Uuid, Uuid, Uuid, Uuid) -> Uuid, fingerprint: ProcurementOption -> string)

  datatype Reason =
    | AssetAbsent | NotARefinery | Incompatible | RouteUnavailable | NoCommercialInputs | NoProvenance
    | ProvenanceAbsent | Disconnected | Invalid

  datatype Exclusion = Exclusion(supplier: Uuid, grade: Uuid, route: Uuid, refinery: Uuid, reason: Reason)

  datatype Outcome = Eligible(option: ProcurementOption) | Excluded(exclusion: Exclusion)

  // ---------------------------------------------------------------- lookups

  /** What the snapshot contract guarantees. */
  ghost predicate ValidContext(c: Context) {
    && RouteSearch.UniqueRoutes(PlainRoutes(c.snapshot.routes))
    && c.snapshot.evidence != [] && c.horizon.start < c.horizon.end
  }

  function PlainRoutes(routes: seq<TwinRoute>): seq<RouteSearch.Route> {
    seq(|routes|, i requires 0 <= i < |routes| => routes[i].route)
  }

  function RouteTable(routes: seq<TwinRoute>): map<Uuid, TwinRoute> {
    if routes == [] then map[]
    else RouteTable(routes[..|routes| - 1])[routes[|routes| - 1].route.id := routes[|routes| - 1]]
  }

  function Table(c: Context): map<Uuid, TwinRoute> {
    RouteTable(c.snapshot.routes)
  }

  function Assumptions(c: Context): map<Uuid, AssumptionFacts> {
    c.snapshot.assumptions + c.commercialAssumptions
  }

  function Days(h: Horizon): real {
    (h.end - h.start) as real / 86400.0
  }

  predicate IsKind(c: Context, id: Uuid, kind: AssetKind) {
    id in c.snapshot.nodes && c.snapshot.nodes[id].kind == kind
  }

  lemma {:induction false} TableMatches(routes: seq<TwinRoute>)
    ensures RouteTable(routes).Keys == RouteSearch.ById(PlainRoutes(routes)).Keys
    ensures forall id :: id in RouteTable(routes) ==>
              RouteTable(routes)[id].route == RouteSearch.ById(PlainRoutes(routes))[id]
  {
    if routes != [] {
      var n := |routes| - 1;
      TableMatches(routes[..n]);
      assert PlainRoutes(routes)[..n] == PlainRoutes(routes[..n]);
    }
  }

  // ---------------------------------------------------------------- which flows are eligible

  /** The first objection to a flow before anything is computed. */
  function Objection(c: Context, f: Flow): Option<Reason> {
    if f.route !in Table(c) || f.grade !in c.snapshot.grades || !IsKind(c, f.supplier, SupplierNode) then
      Some(AssetAbsent)
    else
      var route := Table(c)[f.route].route;
      var pair, key := (f.grade, route.destination), (f.supplier, f.grade, f.route, route.destination);
      if !IsKind(c, route.destination, RefineryNode) then Some(NotARefinery)
      else if pair !in c.snapshot.compatibility || !c.snapshot.compatibility[pair] then Some(Incompatible)
      else if !route.available then Some(RouteUnavailable)
      else if key !in c.commercial then Some(NoCommercialInputs)
      else if c.commercial[key].evidenceIds == [] && c.commercial[key].assumptionIds == [] then Some(NoProvenance)
      else if !CitesSnapshot(c, c.commercial[key]) then Some(ProvenanceAbsent)
      else None
  }

  predicate CitesSnapshot(c: Context, m: Commercial) {
    && (forall id :: id in m.evidenceIds ==> id in c.snapshot.evidence)
    && (forall id :: id in m.assumptionIds ==> id in Assumptions(c))
  }

  function Refinery(c: Context, f: Flow): Uuid {
    if f.route in Table(c) then Table(c)[f.route].route.destination else 0
  }

  function LoadPorts(c: Context, f: Flow): seq<Uuid> {
    if f.grade in c.snapshot.grades then c.snapshot.grades[f.grade].loadPorts else []
  }

  function Terms(c: Context, f: Flow): Option<Commercial> {
    var key := (f.supplier, f.grade, f.route, Refinery(c, f));
    if key in c.commercial then Some(c.commercial[key]) else None
  }

  /** The path is the one the search selects, and there is one. */
  ghost predicate Chosen(c: Context, f: Flow, path: seq<Uuid>) {
    && path != []
    && RouteSearch.Answer(PlainRoutes(c.snapshot.routes), f.supplier, Refinery(c, f), f.route, LoadPorts(c, f), path)
  }

  // ---------------------------------------------------------------- the option of a flow

  /** Capacities of the disrupted flows of one supplier and grade; the last one listed counts. */
  function Disrupted(flows: seq<Flow>, supplier: Uuid, grade: Uuid): map<Uuid, real> {
    if flows == [] then map[]
    else
      var last := flows[|flows| - 1];
      var before := Disrupted(flows[..|flows| - 1], supplier, grade);
      if last.supplier == supplier && last.grade == grade then before[last.route := last.disruptedCapacity] else before
  }

  function SegmentCapacity(c: Context, f: Flow, id: Uuid): real {
    var disrupted := Disrupted(c.flows, f.supplier, f.grade);
    (if id in disrupted then disrupted[id] else if id in Table(c) then Table(c)[id].capacity else 0.0)
    * Days(c.horizon)
  }

  function TransitDays(c: Context, path: seq<Uuid>): real {
    if path == [] then 0.0
    else
      var id := path[|path| - 1];
      TransitDays(c, path[..|path| - 1]) + if id in Table(c) then Table(c)[id].transitDays else 0.0
  }

  function Distance(c: Context, path: seq<Uuid>): real {
    if path == [] then 0.0
    else
      var id := path[|path| - 1];
      Distance(c, path[..|path| - 1]) + if id in Table(c) then Table(c)[id].distance else 0.0
  }

  function CapacityBySegment(c: Context, f: Flow, path: seq<Uuid>): map<Uuid, real> {
    map id | id in path :: SegmentCapacity(c, f, id)
  }

  function SmallestCapacity(c: Context, f: Flow, path: seq<Uuid>): real
    requires path != []
  {
    var last := SegmentCapacity(c, f, path[|path| - 1]);
    if |path| == 1 then last
    else
      var before := SmallestCapacity(c, f, path[..|path| - 1]);
      if last < before then last else before
  }

  function Hours(transitDays: real): int {
    var rounded := RoundHalfEven(transitDays * 24.0);
    if rounded < 1 then 1 else rounded
  }

  function WindowEnd(h: Horizon, transitDays: real): int {
    var arrival := h.start + 3600 * Hours(transitDays);
    if arrival < h.end then arrival else h.end
  }

  function Origin(c: Context, id: Uuid): Uuid {
    if id in Table(c) then Table(c)[id].route.origin else 0
  }

  /** The first origin on the path among the load ports. */
  function LoadPortOn(c: Context, ports: seq<Uuid>, path: seq<Uuid>): Option<Uuid> {
    if path == [] then None
    else if Origin(c, path[0]) in ports then Some(Origin(c, path[0]))
    else LoadPortOn(c, ports, path[1..])
  }

  /** The last origin on the path that is an Indian port. */
  function ReceivingPortOn(c: Context, path: seq<Uuid>): Option<Uuid> {
    if path == [] then None
    else
      var id := Origin(c, path[|path| - 1]);
      if IsKind(c, id, IndianPort) then Some(id) else ReceivingPortOn(c, path[..|path| - 1])
  }

  function Distinct(ids: seq<Uuid>): seq<Uuid> {
    if ids == [] then []
    else
      var init, last := ids[..|ids| - 1], ids[|ids| - 1];
      if last in init then Distinct(init) else Distinct(init) + [last]
  }

  /** `sorted(set(ids))`. */
  function SortedSet(ids: seq<Uuid>): seq<Uuid> {
    StableSort((a: Uuid, b: Uuid) => a <= b, Distinct(ids))
  }

  /** The evidence an option cites: the commercial evidence, or the snapshot's first record. */
  function Cited(c: Context, m: Commercial): seq<Uuid>
    requires c.snapshot.evidence != []
  {
    if m.evidenceIds != [] then m.evidenceIds else [c.snapshot.evidence[0]]
  }

  function ReceivingCapacity(c: Context, refinery: Uuid, m: Commercial): real {
    if refinery in c.snapshot.nodes && c.snapshot.nodes[refinery].capacity.Some?
    then c.snapshot.nodes[refinery].capacity.value * Days(c.horizon) else m.capacity
  }

  function MakeOption(c: Context, naming: Naming, f: Flow, m: Commercial, path: seq<Uuid>): ProcurementOption
    requires path != [] && c.snapshot.evidence != []
  {
    var refinery, transit := Refinery(c, f), TransitDays(c, path);
    ProcurementOption(
      naming.identify(f.supplier, f.grade, f.route, refinery), f.supplier, f.grade, f.route, refinery,
      c.horizon.start, WindowEnd(c.horizon, transit),
      m.capacity, m.available, SmallestCapacity(c, f, path), ReceivingCapacity(c, refinery, m),
      f.grade in c.snapshot.grades && !c.snapshot.grades[f.grade].sanctioned, true,
      SortedSet(Cited(c, m)), SortedSet(m.assumptionIds), m.evidenceIds, m.assumptionIds,
      m.cost, Some(Distance(c, path)), Some(transit),
      LoadPortOn(c, LoadPorts(c, f), path), ReceivingPortOn(c, path),
      path, CapacityBySegment(c, f, path), None)
  }

  function Fingerprinted(naming: Naming, o: ProcurementOption): ProcurementOption {
    o.(fingerprint := Some(naming.fingerprint(o)))
  }

  /** What the contract type of a transport availability demands. */
  predicate ValidTransport(m: Commercial) {
    && NoRepeats(m.evidenceIds) && NoRepeats(m.assumptionIds)
    && (if m.status == EvidenceBackedConfirmed
        then m.confirmed && m.evidenceIds != [] && m.assumptionIds == []
        else !m.confirmed)
    && (m.status == Candidate ==> m.evidenceIds != [] || m.assumptionIds != [])
  }

  /** The transport claims a confirmation without any evidence. */
  predicate Unconfirmed(m: Commercial) {
    m.status == EvidenceBackedConfirmed && m.confirmed && m.evidenceIds == []
  }

  /** Nothing raises on the way from the path to the option. */
  ghost predicate Buildable(c: Context, naming: Naming, f: Flow, path: seq<Uuid>) {
    && path != [] && c.snapshot.evidence != [] && Terms(c, f).Some?
    && var m := Terms(c, f).value;
       && m.cost.Some? && m.priced && ValidTransport(m)
       && (forall i :: 0 <= i < |path| ==> Origin(c, path[i]) in c.snapshot.nodes)
       && ValidOption(MakeOption(c, naming, f, m, path))
  }

  /** The option belongs to the flow: no objection, a path, and the option built along it. */
  ghost predicate OptionOf(c: Context, naming: Naming, f: Flow, o: ProcurementOption) {
    && Objection(c, f).None?
    && exists path :: Chosen(c, f, path) && Buildable(c, naming, f, path)
                      && o == Fingerprinted(naming, MakeOption(c, naming, f, Terms(c, f).value, path))
  }

  ghost predicate EligibleFlow(c: Context, naming: Naming, f: Flow) {
    Objection(c, f).None? && exists path :: Chosen(c, f, path) && Buildable(c, naming, f, path)
  }

  /** The search has one answer only. */
  lemma ChosenIsUnique(c: Context, f: Flow, p: seq<Uuid>, q: seq<Uuid>)
    requires Chosen(c, f, p) && Chosen(c, f, q)
    ensures p == q
  {
    RouteSearch.LexLeAntisymmetric(p, q);
  }

  // ---------------------------------------------------------------- what every option promises

  lemma {:induction false} SmallestIsMinimum(c: Context, f: Flow, path: seq<Uuid>)
    requires path != []
    ensures forall i :: 0 <= i < |path| ==> SmallestCapacity(c, f, path) <= SegmentCapacity(c, f, path[i])
    ensures exists i :: 0 <= i < |path| && SmallestCapacity(c, f, path) == SegmentCapacity(c, f, path[i])
  {
    var n := |path| - 1;
    if n > 0 {
      SmallestIsMinimum(c, f, path[..n]);
      var i :| 0 <= i < n && SmallestCapacity(c, f, path[..n]) == SegmentCapacity(c, f, path[..n][i]);
      assert path[..n][i] == path[i];
      forall k | 0 <= k < n ensures SmallestCapacity(c, f, path) <= SegmentCapacity(c, f, path[k]) {
        assert path[..n][k] == path[k];
      }
    }
    assert SmallestCapacity(c, f, path) == SegmentCapacity(c, f, path[n])
           || exists i :: 0 <= i < n && SmallestCapacity(c, f, path) == SegmentCapacity(c, f, path[i]);
  }

  lemma {:induction false} DistinctHolds(ids: seq<Uuid>, x: Uuid)
    ensures x in Distinct(ids) <==> x in ids
  {
    if ids != [] {
      DistinctHolds(ids[..|ids| - 1], x);
      assert ids == ids[..|ids| - 1] + [ids[|ids| - 1]];
    }
  }

  lemma SortedSetHolds(ids: seq<Uuid>, x: Uuid)
    ensures x in SortedSet(ids) <==> x in ids
  {
    DistinctHolds(ids, x);
    MemberOfSort((a: Uuid, b: Uuid) => a <= b, Distinct(ids), x);
  }

  /** What the snapshot says of the assets of an option. */
  ghost predicate Grounded(c: Context, o: ProcurementOption) {
    var nodes, pair := c.snapshot.nodes, (o.gradeId, o.refineryId);
    && o.supplierId in nodes && nodes[o.supplierId].kind == SupplierNode
    && o.refineryId in nodes && nodes[o.refineryId].kind == RefineryNode
    && pair in c.snapshot.compatibility && c.snapshot.compatibility[pair]
    && o.gradeId in c.snapshot.grades && (o.sanctionsPermitted <==> !c.snapshot.grades[o.gradeId].sanctioned)
    && exists r :: r in c.snapshot.routes && r.route.id == o.routeId && r.route.available
                   && r.route.destination == o.refineryId
  }

  /** What the commercial inputs for exactly this supplier, grade, route and refinery say of it. */
  ghost predicate Contracted(c: Context, o: ProcurementOption) {
    var key := (o.supplierId, o.gradeId, o.routeId, o.refineryId);
    && key in c.commercial && o.refineryId in c.snapshot.nodes
    && var m, node := c.commercial[key], c.snapshot.nodes[o.refineryId];
       && o.supplierCapacity == m.capacity && o.availableVolume == m.available
       && o.landedCost == m.cost && m.cost.Some? && m.priced
       && o.transportEvidence == m.evidenceIds && o.transportAssumptions == m.assumptionIds
       && (m.evidenceIds != [] || m.assumptionIds != [])
       && (m.confirmed <==> m.status == EvidenceBackedConfirmed)
       && (m.confirmed ==> m.evidenceIds != [] && m.assumptionIds == [])
       && o.receivingCapacity ==
          if node.capacity.Some? then node.capacity.value * ((c.horizon.end - c.horizon.start) as real / 86400.0)
          else m.capacity
  }

  /** A whole number of hours that is nearest to the transit time, but at least one. */
  ghost predicate NearestHours(transitDays: real, hours: int) {
    && hours >= 1 && transitDays * 24.0 <= hours as real + 0.5
    && (hours > 1 ==> hours as real - 0.5 <= transitDays * 24.0)
  }

  /** The window opens with the horizon and closes on arrival, or with the horizon. */
  ghost predicate Timed(h: Horizon, o: ProcurementOption) {
    && o.windowStart == h.start && o.transitTime.Some?
    && exists hours :: NearestHours(o.transitTime.value, hours)
         && o.windowEnd == if h.start + 3600 * hours < h.end then h.start + 3600 * hours else h.end
  }

  ghost predicate StartsAt(routes: seq<TwinRoute>, id: Uuid, node: Uuid) {
    exists r :: r in routes && r.route.id == id && r.route.origin == node
  }

  ghost predicate StartsIndian(c: Context, id: Uuid) {
    exists r :: r in c.snapshot.routes && r.route.id == id && r.route.origin in c.snapshot.nodes
                && c.snapshot.nodes[r.route.origin].kind == IndianPort
  }

  /** The load port is the first origin on the path among the grade's, and the receiving port the
      last origin that is an Indian port. */
  ghost predicate Ported(c: Context, o: ProcurementOption) {
    && o.gradeId in c.snapshot.grades && o.loadPortId.Some?
    && (exists i :: FirstLoad(c, o.segmentIds, c.snapshot.grades[o.gradeId].loadPorts, o.loadPortId.value, i))
    && (match o.receivingPortId
        case None => forall i :: 0 <= i < |o.segmentIds| ==> !StartsIndian(c, o.segmentIds[i])
        case Some(port) => exists i :: LastIndian(c, o.segmentIds, port, i))
  }

  ghost predicate FirstLoad(c: Context, path: seq<Uuid>, ports: seq<Uuid>, loadPort: Uuid, i: int) {
    && 0 <= i < |path| && loadPort in ports && StartsAt(c.snapshot.routes, path[i], loadPort)
    && forall k, port :: 0 <= k < i && port in ports ==> !StartsAt(c.snapshot.routes, path[k], port)
  }

  ghost predicate LastIndian(c: Context, path: seq<Uuid>, port: Uuid, i: int) {
    && 0 <= i < |path| && StartsIndian(c, path[i]) && StartsAt(c.snapshot.routes, path[i], port)
    && forall k :: i < k < |path| ==> !StartsIndian(c, path[k])
  }

  /** The capacity of a segment is the one after the disruption, where the simulation lists one for
      the same supplier and grade, and the route's own otherwise, over the days of the horizon. */
  ghost predicate Limited(c: Context, supplier: Uuid, grade: Uuid, id: Uuid, capacity: real) {
    var days := (c.horizon.end - c.horizon.start) as real / 86400.0;
    if exists f :: f in c.flows && Disrupts(f, supplier, grade, id)
    then exists k :: LastDisruption(c.flows, supplier, grade, id, k) && capacity == c.flows[k].disruptedCapacity * days
    else exists r :: r in c.snapshot.routes && r.route.id == id && capacity == r.capacity * days
  }

  ghost predicate LastDisruption(flows: seq<Flow>, supplier: Uuid, grade: Uuid, id: Uuid, k: int) {
    && 0 <= k < |flows| && Disrupts(flows[k], supplier, grade, id)
    && forall j :: k < j < |flows| ==> !Disrupts(flows[j], supplier, grade, id)
  }

  ghost predicate Disrupts(f: Flow, supplier: Uuid, grade: Uuid, id: Uuid) {
    f.supplier == supplier && f.grade == grade && f.route == id
  }

  /** Bottleneck, window and provenance of an option. */
  ghost predicate Promises(c: Context, o: ProcurementOption) {
    && Grounded(c, o) && Contracted(c, o) && Timed(c.horizon, o) && Ported(c, o)
    && (forall id :: id in o.segmentIds ==>
          id in o.segmentCapacities && Limited(c, o.supplierId, o.gradeId, id, o.segmentCapacities[id]))
    && o.segmentIds != []
    && (forall id :: id in o.segmentIds ==> id in o.segmentCapacities && o.routeCapacity <= o.segmentCapacities[id])
    && (exists id :: id in o.segmentIds && id in o.segmentCapacities && o.routeCapacity == o.segmentCapacities[id])
    && c.horizon.start == o.windowStart < o.windowEnd <= c.horizon.end
    && o.landedCost.Some? && o.compatibilityPermitted && o.loadPortId.Some?
    && (forall id :: id in o.evidenceIds ==> id in c.snapshot.evidence)
    && (forall id :: id in o.transportEvidence ==> id in o.evidenceIds)
    && (forall id :: id in o.assumptionIds ==> id in Assumptions(c))
    && (forall id :: id in o.transportAssumptions ==> id in o.assumptionIds)
    && o.evidenceIds != []
  }

  /** A delivery window is never empty and never leaves the horizon. */
  lemma WindowInside(h: Horizon, transitDays: real)
    requires h.start < h.end
    ensures h.start < WindowEnd(h, transitDays) <= h.end
  {
  }

  lemma OptionBottleneck(c: Context, naming: Naming, f: Flow, m: Commercial, path: seq<Uuid>)
    requires path != [] && c.snapshot.evidence != []
    ensures var o := MakeOption(c, naming, f, m, path);
            && (forall id :: id in path ==> id in o.segmentCapacities && o.routeCapacity <= o.segmentCapacities[id])
            && (exists id :: id in path && id in o.segmentCapacities && o.routeCapacity == o.segmentCapacities[id])
  {
    hide SegmentCapacity, SmallestCapacity, SortedSet, TransitDays, Distance, Refinery, LoadPortOn, ReceivingPortOn;
    SmallestIsMinimum(c, f, path);
    var i :| 0 <= i < |path| && SmallestCapacity(c, f, path) == SegmentCapacity(c, f, path[i]);
    assert path[i] in path;
  }

  lemma {:induction false} LoadPortFound(c: Context, ports: seq<Uuid>, path: seq<Uuid>, i: nat)
    requires i < |path| && Origin(c, path[i]) in ports
    ensures LoadPortOn(c, ports, path).Some?
  {
    if Origin(c, path[0]) !in ports {
      LoadPortFound(c, ports, path[1..], i - 1);
    }
  }

  /** The search only selects paths that leave a load port, so every option has one. */
  lemma ChosenLeavesLoadPort(c: Context, f: Flow, path: seq<Uuid>)
    requires Chosen(c, f, path)
    ensures LoadPortOn(c, LoadPorts(c, f), path).Some? && f.route in path
  {
    TableMatches(c.snapshot.routes);
    var g, ports := RouteSearch.ById(PlainRoutes(c.snapshot.routes)), LoadPorts(c, f);
    assert RouteSearch.LeavesLoadPort(g, path, ports);
    var id :| id in path && id in g && g[id].origin in ports;
    var i :| 0 <= i < |path| && path[i] == id;
    LoadPortFound(c, ports, path, i);
  }

  lemma OptionProvenance(c: Context, naming: Naming, f: Flow, m: Commercial, path: seq<Uuid>)
    requires path != [] && c.snapshot.evidence != [] && CitesSnapshot(c, m)
    ensures var o := MakeOption(c, naming, f, m, path);
            && o.evidenceIds != []
            && (forall id :: id in o.evidenceIds ==> id in c.snapshot.evidence)
            && (forall id :: id in o.transportEvidence ==> id in o.evidenceIds)
            && (forall id :: id in o.assumptionIds ==> id in Assumptions(c))
            && (forall id :: id in o.transportAssumptions ==> id in o.assumptionIds)
  {
    hide SmallestCapacity, SortedSet, TransitDays, Distance, Refinery, LoadPortOn, ReceivingPortOn, Assumptions;
    forall id ensures id in SortedSet(Cited(c, m)) <==> id in Cited(c, m) {
      SortedSetHolds(Cited(c, m), id);
    }
    forall id ensures id in SortedSet(m.assumptionIds) <==> id in m.assumptionIds {
      SortedSetHolds(m.assumptionIds, id);
    }
    assert Cited(c, m)[0] in SortedSet(Cited(c, m));
  }

  // ---------------------------------------------------------------- the same in the snapshot's terms

  lemma {:induction false} TableHolds(routes: seq<TwinRoute>, r: TwinRoute)
    requires RouteSearch.UniqueRoutes(PlainRoutes(routes)) && r in routes
    ensures r.route.id in RouteTable(routes) && RouteTable(routes)[r.route.id] == r
  {
    var n := |routes| - 1;
    var init := routes[..n];
    assert forall i :: 0 <= i < n ==> PlainRoutes(routes)[i] == init[i].route;
    assert PlainRoutes(routes)[n] == routes[n].route;
    if r != routes[n] {
      assert r in init;
      assert RouteSearch.UniqueRoutes(PlainRoutes(init)) by {
        assert forall i :: 0 <= i < n ==> PlainRoutes(init)[i] == PlainRoutes(routes)[i];
      }
      TableHolds(init, r);
      var i :| 0 <= i < n && init[i] == r;
      assert PlainRoutes(routes)[i].id != PlainRoutes(routes)[n].id;
    }
  }

  lemma {:induction false} TableListed(routes: seq<TwinRoute>, id: Uuid)
    requires id in RouteTable(routes)
    ensures RouteTable(routes)[id] in routes && RouteTable(routes)[id].route.id == id
  {
    var n := |routes| - 1;
    if id != routes[n].route.id {
      TableListed(routes[..n], id);
    }
  }

  /** The table finds a route exactly where the snapshot lists one. */
  lemma LookUp(c: Context, id: Uuid, r: TwinRoute)
    requires ValidContext(c)
    ensures id in Table(c) && Table(c)[id] == r <==> r in c.snapshot.routes && r.route.id == id
  {
    if r in c.snapshot.routes {
      TableHolds(c.snapshot.routes, r);
    }
    if id in Table(c) {
      TableListed(c.snapshot.routes, id);
    }
  }

  /** The first objection to a flow whose route, grade and supplier exist, in the order of the checks. */
  lemma ObjectionIsFirst(c: Context, f: Flow, r: TwinRoute)
    requires ValidContext(c) && r in c.snapshot.routes && r.route.id == f.route
    requires f.grade in c.snapshot.grades
    requires f.supplier in c.snapshot.nodes && c.snapshot.nodes[f.supplier].kind == SupplierNode
    ensures var d, s := r.route.destination, c.snapshot;
            var key := (f.supplier, f.grade, f.route, d);
            Objection(c, f)
            == if d !in s.nodes || s.nodes[d].kind != RefineryNode then Some(NotARefinery)
               else if (f.grade, d) !in s.compatibility || !s.compatibility[(f.grade, d)] then Some(Incompatible)
               else if !r.route.available then Some(RouteUnavailable)
               else if key !in c.commercial then Some(NoCommercialInputs)
               else
                 var evidence, assumptions := c.commercial[key].evidenceIds, c.commercial[key].assumptionIds;
                 if |evidence| + |assumptions| == 0 then Some(NoProvenance)
                 else if (exists i :: 0 <= i < |evidence| && evidence[i] !in s.evidence)
                         || (exists i :: 0 <= i < |assumptions| && assumptions[i] !in s.assumptions
                                         && assumptions[i] !in c.commercialAssumptions) then Some(ProvenanceAbsent)
                 else None
  {
    LookUp(c, f.route, r);
    hide RouteTable;
    var key := (f.supplier, f.grade, f.route, r.route.destination);
    if key in c.commercial {
      var m := c.commercial[key];
      if CitesSnapshot(c, m) {
        assert forall i :: 0 <= i < |m.evidenceIds| ==> m.evidenceIds[i] in m.evidenceIds;
        assert forall i :: 0 <= i < |m.assumptionIds| ==> m.assumptionIds[i] in m.assumptionIds;
      }
    }
  }

  /** A flow with an unknown route or grade, or from a node that is no supplier, is excluded first. */
  lemma AbsentIsFirst(c: Context, f: Flow)
    requires ValidContext(c)
    ensures Objection(c, f) == Some(AssetAbsent) <==>
              || !(exists r :: r in c.snapshot.routes && r.route.id == f.route)
              || f.grade !in c.snapshot.grades
              || f.supplier !in c.snapshot.nodes || c.snapshot.nodes[f.supplier].kind != SupplierNode
  {
    if r :| r in c.snapshot.routes && r.route.id == f.route {
      LookUp(c, f.route, r);
    }
    if f.route in Table(c) {
      TableListed(c.snapshot.routes, f.route);
    }
  }

  /** The refinery of a flow is where its route ends; an unknown route ends at the nil identifier. */
  lemma RefineryIs(c: Context, f: Flow)
    requires ValidContext(c)
    ensures forall r :: r in c.snapshot.routes && r.route.id == f.route ==> Refinery(c, f) == r.route.destination
    ensures (forall r :: r in c.snapshot.routes ==> r.route.id != f.route) ==> Refinery(c, f) == 0
  {
    forall r | r in c.snapshot.routes && r.route.id == f.route ensures Refinery(c, f) == r.route.destination {
      LookUp(c, f.route, r);
    }
    if f.route in Table(c) {
      LookUp(c, f.route, Table(c)[f.route]);
    }
  }

  /** The path of a flow is the answer of the search from its supplier to the end of its route, by
      that route and a load port of its grade. */
  lemma ChosenExactly(c: Context, f: Flow, r: TwinRoute, path: seq<Uuid>)
    requires ValidContext(c) && r in c.snapshot.routes && r.route.id == f.route && f.grade in c.snapshot.grades
    ensures Chosen(c, f, path) <==>
              && path != []
              && RouteSearch.Answer(PlainRoutes(c.snapshot.routes), f.supplier, r.route.destination, f.route,
                                    c.snapshot.grades[f.grade].loadPorts, path)
  {
    hide RouteSearch.Answer;
    LookUp(c, f.route, r);
  }

  lemma SomeProvenance(c: Context, f: Flow)
    requires Objection(c, f).None?
    ensures Terms(c, f).Some? && (Terms(c, f).value.evidenceIds != [] || Terms(c, f).value.assumptionIds != [])
  {
  }

  lemma HoursAreNearest(transitDays: real)
    ensures NearestHours(transitDays, Hours(transitDays))
  {
    RoundIsNearest(transitDays * 24.0);
  }

  lemma OptionGrounded(c: Context, naming: Naming, f: Flow, path: seq<Uuid>)
    requires ValidContext(c) && Objection(c, f).None? && Buildable(c, naming, f, path)
    ensures var o := MakeOption(c, naming, f, Terms(c, f).value, path);
            Grounded(c, o) && Contracted(c, o) && Timed(c.horizon, o)
  {
    hide ValidOption, CitesSnapshot, SmallestCapacity, SegmentCapacity, SortedSet, TransitDays, Distance,
      LoadPortOn, ReceivingPortOn, Assumptions, Cited, Hours, NearestHours;
    var r := Table(c)[f.route];
    LookUp(c, f.route, r);
    HoursAreNearest(TransitDays(c, path));
  }

  lemma {:induction false} LoadPortIsFirst(c: Context, ports: seq<Uuid>, path: seq<Uuid>) returns (i: nat)
    requires LoadPortOn(c, ports, path).Some?
    ensures i < |path| && Origin(c, path[i]) == LoadPortOn(c, ports, path).value && Origin(c, path[i]) in ports
    ensures forall k :: 0 <= k < i ==> Origin(c, path[k]) !in ports
  {
    if Origin(c, path[0]) in ports {
      i := 0;
    } else {
      var later := LoadPortIsFirst(c, ports, path[1..]);
      i := later + 1;
      forall k | 0 <= k < i ensures Origin(c, path[k]) !in ports {
        assert k > 0 ==> path[k] == path[1..][k - 1];
      }
    }
  }

  lemma {:induction false} ReceivingPortIsLast(c: Context, path: seq<Uuid>) returns (i: int)
    ensures ReceivingPortOn(c, path).None? ==> i == -1
    ensures ReceivingPortOn(c, path).Some? ==>
              0 <= i < |path| && IsKind(c, Origin(c, path[i]), IndianPort)
              && Origin(c, path[i]) == ReceivingPortOn(c, path).value
    ensures forall k :: i < k < |path| ==> !IsKind(c, Origin(c, path[k]), IndianPort)
  {
    if path == [] {
      i := -1;
    } else if IsKind(c, Origin(c, path[|path| - 1]), IndianPort) {
      i := |path| - 1;
    } else {
      var init := path[..|path| - 1];
      i := ReceivingPortIsLast(c, init);
      forall k | i < k < |path| ensures !IsKind(c, Origin(c, path[k]), IndianPort) {
        assert k < |init| ==> path[k] == init[k];
      }
    }
  }

  lemma OriginStarts(c: Context, id: Uuid, node: Uuid)
    requires ValidContext(c) && id in Table(c)
    ensures StartsAt(c.snapshot.routes, id, node) <==> Origin(c, id) == node
    ensures StartsIndian(c, id) <==> IsKind(c, Origin(c, id), IndianPort)
  {
    var r := Table(c)[id];
    LookUp(c, id, r);
    forall x | x in c.snapshot.routes && x.route.id == id ensures x == r {
      LookUp(c, id, x);
    }
  }

  lemma OptionPorted(c: Context, naming: Naming, f: Flow, m: Commercial, path: seq<Uuid>)
    requires ValidContext(c) && Objection(c, f).None? && Chosen(c, f, path)
    ensures Ported(c, MakeOption(c, naming, f, m, path))
  {
    hide SmallestCapacity, SegmentCapacity, SortedSet, TransitDays, Distance, Assumptions, Cited, Hours,
      LoadPortOn, ReceivingPortOn, StartsAt, StartsIndian, Origin, RouteTable, IsKind;
    var o, ports := MakeOption(c, naming, f, m, path), LoadPorts(c, f);
    ChosenLeavesLoadPort(c, f, path);
    ChosenInTable(c, f, path);
    forall k, node | 0 <= k < |path|
      ensures StartsAt(c.snapshot.routes, path[k], node) <==> Origin(c, path[k]) == node
    {
      OriginStarts(c, path[k], node);
    }
    forall k | 0 <= k < |path| ensures StartsIndian(c, path[k]) <==> IsKind(c, Origin(c, path[k]), IndianPort) {
      OriginStarts(c, path[k], 0);
    }
    var i := LoadPortIsFirst(c, ports, path);
    assert FirstLoad(c, path, ports, o.loadPortId.value, i);
    var k := ReceivingPortIsLast(c, path);
    if o.receivingPortId.Some? {
      assert LastIndian(c, path, o.receivingPortId.value, k);
    }
  }

  /** A chosen path consists of routes of the snapshot. */
  lemma ChosenInTable(c: Context, f: Flow, path: seq<Uuid>)
    requires Chosen(c, f, path)
    ensures forall i :: 0 <= i < |path| ==> path[i] in Table(c)
  {
    TableMatches(c.snapshot.routes);
    var g := RouteSearch.ById(PlainRoutes(c.snapshot.routes));
    forall i | 0 <= i < |path| ensures path[i] in Table(c) {
      assert RouteSearch.StepAt(g, f.supplier, Refinery(c, f), path, i);
    }
  }

  lemma {:induction false} DisruptedIsLast(flows: seq<Flow>, supplier: Uuid, grade: Uuid, id: Uuid) returns (k: int)
    ensures id in Disrupted(flows, supplier, grade) <==> 0 <= k
    ensures 0 <= k ==>
              LastDisruption(flows, supplier, grade, id, k)
              && Disrupted(flows, supplier, grade)[id] == flows[k].disruptedCapacity
    ensures k < 0 ==> forall j :: 0 <= j < |flows| ==> !Disrupts(flows[j], supplier, grade, id)
  {
    if flows == [] {
      k := -1;
    } else {
      var n := |flows| - 1;
      if Disrupts(flows[n], supplier, grade, id) {
        k := n;
      } else {
        k := DisruptedIsLast(flows[..n], supplier, grade, id);
        assert forall j :: 0 <= j < n ==> flows[..n][j] == flows[j];
      }
    }
  }

  lemma SegmentIsLimited(c: Context, f: Flow, id: Uuid)
    requires ValidContext(c) && id in Table(c)
    ensures Limited(c, f.supplier, f.grade, id, SegmentCapacity(c, f, id))
  {
    hide RouteTable, Disrupted, LastDisruption;
    LookUp(c, id, Table(c)[id]);
    var k := DisruptedIsLast(c.flows, f.supplier, f.grade, id);
    if k < 0 {
      forall x | x in c.flows ensures !Disrupts(x, f.supplier, f.grade, id) {
        var j :| 0 <= j < |c.flows| && c.flows[j] == x;
      }
    } else {
      DisruptionListed(c.flows, f.supplier, f.grade, id, k);
    }
  }

  lemma DisruptionListed(flows: seq<Flow>, supplier: Uuid, grade: Uuid, id: Uuid, k: int)
    requires LastDisruption(flows, supplier, grade, id, k)
    ensures 0 <= k < |flows| && flows[k] in flows && Disrupts(flows[k], supplier, grade, id)
  {
  }

  /** Transit time and distance are sums along the path. */
  lemma {:induction false} LengthsAreSums(c: Context, path: seq<Uuid>, days: Uuid -> real, kilometres: Uuid -> real)
    requires ValidContext(c) && forall i :: 0 <= i < |path| ==> path[i] in Table(c)
    requires forall r :: r in c.snapshot.routes ==>
               days(r.route.id) == r.transitDays && kilometres(r.route.id) == r.distance
    ensures TransitDays(c, path) == SumOf(days, path) && Distance(c, path) == SumOf(kilometres, path)
  {
    if path != [] {
      var n := |path| - 1;
      assert forall i :: 0 <= i < n ==> path[..n][i] == path[i];
      LengthsAreSums(c, path[..n], days, kilometres);
      LookUp(c, path[n], Table(c)[path[n]]);
    }
  }

  /** What is cited is listed once, in ascending order. */
  lemma SortedSetAscends(ids: seq<Uuid>)
    ensures forall i, j :: 0 <= i < j < |SortedSet(ids)| ==> SortedSet(ids)[i] < SortedSet(ids)[j]
  {
    var le := (a: Uuid, b: Uuid) => a <= b;
    var distinct, sorted := Distinct(ids), SortedSet(ids);
    DistinctIsDistinct(ids);
    StableSortSorts(le, distinct);
    SamePermutation(distinct, sorted);
    forall i, j | 0 <= i < j < |sorted| ensures sorted[i] < sorted[j] {
      assert le(sorted[i], sorted[j]);
    }
  }

  lemma {:induction false} DistinctIsDistinct(ids: seq<Uuid>)
    ensures NoRepeats(Distinct(ids))
  {
    if ids != [] {
      var init, last := ids[..|ids| - 1], ids[|ids| - 1];
      DistinctIsDistinct(init);
      DistinctHolds(init, last);
    }
  }

  lemma SamePermutation(a: seq<Uuid>, b: seq<Uuid>)
    requires NoRepeats(a) && multiset(a) == multiset(b)
    ensures NoRepeats(b)
  {
    forall i, j | 0 <= i < j < |b| ensures b[i] != b[j] {
      if b[i] == b[j] {
        RepeatCounts(b, i, j);
        NoRepeatCounts(a, b[i]);
      }
    }
  }

  lemma RepeatCounts(b: seq<Uuid>, i: nat, j: nat)
    requires i < j < |b| && b[i] == b[j]
    ensures multiset(b)[b[i]] >= 2
  {
    assert b == b[..i] + [b[i]] + b[i + 1..j] + [b[j]] + b[j + 1..];
  }

  lemma {:induction false} NoRepeatCounts(a: seq<Uuid>, x: Uuid)
    requires NoRepeats(a)
    ensures multiset(a)[x] <= 1
  {
    if a != [] {
      var init := a[..|a| - 1];
      assert a == init + [a[|a| - 1]];
      NoRepeatCounts(init, x);
      if a[|a| - 1] == x {
        assert x !in init;
      }
    }
  }

  lemma MadeOptionPromises(c: Context, naming: Naming, f: Flow, path: seq<Uuid>)
    requires ValidContext(c) && Objection(c, f).None? && Chosen(c, f, path) && Buildable(c, naming, f, path)
    ensures Promises(c, MakeOption(c, naming, f, Terms(c, f).value, path)) && f.route in path
  {
    hide ValidOption, CitesSnapshot, SmallestCapacity, SegmentCapacity, SortedSet, TransitDays, Distance, Refinery,
      LoadPortOn, ReceivingPortOn, Assumptions, WindowEnd, ReceivingCapacity, Cited, Grounded, Contracted, Timed,
      Ported, Limited;
    var m := Terms(c, f).value;
    NoObjection(c, f);
    ChosenLeavesLoadPort(c, f, path);
    OptionBottleneck(c, naming, f, m, path);
    OptionProvenance(c, naming, f, m, path);
    WindowInside(c.horizon, TransitDays(c, path));
    OptionGrounded(c, naming, f, path);
    OptionPorted(c, naming, f, m, path);
    ChosenInTable(c, f, path);
    forall id | id in path ensures Limited(c, f.supplier, f.grade, id, SegmentCapacity(c, f, id)) {
      SegmentIsLimited(c, f, id);
    }
  }

  /** Window, path and provenance never make an option invalid: only the terms and capacities can. */
  lemma OptionValidExactly(c: Context, naming: Naming, f: Flow, m: Commercial, path: seq<Uuid>)
    requires ValidContext(c) && Chosen(c, f, path)
    ensures ValidOption(MakeOption(c, naming, f, m, path)) <==>
              && NoRepeats(m.evidenceIds) && NoRepeats(m.assumptionIds)
              && m.capacity >= 0.0 && m.available >= 0.0 && ReceivingCapacity(c, Refinery(c, f), m) >= 0.0
              && forall i :: 0 <= i < |path| ==> SegmentCapacity(c, f, path[i]) >= 0.0
  {
    hide SegmentCapacity, SmallestCapacity, SortedSet, TransitDays, Distance, Refinery, LoadPortOn, ReceivingPortOn,
      WindowEnd, ReceivingCapacity, RouteSearch.LexLe, RouteSearch.Nodes, LoadPorts;
    SmallestIsMinimum(c, f, path);
    WindowInside(c.horizon, TransitDays(c, path));
    SortedSetAscends(Cited(c, m));
    SortedSetAscends(m.assumptionIds);
    SortedSetHolds(Cited(c, m), Cited(c, m)[0]);
    var g := RouteSearch.ById(PlainRoutes(c.snapshot.routes));
    forall i, j | 0 <= i < j < |path| ensures path[i] != path[j] {
      RouteSearch.PathsDoNotRepeat(g, f.supplier, Refinery(c, f), path, i, j);
    }
  }

  /** No capacity in the snapshot or in the simulation result is negative. */
  ghost predicate NonNegativeCapacities(c: Context) {
    && (forall id :: id in c.snapshot.nodes && c.snapshot.nodes[id].capacity.Some? ==>
          c.snapshot.nodes[id].capacity.value >= 0.0)
    && (forall r :: r in c.snapshot.routes ==> r.capacity >= 0.0)
    && (forall f :: f in c.flows ==> f.disruptedCapacity >= 0.0)
  }

  lemma DaysArePositive(h: Horizon)
    requires h.start < h.end
    ensures Days(h) > 0.0
  {
  }

  lemma CapacitiesAreNonNegative(c: Context, f: Flow, id: Uuid)
    requires ValidContext(c) && NonNegativeCapacities(c) && id in Table(c)
    ensures SegmentCapacity(c, f, id) >= 0.0
  {
    hide Days, RouteTable, Disrupted, LastDisruption;
    DaysArePositive(c.horizon);
    LookUp(c, id, Table(c)[id]);
    var k := DisruptedIsLast(c.flows, f.supplier, f.grade, id);
    if 0 <= k {
      DisruptionListed(c.flows, f.supplier, f.grade, id, k);
      Product(c.flows[k].disruptedCapacity, Days(c.horizon));
    } else {
      Product(Table(c)[id].capacity, Days(c.horizon));
    }
  }

  lemma ReceivingIsNonNegative(c: Context, id: Uuid, m: Commercial)
    requires ValidContext(c) && NonNegativeCapacities(c) && m.capacity >= 0.0
    ensures ReceivingCapacity(c, id, m) >= 0.0
  {
    if id in c.snapshot.nodes && c.snapshot.nodes[id].capacity.Some? {
      Product(c.snapshot.nodes[id].capacity.value, Days(c.horizon));
    }
  }

  /** Nothing else stands between a flow and its option: terms that are priced and consistent, known
      origins, and capacities that are not negative. */
  lemma EligibleWhen(c: Context, naming: Naming, f: Flow, r: TwinRoute, m: Commercial, path: seq<Uuid>)
    requires ValidContext(c) && Objection(c, f).None? && r in c.snapshot.routes && r.route.id == f.route
    requires path != [] && f.grade in c.snapshot.grades
    requires RouteSearch.Answer(PlainRoutes(c.snapshot.routes), f.supplier, r.route.destination, f.route,
                                c.snapshot.grades[f.grade].loadPorts, path)
    requires var key := (f.supplier, f.grade, f.route, r.route.destination);
             key in c.commercial && m == c.commercial[key]
    requires m.cost.Some? && m.priced && NoRepeats(m.evidenceIds) && NoRepeats(m.assumptionIds)
    requires m.confirmed <==> m.status == EvidenceBackedConfirmed
    requires m.confirmed ==> m.evidenceIds != [] && m.assumptionIds == []
    requires m.capacity >= 0.0 && m.available >= 0.0 && NonNegativeCapacities(c)
    requires forall i, s :: 0 <= i < |path| && s in c.snapshot.routes && s.route.id == path[i] ==>
               s.route.origin in c.snapshot.nodes
    ensures EligibleFlow(c, naming, f)
  {
    hide ValidOption, MakeOption, Objection, CitesSnapshot, RouteSearch.Answer, SegmentCapacity, ReceivingCapacity,
      NonNegativeCapacities;
    LookUp(c, f.route, r);
    ChosenExactly(c, f, r, path);
    assert Terms(c, f) == Some(m);
    ChosenInTable(c, f, path);
    assert m.evidenceIds != [] || m.assumptionIds != [] by {
      SomeProvenance(c, f);
    }
    forall i | 0 <= i < |path| ensures Origin(c, path[i]) in c.snapshot.nodes {
      TableListed(c.snapshot.routes, path[i]);
    }
    forall i | 0 <= i < |path| ensures SegmentCapacity(c, f, path[i]) >= 0.0 {
      CapacitiesAreNonNegative(c, f, path[i]);
    }
    ReceivingIsNonNegative(c, Refinery(c, f), m);
    OptionValidExactly(c, naming, f, m, path);
    assert Buildable(c, naming, f, path);
  }

  lemma FingerprintKeeps(c: Context, naming: Naming, o: ProcurementOption)
    requires Promises(c, o) && ValidOption(o)
    ensures Promises(c, Fingerprinted(naming, o)) && ValidOption(Fingerprinted(naming, o))
  {
    hide Limited, FirstLoad, LastIndian, StartsIndian, NearestHours;
  }

  lemma OptionsPromise(c: Context, naming: Naming, f: Flow, o: ProcurementOption)
    requires ValidContext(c) && OptionOf(c, naming, f, o)
    ensures Promises(c, o) && ValidOption(o)
    ensures o.supplierId == f.supplier && o.gradeId == f.grade && o.routeId == f.route
    ensures f.route in o.segmentIds && o.fingerprint == Some(naming.fingerprint(o.(fingerprint := None)))
    ensures o.optionId == naming.identify(f.supplier, f.grade, f.route, o.refineryId)
  {
    hide ValidOption, Promises, SmallestCapacity, SegmentCapacity, SortedSet, TransitDays, Distance, Refinery,
      LoadPortOn, ReceivingPortOn, Assumptions, WindowEnd, ReceivingCapacity, Cited, Objection, Chosen;
    var path :| Chosen(c, f, path) && Buildable(c, naming, f, path)
                && o == Fingerprinted(naming, MakeOption(c, naming, f, Terms(c, f).value, path));
    var made := MakeOption(c, naming, f, Terms(c, f).value, path);
    MadeOptionPromises(c, naming, f, path);
    FingerprintKeeps(c, naming, made);
    assert o.(fingerprint := None) == made;
  }

  lemma NoObjection(c: Context, f: Flow)
    requires Objection(c, f).None?
    ensures Terms(c, f).Some? && CitesSnapshot(c, Terms(c, f).value)
  {
  }

  // ---------------------------------------------------------------- building one option

  method DisruptedCapacities(flows: seq<Flow>, supplier: Uuid, grade: Uuid) returns (m: map<Uuid, real>)
    ensures m == Disrupted(flows, supplier, grade)
  {
    m := map[];
    for i := 0 to |flows|
      invariant m == Disrupted(flows[..i], supplier, grade)
    {
      assert flows[..i + 1][..i] == flows[..i];
      if flows[i].supplier == supplier && flows[i].grade == grade {
        m := m[flows[i].route := flows[i].disruptedCapacity];
      }
    }
    assert flows[..|flows|] == flows;
  }

  method CapacityOf(c: Context, f: Flow, disrupted: map<Uuid, real>, id: Uuid) returns (capacity: real)
    requires disrupted == Disrupted(c.flows, f.supplier, f.grade)
    ensures capacity == SegmentCapacity(c, f, id)
  {
    var rate := if id in disrupted then disrupted[id] else if id in Table(c) then Table(c)[id].capacity else 0.0;
    capacity := rate * Days(c.horizon);
  }

  lemma NoSegments(c: Context, f: Flow)
    ensures CapacityBySegment(c, f, []) == map[]
  {
  }

  lemma OneMoreSegment(c: Context, f: Flow, path: seq<Uuid>, id: Uuid)
    ensures CapacityBySegment(c, f, path + [id]) == CapacityBySegment(c, f, path)[id := SegmentCapacity(c, f, id)]
    ensures var capacity := SegmentCapacity(c, f, id);
            SmallestCapacity(c, f, path + [id])
            == if path == [] || capacity < SmallestCapacity(c, f, path) then capacity
               else SmallestCapacity(c, f, path)
  {
    hide SegmentCapacity;
    assert (path + [id])[..|path|] == path;
  }

  /** The capacity of every segment on the path, and the smallest of them. */
  method SegmentCapacities(c: Context, f: Flow, path: seq<Uuid>)
    returns (capacities: map<Uuid, real>, smallest: real)
    requires path != []
    ensures capacities == CapacityBySegment(c, f, path)
    ensures smallest == SmallestCapacity(c, f, path)
  {
    hide SegmentCapacity, Disrupted, CapacityBySegment, SmallestCapacity;
    var disrupted := DisruptedCapacities(c.flows, f.supplier, f.grade);
    capacities, smallest := map[], 0.0;
    NoSegments(c, f);
    for i := 0 to |path|
      invariant capacities == CapacityBySegment(c, f, path[..i])
      invariant i > 0 ==> smallest == SmallestCapacity(c, f, path[..i])
    {
      var id := path[i];
      var capacity := CapacityOf(c, f, disrupted, id);
      assert path[..i + 1] == path[..i] + [id];
      OneMoreSegment(c, f, path[..i], id);
      capacities := capacities[id := capacity];
      smallest := if i == 0 || capacity < smallest then capacity else smallest;
    }
    assert path[..|path|] == path;
  }

  method Lengths(c: Context, path: seq<Uuid>) returns (transit: real, distance: real)
    ensures transit == TransitDays(c, path) && distance == Distance(c, path)
  {
    transit, distance := 0.0, 0.0;
    for i := 0 to |path|
      invariant transit == TransitDays(c, path[..i]) && distance == Distance(c, path[..i])
    {
      var id := path[i];
      assert path[..i + 1][..i] == path[..i];
      transit := transit + if id in Table(c) then Table(c)[id].transitDays else 0.0;
      distance := distance + if id in Table(c) then Table(c)[id].distance else 0.0;
    }
    assert path[..|path|] == path;
  }

  method Assemble(c: Context, naming: Naming, f: Flow, m: Commercial, path: seq<Uuid>)
    returns (o: ProcurementOption)
    requires path != [] && c.snapshot.evidence != []
    ensures o == MakeOption(c, naming, f, m, path)
  {
    var transit, distance := Lengths(c, path);
    var capacities, smallest := SegmentCapacities(c, f, path);
    var refinery := Refinery(c, f);
    o := ProcurementOption(
      naming.identify(f.supplier, f.grade, f.route, refinery), f.supplier, f.grade, f.route, refinery,
      c.horizon.start, WindowEnd(c.horizon, transit),
      m.capacity, m.available, smallest, ReceivingCapacity(c, refinery, m),
      f.grade in c.snapshot.grades && !c.snapshot.grades[f.grade].sanctioned, true,
      SortedSet(Cited(c, m)), SortedSet(m.assumptionIds), m.evidenceIds, m.assumptionIds,
      m.cost, Some(distance), Some(transit),
      LoadPortOn(c, LoadPorts(c, f), path), ReceivingPortOn(c, path),
      path, capacities, None);
  }

  /** Why a flow that is not eligible is excluded. */
  ghost function ReasonOf(c: Context, f: Flow): Reason {
    match Objection(c, f)
    case Some(reason) => reason
    case None =>
      var m := Terms(c, f).value;
      if m.cost.None? || Unconfirmed(m) || exists p :: Chosen(c, f, p) then Invalid else Disconnected
  }

  ghost predicate ExclusionOf(c: Context, f: Flow, e: Exclusion) {
    e == Exclusion(f.supplier, f.grade, f.route, Refinery(c, f), ReasonOf(c, f))
  }

  /** One flow: an option if and only if nothing speaks against it, otherwise an exclusion. */
  method Classify(c: Context, naming: Naming, f: Flow) returns (outcome: Outcome)
    requires ValidContext(c)
    ensures outcome.Eligible? <==> EligibleFlow(c, naming, f)
    ensures outcome.Eligible? ==> OptionOf(c, naming, f, outcome.option)
    ensures outcome.Excluded? ==> ExclusionOf(c, f, outcome.exclusion)
  {
    var objection := Objection(c, f);
    if objection.Some? {
      return Excluded(Exclusion(f.supplier, f.grade, f.route, Refinery(c, f), objection.value));
    }
    var m := Terms(c, f).value;
    if m.cost.None? || (m.status == EvidenceBackedConfirmed && m.confirmed && m.evidenceIds == []) {
      return Excluded(Exclusion(f.supplier, f.grade, f.route, Refinery(c, f), Invalid));
    }
    var path := RouteSearch.RoutePath(
      PlainRoutes(c.snapshot.routes), f.supplier, Refinery(c, f), f.route, LoadPorts(c, f));
    if path == [] {
      return Excluded(Exclusion(f.supplier, f.grade, f.route, Refinery(c, f), Disconnected));
    }
    assert Chosen(c, f, path);
    var option := Assemble(c, naming, f, m, path);
    OnlyChosen(c, naming, f, path);
    var known := forall i :: 0 <= i < |path| ==> Origin(c, path[i]) in c.snapshot.nodes;
    if !m.priced || !known || !ValidTransport(m) || !ValidOption(option) {
      return Excluded(Exclusion(f.supplier, f.grade, f.route, Refinery(c, f), Invalid));
    }
    outcome := Eligible(Fingerprinted(naming, option));
  }

  lemma OnlyChosen(c: Context, naming: Naming, f: Flow, path: seq<Uuid>)
    requires Chosen(c, f, path)
    ensures EligibleFlow(c, naming, f) <==> Objection(c, f).None? && Buildable(c, naming, f, path)
  {
    if p :| Chosen(c, f, p) && Buildable(c, naming, f, p) {
      ChosenIsUnique(c, f, p, path);
    }
  }

  // ---------------------------------------------------------------- the partition of the flows

  /** Every flow, in order, went to exactly one of the two lists: to the options if it is eligible. */
  ghost predicate Split(
    c: Context, naming: Naming, flows: seq<Flow>, options: seq<ProcurementOption>, excluded: seq<Exclusion>)
  {
    if flows == [] then options == [] && excluded == []
    else
      var init, f := flows[..|flows| - 1], flows[|flows| - 1];
      if EligibleFlow(c, naming, f) then
        && options != [] && OptionOf(c, naming, f, options[|options| - 1])
        && Split(c, naming, init, options[..|options| - 1], excluded)
      else
        && excluded != [] && ExclusionOf(c, f, excluded[|excluded| - 1])
        && Split(c, naming, init, options, excluded[..|excluded| - 1])
  }

  lemma {:induction false} SplitCounts(
    c: Context, naming: Naming, flows: seq<Flow>, options: seq<ProcurementOption>, excluded: seq<Exclusion>)
    requires Split(c, naming, flows, options, excluded)
    ensures |options| + |excluded| == |flows|
  {
    if flows != [] {
      var init, f := flows[..|flows| - 1], flows[|flows| - 1];
      if EligibleFlow(c, naming, f) {
        SplitCounts(c, naming, init, options[..|options| - 1], excluded);
      } else {
        SplitCounts(c, naming, init, options, excluded[..|excluded| - 1]);
      }
    }
  }

  /** Every option keeps its promises and belongs to a flow. */
  lemma {:induction false} SplitPromises(
    c: Context, naming: Naming, flows: seq<Flow>, options: seq<ProcurementOption>, excluded: seq<Exclusion>,
    o: ProcurementOption)
    requires ValidContext(c) && Split(c, naming, flows, options, excluded) && o in options
    ensures Promises(c, o) && ValidOption(o) && o.fingerprint == Some(naming.fingerprint(o.(fingerprint := None)))
    ensures exists f :: f in flows && OptionOf(c, naming, f, o)
  {
    hide OptionOf, EligibleFlow, ExclusionOf, Promises, ValidOption;
    var init, f := flows[..|flows| - 1], flows[|flows| - 1];
    if EligibleFlow(c, naming, f) && o == options[|options| - 1] {
      OptionsPromise(c, naming, f, o);
      assert f in flows;
    } else {
      var earlier := if EligibleFlow(c, naming, f) then options[..|options| - 1] else options;
      var later := if EligibleFlow(c, naming, f) then excluded else excluded[..|excluded| - 1];
      SplitPromises(c, naming, init, earlier, later, o);
      var g :| g in init && OptionOf(c, naming, g, o);
      assert g in flows;
    }
  }

  predicate FlowLe(a: Flow, b: Flow) {
    a.supplier < b.supplier
    || (a.supplier == b.supplier && (a.grade < b.grade || (a.grade == b.grade && a.route <= b.route)))
  }

  function Ordered(flows: seq<Flow>): seq<Flow> {
    StableSort((a: Flow, b: Flow) => FlowLe(a, b), flows)
  }

  /** Flows are taken by supplier, then grade, then route. */
  lemma FlowsInOrder(flows: seq<Flow>)
    ensures multiset(Ordered(flows)) == multiset(flows)
    ensures forall i, j :: 0 <= i < j < |Ordered(flows)| ==>
              var a, b := Ordered(flows)[i], Ordered(flows)[j];
              && a.supplier <= b.supplier && (a.supplier == b.supplier ==> a.grade <= b.grade)
              && (a.supplier == b.supplier && a.grade == b.grade ==> a.route <= b.route)
  {
    var le := (a: Flow, b: Flow) => FlowLe(a, b);
    StableSortSorts(le, flows);
    forall i, j | 0 <= i < j < |Ordered(flows)| ensures le(Ordered(flows)[i], Ordered(flows)[j]) {
    }
  }

  method ClassifyAll(c: Context, naming: Naming)
    returns (options: seq<ProcurementOption>, excluded: seq<Exclusion>)
    requires ValidContext(c)
    ensures Split(c, naming, Ordered(c.flows), options, excluded)
  {
    hide OptionOf, EligibleFlow, ExclusionOf, FlowLe;
    var flows := Ordered(c.flows);
    options, excluded := [], [];
    for i := 0 to |flows|
      invariant Split(c, naming, flows[..i], options, excluded)
    {
      var outcome := Classify(c, naming, flows[i]);
      assert flows[..i + 1][..i] == flows[..i];
      match outcome {
        case Eligible(option) =>
          assert (options + [option])[..|options|] == options;
          options := options + [option];
        case Excluded(exclusion) =>
          assert (excluded + [exclusion])[..|excluded|] == excluded;
          excluded := excluded + [exclusion];
      }
    }
    assert flows[..|flows|] == flows;
  }

  // ---------------------------------------------------------------- provenance

  datatype Constraints = Constraints(limits: Limits, evidenceIds: seq<Uuid>, assumptionBacked: bool)

  datatype Reserve = Reserve(evidenceIds: seq<Uuid>, assumptionIds: seq<Uuid>)

  datatype Shortfall = Shortfall(refinery: Uuid, value: real, evidenceIds: seq<Uuid>)

  datatype Policy = Policy(constraints: Constraints, reserve: Reserve, shortfalls: seq<Shortfall>)

  ghost predicate CitedByOption(options: seq<ProcurementOption>, id: Uuid) {
    exists i :: 0 <= i < |options| && (id in options[i].evidenceIds || id in options[i].transportEvidence)
  }

  ghost predicate CitedByShortfall(shortfalls: seq<Shortfall>, id: Uuid) {
    exists i :: 0 <= i < |shortfalls| && id in shortfalls[i].evidenceIds
  }

  ghost predicate UsesEvidence(options: seq<ProcurementOption>, p: Policy, id: Uuid) {
    || id in p.reserve.evidenceIds || id in p.constraints.evidenceIds
    || CitedByOption(options, id) || CitedByShortfall(p.shortfalls, id)
  }

  ghost predicate AssumedByOption(options: seq<ProcurementOption>, id: Uuid) {
    exists i :: 0 <= i < |options| && (id in options[i].assumptionIds || id in options[i].transportAssumptions)
  }

  ghost predicate UsesAssumption(options: seq<ProcurementOption>, p: Policy, id: Uuid) {
    id in p.reserve.assumptionIds || AssumedByOption(options, id)
  }

  function SetOf(ids: seq<Uuid>): set<Uuid> {
    set id | id in ids
  }

  method CollectFromOptions(options: seq<ProcurementOption>) returns (evidence: set<Uuid>, assumptions: set<Uuid>)
    ensures forall id :: id in evidence <==> CitedByOption(options, id)
    ensures forall id :: id in assumptions <==> AssumedByOption(options, id)
  {
    evidence, assumptions := {}, {};
    for i := 0 to |options|
      invariant forall id :: id in evidence <==> CitedByOption(options[..i], id)
      invariant forall id :: id in assumptions <==> AssumedByOption(options[..i], id)
    {
      forall id {
        OptionCitesPush(options, i, id);
      }
      evidence := evidence + SetOf(options[i].evidenceIds) + SetOf(options[i].transportEvidence);
      assumptions := assumptions + SetOf(options[i].assumptionIds) + SetOf(options[i].transportAssumptions);
    }
    assert options[..|options|] == options;
  }

  lemma OptionCitesPush(options: seq<ProcurementOption>, n: nat, id: Uuid)
    requires n < |options|
    ensures CitedByOption(options[..n + 1], id) <==>
            CitedByOption(options[..n], id) || id in options[n].evidenceIds || id in options[n].transportEvidence
    ensures AssumedByOption(options[..n + 1], id) <==>
            || AssumedByOption(options[..n], id)
            || id in options[n].assumptionIds || id in options[n].transportAssumptions
  {
    var before, after := options[..n], options[..n + 1];
    assert after[n] == options[n] && forall i :: 0 <= i < n ==> after[i] == before[i];
  }

  method CollectFromShortfalls(shortfalls: seq<Shortfall>) returns (evidence: set<Uuid>)
    ensures forall id :: id in evidence <==> CitedByShortfall(shortfalls, id)
  {
    evidence := {};
    for i := 0 to |shortfalls|
      invariant forall id :: id in evidence <==> CitedByShortfall(shortfalls[..i], id)
    {
      forall id {
        ShortfallCitesPush(shortfalls, i, id);
      }
      evidence := evidence + SetOf(shortfalls[i].evidenceIds);
    }
    assert shortfalls[..|shortfalls|] == shortfalls;
  }

  lemma ShortfallCitesPush(shortfalls: seq<Shortfall>, n: nat, id: Uuid)
    requires n < |shortfalls|
    ensures CitedByShortfall(shortfalls[..n + 1], id)
            <==> CitedByShortfall(shortfalls[..n], id) || id in shortfalls[n].evidenceIds
  {
    var before, after := shortfalls[..n], shortfalls[..n + 1];
    assert after[n] == shortfalls[n] && forall i :: 0 <= i < n ==> after[i] == before[i];
  }

  /** Everything the input uses is in the snapshot or among the approved assumptions. */
  ghost predicate Closed(c: Context, options: seq<ProcurementOption>, p: Policy) {
    && (forall id :: UsesEvidence(options, p, id) ==> id in c.snapshot.evidence)
    && (forall id :: UsesAssumption(options, p, id) ==> id in Assumptions(c) && Assumptions(c)[id].approved)
    && (p.constraints.assumptionBacked ==> exists id :: UsesAssumption(options, p, id))
  }

  /** The emitted references are exactly what the input uses. */
  ghost predicate Exact(options: seq<ProcurementOption>, p: Policy, evidence: set<Uuid>, assumptions: set<Uuid>) {
    && (forall id :: id in evidence <==> UsesEvidence(options, p, id))
    && (forall id :: id in assumptions <==> UsesAssumption(options, p, id))
  }

  lemma UsedSetsDecide(
    c: Context, options: seq<ProcurementOption>, p: Policy, evidence: set<Uuid>, assumptions: set<Uuid>)
    requires Exact(options, p, evidence, assumptions)
    ensures Closed(c, options, p) <==>
            && evidence <= SetOf(c.snapshot.evidence) && assumptions <= Assumptions(c).Keys
            && (forall id :: id in assumptions ==> Assumptions(c)[id].approved)
            && (p.constraints.assumptionBacked ==> assumptions != {})
  {
    hide UsesEvidence, UsesAssumption;
    if Closed(c, options, p) {
      forall id | id in evidence ensures id in SetOf(c.snapshot.evidence) {
        assert UsesEvidence(options, p, id);
      }
      forall id | id in assumptions ensures id in Assumptions(c) && Assumptions(c)[id].approved {
        assert UsesAssumption(options, p, id);
      }
      if p.constraints.assumptionBacked {
        var id :| UsesAssumption(options, p, id);
        assert id in assumptions;
      }
    } else if p.constraints.assumptionBacked && assumptions != {} {
      var id :| id in assumptions;
      assert UsesAssumption(options, p, id);
    }
  }

  /** Emits the used part of the snapshot's provenance, and validates that nothing used is missing
      and every assumption is approved. */
  method CloseProvenance(c: Context, options: seq<ProcurementOption>, p: Policy)
    returns (valid: bool, evidence: set<Uuid>, assumptions: set<Uuid>)
    ensures valid <==> Closed(c, options, p)
    ensures valid ==> Exact(options, p, evidence, assumptions)
    ensures evidence <= SetOf(c.snapshot.evidence) && assumptions <= Assumptions(c).Keys
  {
    var usedEvidence, usedAssumptions := CollectFromOptions(options);
    var fromShortfalls := CollectFromShortfalls(p.shortfalls);
    usedEvidence := usedEvidence + fromShortfalls + SetOf(p.reserve.evidenceIds) + SetOf(p.constraints.evidenceIds);
    usedAssumptions := usedAssumptions + SetOf(p.reserve.assumptionIds);
    evidence := set id | id in c.snapshot.evidence && id in usedEvidence;
    assumptions := set id | id in Assumptions(c) && id in usedAssumptions;
    UsedSetsDecide(c, options, p, usedEvidence, usedAssumptions);
    assert usedEvidence == evidence <==> usedEvidence <= SetOf(c.snapshot.evidence);
    assert usedAssumptions == assumptions <==> usedAssumptions <= Assumptions(c).Keys;
    valid := && usedEvidence == evidence && usedAssumptions == assumptions
             && (p.constraints.assumptionBacked ==> assumptions != {})
             && (forall id :: id in assumptions ==> Assumptions(c)[id].approved);
  }

  // ---------------------------------------------------------------- the built input

  /** Bindings of run, result, scenario and snapshot, each established by comparing identifiers. */
  datatype Bindings = Bindings(runCompleted: bool, resultBound: bool, scenarioBound: bool, snapshotBound: bool)

  datatype Build =
    | Blocked(excluded: seq<Exclusion>)
    | Raised
    | Built(input: PlanInput, evidence: set<Uuid>, assumptions: set<Uuid>, excluded: seq<Exclusion>)

  predicate OptionLe(a: ProcurementOption, b: ProcurementOption) {
    a.optionId <= b.optionId
  }

  function ById(options: seq<ProcurementOption>): seq<ProcurementOption> {
    StableSort((a: ProcurementOption, b: ProcurementOption) => OptionLe(a, b), options)
  }

  predicate ShortfallLe(a: Shortfall, b: Shortfall) {
    a.refinery <= b.refinery
  }

  function DemandOf(h: Horizon, s: Shortfall): Demand {
    Demand(s.refinery, h.start, h.end, s.value * Days(h))
  }

  function Demands(h: Horizon, shortfalls: seq<Shortfall>): seq<Demand> {
    var ordered := StableSort((a: Shortfall, b: Shortfall) => ShortfallLe(a, b), shortfalls);
    seq(|ordered|, i requires 0 <= i < |ordered| => DemandOf(h, ordered[i]))
  }

  /** The checks before any flow is looked at. */
  predicate Ready(c: Context, b: Bindings) {
    && b.runCompleted && b.resultBound && b.scenarioBound && b.snapshotBound
    && c.horizon.start < c.horizon.end
    && (forall id :: id in c.commercialAssumptions ==>
          && c.commercialAssumptions[id].approved
          && (c.commercialAssumptions[id].expiresAt.None?
              || c.commercialAssumptions[id].expiresAt.value > c.horizon.start))
  }

  function InputOf(c: Context, options: seq<ProcurementOption>, p: Policy): PlanInput {
    PlanInput(ById(options), Demands(c.horizon, p.shortfalls), p.constraints.limits)
  }

  /** Builds the input from the eligible flows: the ghost lists are the one way to split them, and
      they decide. The construction raises exactly when the provenance is not closed or the contract
      types refuse the result. */
  method BuildInput(c: Context, naming: Naming, b: Bindings, p: Policy)
    returns (build: Build, ghost options: seq<ProcurementOption>, ghost excluded: seq<Exclusion>)
    requires RouteSearch.UniqueRoutes(PlainRoutes(c.snapshot.routes)) && c.snapshot.evidence != []
    ensures !Ready(c, b) ==> build == Blocked([])
    ensures Ready(c, b) ==>
              && Split(c, naming, Ordered(c.flows), options, excluded)
              && (if options == [] then build == Blocked(excluded)
                  else if !Closed(c, options, p) || !ValidInput(InputOf(c, options, p)) then build == Raised
                  else
                    && build.Built? && build.input == InputOf(c, options, p) && build.excluded == excluded
                    && Exact(options, p, build.evidence, build.assumptions)
                    && build.evidence <= SetOf(c.snapshot.evidence))
  {
    options, excluded := [], [];
    if !b.runCompleted || !b.resultBound || !b.scenarioBound || !b.snapshotBound || c.horizon.end <= c.horizon.start {
      return Blocked([]), options, excluded;
    }
    var refused := exists id ::
      id in c.commercialAssumptions.Keys
      && (!c.commercialAssumptions[id].approved
          || (c.commercialAssumptions[id].expiresAt.Some?
              && c.commercialAssumptions[id].expiresAt.value <= c.horizon.start));
    if refused {
      return Blocked([]), options, excluded;
    }
    var eligible, others := ClassifyAll(c, naming);
    options, excluded := eligible, others;
    if eligible == [] {
      return Blocked(others), options, excluded;
    }
    var valid, evidence, assumptions := CloseProvenance(c, eligible, p);
    var input := InputOf(c, eligible, p);
    if !valid || !ValidInput(input) {
      return Raised, options, excluded;
    }
    build := Built(input, evidence, assumptions, others);
  }

  /** The flows determine both lists. */
  lemma {:induction false} SplitIsUnique(
    c: Context, naming: Naming, flows: seq<Flow>, options: seq<ProcurementOption>, excluded: seq<Exclusion>,
    options': seq<ProcurementOption>, excluded': seq<Exclusion>)
    requires Split(c, naming, flows, options, excluded) && Split(c, naming, flows, options', excluded')
    ensures options == options' && excluded == excluded'
  {
    hide OptionOf, EligibleFlow, ExclusionOf;
    if flows != [] {
      var init, f := flows[..|flows| - 1], flows[|flows| - 1];
      if EligibleFlow(c, naming, f) {
        var n, n' := |options| - 1, |options'| - 1;
        SplitIsUnique(c, naming, init, options[..n], excluded, options'[..n'], excluded');
        OptionIsUnique(c, naming, f, options[n], options'[n']);
        assert options == options[..n] + [options[n]] && options' == options'[..n'] + [options'[n']];
      } else {
        var n, n' := |excluded| - 1, |excluded'| - 1;
        SplitIsUnique(c, naming, init, options, excluded[..n], options', excluded'[..n']);
        ExclusionIsUnique(c, f, excluded[n], excluded'[n']);
        assert excluded == excluded[..n] + [excluded[n]] && excluded' == excluded'[..n'] + [excluded'[n']];
      }
    }
  }

  lemma ExclusionIsUnique(c: Context, f: Flow, e: Exclusion, e': Exclusion)
    requires ExclusionOf(c, f, e) && ExclusionOf(c, f, e')
    ensures e == e'
  {
  }

  lemma OptionIsUnique(c: Context, naming: Naming, f: Flow, o: ProcurementOption, o': ProcurementOption)
    requires OptionOf(c, naming, f, o) && OptionOf(c, naming, f, o')
    ensures o == o'
  {
    var p :| Chosen(c, f, p) && Buildable(c, naming, f, p)
             && o == Fingerprinted(naming, MakeOption(c, naming, f, Terms(c, f).value, p));
    var q :| Chosen(c, f, q) && Buildable(c, naming, f, q)
             && o' == Fingerprinted(naming, MakeOption(c, naming, f, Terms(c, f).value, q));
    ChosenIsUnique(c, f, p, q);
  }
}
