/** The LPG network and its validator: a loop over the routes fills keyed sums that are compared
    with the capacities afterwards. */
module LpgNetwork {
  import opened Arithmetic
  import opened Sequences
  import opened Wrappers

  /** Asset identifiers matter only for equality and order. */
  type AssetId = nat

  datatype Via = Hormuz | Elsewhere

  datatype Supplier = Supplier(id: AssetId, capacity: real)

  datatype Terminal = Terminal(id: AssetId, capacity: real, compatible: bool)

  datatype Route = Route(
    id: AssetId, supplierId: AssetId, terminalId: AssetId, via: Via,
    capacity: real, baselineFlow: real, transitDays: real, cost: real)

  datatype Network = Network(
    suppliers: seq<Supplier>, terminals: seq<Terminal>, routes: seq<Route>,
    baselineDemand: real, effectiveAt: int, expiresAt: int)

  /** The bounds that the field declarations impose before the validator runs. */
  predicate FieldsInRange(n: Network) {
    && n.suppliers != [] && n.terminals != [] && n.routes != [] && n.baselineDemand > 0.0
    && (forall s :: s in n.suppliers ==> s.capacity >= 0.0)
    && (forall t :: t in n.terminals ==> t.capacity >= 0.0)
    && (forall r :: r in n.routes ==>
          r.capacity >= 0.0 && r.baselineFlow >= 0.0 && r.transitDays > 0.0 && r.cost >= 0.0)
  }

  // ---------------------------------------------------------------- the declarative invariants

  /** The baseline flow over all routes with the given endpoint. */
  datatype Endpoint = AtSupplier(s: AssetId) | AtTerminal(t: AssetId) | Anywhere

  predicate Touches(r: Route, e: Endpoint) {
    match e
    case AtSupplier(s) => r.supplierId == s
    case AtTerminal(t) => r.terminalId == t
    case Anywhere => true
  }

  function Flow(routes: seq<Route>, e: Endpoint): real {
    if routes == [] then 0.0
    else
      var r := routes[|routes| - 1];
      Flow(routes[..|routes| - 1], e) + if Touches(r, e) then r.baselineFlow else 0.0
  }

  function SupplierId(s: Supplier): AssetId {
    s.id
  }

  function TerminalId(t: Terminal): AssetId {
    t.id
  }

  function SupplierCapacity(s: Supplier): real {
    s.capacity
  }

  function TerminalCapacity(t: Terminal): real {
    t.capacity
  }

  ghost predicate UniqueAssets(n: Network) {
    NoRepeats(KeysOf(n.suppliers, SupplierId)) && NoRepeats(KeysOf(n.terminals, TerminalId))
  }

  ghost predicate GoodRoute(n: Network, r: Route) {
    && (exists s :: s in n.suppliers && s.id == r.supplierId)
    && (exists t :: t in n.terminals && t.id == r.terminalId && t.compatible)
    && r.baselineFlow <= r.capacity
  }

  ghost predicate PhysicallySound(n: Network) {
    && n.effectiveAt < n.expiresAt
    && UniqueAssets(n)
    && (forall r :: r in n.routes ==> GoodRoute(n, r))
    && (forall t :: t in n.terminals ==> Flow(n.routes, AtTerminal(t.id)) <= t.capacity)
    && (forall s :: s in n.suppliers ==> Flow(n.routes, AtSupplier(s.id)) <= s.capacity)
    && Abs(Flow(n.routes, Anywhere) - n.baselineDemand) <= 0.000001
  }

  lemma FlowPush(routes: seq<Route>, r: Route, e: Endpoint)
    ensures Flow(routes + [r], e) == Flow(routes, e) + if Touches(r, e) then r.baselineFlow else 0.0
  {
    assert (routes + [r])[..|routes|] == routes;
  }

  // ---------------------------------------------------------------- the validator

  datatype NetworkError =
    | ExpiryOrder | DuplicateAsset | UnknownEndpoint | FlowOverCapacity | IncompatibleTerminal
    | TerminalOverCapacity | SupplierOverCapacity | DemandNotConserved

  ghost predicate Indexed(n: Network, suppliers: map<AssetId, Supplier>, terminals: map<AssetId, Terminal>) {
    Indexes(suppliers, n.suppliers, SupplierId) && Indexes(terminals, n.terminals, TerminalId)
  }

  function At(terminals: bool, k: AssetId): Endpoint {
    if terminals then AtTerminal(k) else AtSupplier(k)
  }

  /** The keyed sums over the routes seen so far. */
  ghost predicate Summed(m: map<AssetId, real>, routes: seq<Route>, terminals: bool) {
    forall k :: SummedAt(m, routes, terminals, k)
  }

  ghost predicate SummedAt(m: map<AssetId, real>, routes: seq<Route>, terminals: bool, k: AssetId) {
    var e := At(terminals, k);
    if k in m then m[k] == Flow(routes, e) else Flow(routes, e) == 0.0
  }

  lemma NothingSummed()
    ensures Summed(map[], [], true) && Summed(map[], [], false)
  {
  }

  lemma SummedPush(m: map<AssetId, real>, routes: seq<Route>, r: Route, terminals: bool)
    requires Summed(m, routes, terminals)
    ensures Summed(AddTo(m, if terminals then r.terminalId else r.supplierId, r.baselineFlow), routes + [r], terminals)
  {
    var m' := AddTo(m, if terminals then r.terminalId else r.supplierId, r.baselineFlow);
    forall k ensures SummedAt(m', routes + [r], terminals, k) {
      assert SummedAt(m, routes, terminals, k);
      FlowPush(routes, r, At(terminals, k));
    }
  }

  /** The loop over the routes: endpoints, capacity, compatibility, and the keyed sums. */
  method CheckRoutes(n: Network, suppliers: map<AssetId, Supplier>, terminals: map<AssetId, Terminal>)
    returns (error: Option<NetworkError>, terminalFlows: map<AssetId, real>, supplierFlows: map<AssetId, real>)
    requires Indexed(n, suppliers, terminals)
    ensures error.None? <==> forall r :: r in n.routes ==> GoodRoute(n, r)
    ensures error.None? ==> Summed(terminalFlows, n.routes, true) && Summed(supplierFlows, n.routes, false)
    ensures error.None? ==> terminalFlows.Keys <= terminals.Keys && supplierFlows.Keys <= suppliers.Keys
  {
    hide Summed, Flow, GoodRoute, Indexes;
    terminalFlows, supplierFlows := map[], map[];
    NothingSummed();
    for i := 0 to |n.routes|
      invariant forall k :: 0 <= k < i ==> GoodRoute(n, n.routes[k])
      invariant terminalFlows.Keys <= terminals.Keys && supplierFlows.Keys <= suppliers.Keys
      invariant Summed(terminalFlows, n.routes[..i], true) && Summed(supplierFlows, n.routes[..i], false)
    {
      var route := n.routes[i];
      RouteLookup(n, suppliers, terminals, route);
      if route.supplierId !in suppliers || route.terminalId !in terminals {
        return Some(UnknownEndpoint), terminalFlows, supplierFlows;
      }
      if route.baselineFlow > route.capacity {
        return Some(FlowOverCapacity), terminalFlows, supplierFlows;
      }
      if !terminals[route.terminalId].compatible {
        return Some(IncompatibleTerminal), terminalFlows, supplierFlows;
      }
      assert n.routes[..i + 1] == n.routes[..i] + [route];
      SummedPush(terminalFlows, n.routes[..i], route, true);
      SummedPush(supplierFlows, n.routes[..i], route, false);
      terminalFlows := AddTo(terminalFlows, route.terminalId, route.baselineFlow);
      supplierFlows := AddTo(supplierFlows, route.supplierId, route.baselineFlow);
    }
    assert n.routes[..|n.routes|] == n.routes;
    error := None;
  }

  lemma RouteLookup(n: Network, suppliers: map<AssetId, Supplier>, terminals: map<AssetId, Terminal>, r: Route)
    requires Indexed(n, suppliers, terminals)
    ensures GoodRoute(n, r) <==>
              r.supplierId in suppliers && r.terminalId in terminals && terminals[r.terminalId].compatible
              && r.baselineFlow <= r.capacity
  {
    if r.supplierId in suppliers && r.terminalId in terminals {
      assert suppliers[r.supplierId] in n.suppliers && terminals[r.terminalId] in n.terminals;
    }
  }

  method TotalFlow(routes: seq<Route>) returns (total: real)
    ensures total == Flow(routes, Anywhere)
  {
    total := 0.0;
    for i := 0 to |routes|
      invariant total == Flow(routes[..i], Anywhere)
    {
      assert routes[..i + 1] == routes[..i] + [routes[i]];
      FlowPush(routes[..i], routes[i], Anywhere);
      total := total + routes[i].baselineFlow;
    }
    assert routes[..|routes|] == routes;
  }

  /** The two comparisons of the keyed sums with the capacities. */
  method CheckLimits(
    n: Network, suppliers: map<AssetId, Supplier>, terminals: map<AssetId, Terminal>,
    supplierFlows: map<AssetId, real>, terminalFlows: map<AssetId, real>)
    returns (exceeded: Option<NetworkError>)
    requires FieldsInRange(n) && Indexed(n, suppliers, terminals)
    requires Summed(terminalFlows, n.routes, true) && terminalFlows.Keys <= terminals.Keys
    requires Summed(supplierFlows, n.routes, false) && supplierFlows.Keys <= suppliers.Keys
    ensures exceeded.None? <==>
              && (forall t :: t in n.terminals ==> Flow(n.routes, AtTerminal(t.id)) <= t.capacity)
              && (forall s :: s in n.suppliers ==> Flow(n.routes, AtSupplier(s.id)) <= s.capacity)
  {
    hide Flow, Summed, Indexes;
    LimitsExceeded(n.terminals, TerminalId, TerminalCapacity, terminals, terminalFlows, n.routes, true);
    if exists k | k in terminalFlows.Keys :: terminalFlows[k] > terminals[k].capacity {
      return Some(TerminalOverCapacity);
    }
    LimitsExceeded(n.suppliers, SupplierId, SupplierCapacity, suppliers, supplierFlows, n.routes, false);
    if exists k | k in supplierFlows.Keys :: supplierFlows[k] > suppliers[k].capacity {
      return Some(SupplierOverCapacity);
    }
    exceeded := None;
  }

  /** Accepts exactly the physically sound networks. */
  method PhysicalInvariants(n: Network) returns (r: Result<(), NetworkError>)
    requires FieldsInRange(n)
    ensures r.Success? <==> PhysicallySound(n)
  {
    hide Flow, Summed, GoodRoute, Indexes;
    if n.expiresAt <= n.effectiveAt {
      return Failure(ExpiryOrder);
    }
    var suppliers, uniqueSuppliers := IndexByKey(n.suppliers, SupplierId);
    var terminals, uniqueTerminals := IndexByKey(n.terminals, TerminalId);
    if !uniqueSuppliers || !uniqueTerminals {
      return Failure(DuplicateAsset);
    }
    var error, terminalFlows, supplierFlows := CheckRoutes(n, suppliers, terminals);
    if error.Some? {
      return Failure(error.value);
    }
    var exceeded := CheckLimits(n, suppliers, terminals, supplierFlows, terminalFlows);
    if exceeded.Some? {
      return Failure(exceeded.value);
    }
    var total := TotalFlow(n.routes);
    if Abs(total - n.baselineDemand) > 0.000001 {
      return Failure(DemandNotConserved);
    }
    r := Success(());
  }

  /** Comparing the keyed sums with the capacities finds exactly the assets whose flow is too large. */
  lemma LimitsExceeded<T(!new)>(
    list: seq<T>, id: T -> AssetId, capacity: T -> real, byId: map<AssetId, T>, flows: map<AssetId, real>,
    routes: seq<Route>, terminals: bool)
    requires Indexes(byId, list, id) && Summed(flows, routes, terminals) && flows.Keys <= byId.Keys
    requires forall x :: x in list ==> capacity(x) >= 0.0
    ensures (exists k | k in flows.Keys :: flows[k] > capacity(byId[k]))
            <==> exists x :: x in list && Flow(routes, At(terminals, id(x))) > capacity(x)
  {
    forall x | x in list
      ensures Flow(routes, At(terminals, id(x))) > capacity(x) <==> id(x) in flows && flows[id(x)] > capacity(x)
    {
      assert SummedAt(flows, routes, terminals, id(x));
    }
    if k :| k in flows.Keys && flows[k] > capacity(byId[k]) {
      assert byId[k] in list;
    }
    if x :| x in list && Flow(routes, At(terminals, id(x))) > capacity(x) {
      assert id(x) in flows.Keys && byId[id(x)] == x;
    }
  }
}
