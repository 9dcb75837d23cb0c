/** The supplier-to-refinery path search of the procurement input builder: a queue-driven
    enumeration of the node-simple paths, then a lexicographic minimum. */
module RouteSearch {
  import opened Wrappers
  import opened Ordering

  datatype Route = Route(
    id: Uuid, canonicalId: string, origin: Uuid, destination: Uuid, available: bool)

  /** The routes of a snapshot by identifier. */
  type Graph = map<Uuid, Route>

  /** A snapshot rejects two routes with the same identifier. */
  ghost predicate UniqueRoutes(routes: seq<Route>) {
    forall i, j :: 0 <= i < j < |routes| ==> routes[i].id != routes[j].id
  }

  function ById(routes: seq<Route>): Graph {
    if routes == [] then map[]
    else ById(routes[..|routes| - 1])[routes[|routes| - 1].id := routes[|routes| - 1]]
  }

  // ---------------------------------------------------------------- the declarative answer

  function Destination(g: Graph, id: Uuid): Uuid {
    if id in g then g[id].destination else 0
  }

  /** The nodes a walk visits, the start included. */
  ghost function Nodes(g: Graph, start: Uuid, path: seq<Uuid>): (ns: seq<Uuid>)
    ensures |ns| == |path| + 1
  {
    if path == [] then [start]
    else Nodes(g, start, path[..|path| - 1]) + [Destination(g, path[|path| - 1])]
  }

  /** A walk over available routes in which every route leads on from the node reached, to a
      node not visited before, and none leaves the refinery. */
  ghost predicate SimpleWalk(g: Graph, start: Uuid, refinery: Uuid, path: seq<Uuid>) {
    forall i :: StepAt(g, start, refinery, path, i)
  }

  ghost predicate StepAt(g: Graph, start: Uuid, refinery: Uuid, path: seq<Uuid>, i: int) {
    0 <= i < |path| ==> SimpleStep(g, refinery, path[i], Nodes(g, start, path)[..i + 1])
  }

  ghost predicate SimpleStep(g: Graph, refinery: Uuid, id: Uuid, seen: seq<Uuid>)
    requires seen != []
  {
    && id in g && g[id].available
    && g[id].origin == seen[|seen| - 1] != refinery
    && g[id].destination !in seen
  }

  ghost predicate LeavesLoadPort(g: Graph, path: seq<Uuid>, loadPorts: seq<Uuid>) {
    exists id :: id in path && id in g && g[id].origin in loadPorts
  }

  /** The paths the builder may choose from. */
  ghost predicate Candidate(
    g: Graph, supplier: Uuid, refinery: Uuid, required: Uuid, loadPorts: seq<Uuid>, path: seq<Uuid>)
  {
    && SimpleWalk(g, supplier, refinery, path)
    && Nodes(g, supplier, path)[|path|] == refinery
    && required in path
    && LeavesLoadPort(g, path, loadPorts)
  }

  /** Python's order on tuples. */
  predicate LexLe(a: seq<Uuid>, b: seq<Uuid>) {
    a == [] || (b != [] && (a[0] < b[0] || (a[0] == b[0] && LexLe(a[1..], b[1..]))))
  }

  ghost predicate Answer(
    routes: seq<Route>, supplier: Uuid, refinery: Uuid, required: Uuid, loadPorts: seq<Uuid>, path: seq<Uuid>)
  {
    var g := ById(routes);
    if path == [] then
      forall p :: !Candidate(g, supplier, refinery, required, loadPorts, p)
    else
      && Candidate(g, supplier, refinery, required, loadPorts, path)
      && forall p :: Candidate(g, supplier, refinery, required, loadPorts, p) ==> LexLe(path, p)
  }

  // ---------------------------------------------------------------- facts about the answer

  lemma {:induction false} LexLeTotal(a: seq<Uuid>, b: seq<Uuid>)
    ensures LexLe(a, b) || LexLe(b, a)
  {
    if a != [] && b != [] && a[0] == b[0] {
      LexLeTotal(a[1..], b[1..]);
    }
  }

  /** The paths differ first at position `k`, and there the left one is smaller. */
  ghost predicate SmallerFirst(a: seq<Uuid>, b: seq<Uuid>, k: int) {
    0 <= k < |a| && k < |b| && a[k] < b[k] && forall i :: 0 <= i < k ==> a[i] == b[i]
  }

  /** A path comes no later when it is a prefix of the other, or smaller at the first difference. */
  lemma {:induction false} LexLeIsFirstDifference(a: seq<Uuid>, b: seq<Uuid>)
    ensures LexLe(a, b) <==> a <= b || exists k :: SmallerFirst(a, b, k)
  {
    if a == [] || b == [] {
    } else if a[0] < b[0] {
      assert SmallerFirst(a, b, 0);
    } else if a[0] == b[0] {
      LexLeIsFirstDifference(a[1..], b[1..]);
      if k :| SmallerFirst(a[1..], b[1..], k) {
        assert SmallerFirst(a, b, k + 1);
      }
      if k :| SmallerFirst(a, b, k) {
        assert SmallerFirst(a[1..], b[1..], k - 1);
      }
      assert a[1..] <= b[1..] <==> a <= b;
    }
  }

  lemma {:induction false} LexLeAntisymmetric(a: seq<Uuid>, b: seq<Uuid>)
    requires LexLe(a, b) && LexLe(b, a)
    ensures a == b
  {
    if a != [] && b != [] {
      LexLeAntisymmetric(a[1..], b[1..]);
      assert a == [a[0]] + a[1..] && b == [b[0]] + b[1..];
    }
  }

  lemma {:induction false} LexLeTransitive(a: seq<Uuid>, b: seq<Uuid>, c: seq<Uuid>)
    requires LexLe(a, b) && LexLe(b, c)
    ensures LexLe(a, c)
  {
    if a != [] && a[0] == b[0] && b[0] == c[0] {
      LexLeTransitive(a[1..], b[1..], c[1..]);
    }
  }

  /** With unique identifiers the index holds exactly the listed routes. */
  lemma {:induction false} ByIdHolds(routes: seq<Route>)
    requires UniqueRoutes(routes)
    ensures forall i :: 0 <= i < |routes| ==> routes[i].id in ById(routes) && ById(routes)[routes[i].id] == routes[i]
    ensures forall id :: id in ById(routes) ==> ById(routes)[id] in routes && ById(routes)[id].id == id
  {
    if routes != [] {
      ByIdHolds(routes[..|routes| - 1]);
    }
  }

  lemma SameIndex(routes: seq<Route>, permuted: seq<Route>)
    requires UniqueRoutes(routes) && UniqueRoutes(permuted) && multiset(routes) == multiset(permuted)
    ensures ById(routes) == ById(permuted)
  {
    IndexIncluded(routes, permuted);
    IndexIncluded(permuted, routes);
  }

  lemma IndexIncluded(routes: seq<Route>, permuted: seq<Route>)
    requires UniqueRoutes(routes) && UniqueRoutes(permuted) && multiset(routes) == multiset(permuted)
    ensures forall id :: id in ById(routes) ==> id in ById(permuted) && ById(permuted)[id] == ById(routes)[id]
  {
    ByIdHolds(routes);
    ByIdHolds(permuted);
    forall id | id in ById(routes) ensures id in ById(permuted) && ById(permuted)[id] == ById(routes)[id] {
      var r := ById(routes)[id];
      assert r in multiset(permuted);
      var j :| 0 <= j < |permuted| && permuted[j] == r;
    }
  }

  /** The answer is a function of the set of routes: permuting the snapshot changes nothing. */
  lemma AnswerIgnoresOrder(
    routes: seq<Route>, permuted: seq<Route>, supplier: Uuid, refinery: Uuid, required: Uuid,
    loadPorts: seq<Uuid>, a: seq<Uuid>, b: seq<Uuid>)
    requires UniqueRoutes(routes) && UniqueRoutes(permuted) && multiset(routes) == multiset(permuted)
    requires Answer(routes, supplier, refinery, required, loadPorts, a)
    requires Answer(permuted, supplier, refinery, required, loadPorts, b)
    ensures a == b
  {
    SameIndex(routes, permuted);
    if a != [] && b != [] {
      LexLeAntisymmetric(a, b);
    }
  }

  // ---------------------------------------------------------------- the search

  /** One queue entry: the node reached, the routes taken, the nodes seen. */
  datatype Entry = Entry(node: Uuid, path: seq<Uuid>, visited: set<Uuid>)

  ghost predicate ValidEntry(g: Graph, supplier: Uuid, refinery: Uuid, e: Entry) {
    && SimpleWalk(g, supplier, refinery, e.path)
    && var ns := Nodes(g, supplier, e.path);
    && e.node == ns[|e.path|]
    && e.visited == set n | n in ns
  }

  ghost function Places(g: Graph, supplier: Uuid): set<Uuid> {
    {supplier} + set id | id in g :: g[id].destination
  }

  ghost function Times(n: nat, w: nat): nat {
    if n == 0 then 0 else Times(n - 1, w) + w
  }

  /** A full tree of the given fan-out and height: one node more than its subtrees. */
  ghost function TreeSize(fan: nat, height: nat): nat {
    1 + if height == 0 then 0 else Times(fan, TreeSize(fan, height - 1))
  }

  /** What one entry may still cost: a full tree of the given fan-out over the unseen nodes. */
  ghost function Weight(g: Graph, supplier: Uuid, fan: nat, e: Entry): nat {
    TreeSize(fan, |Places(g, supplier) - e.visited|)
  }

  ghost function TotalWeight(g: Graph, supplier: Uuid, fan: nat, queue: seq<Entry>): nat {
    if queue == [] then 0
    else TotalWeight(g, supplier, fan, queue[..|queue| - 1]) + Weight(g, supplier, fan, queue[|queue| - 1])
  }

  lemma {:induction false} TotalWeightPop(g: Graph, supplier: Uuid, fan: nat, queue: seq<Entry>)
    requires queue != []
    ensures TotalWeight(g, supplier, fan, queue)
            == Weight(g, supplier, fan, queue[0]) + TotalWeight(g, supplier, fan, queue[1..])
  {
    hide Weight;
    if |queue| == 1 {
      assert queue[1..] == [] && queue[..0] == [];
    } else {
      var init := queue[..|queue| - 1];
      TotalWeightPop(g, supplier, fan, init);
      assert queue[1..][..|queue| - 2] == init[1..];
      assert queue[1..][|queue| - 2] == queue[|queue| - 1];
    }
  }

  lemma TotalWeightPush(g: Graph, supplier: Uuid, fan: nat, queue: seq<Entry>, e: Entry)
    ensures TotalWeight(g, supplier, fan, queue + [e])
            == TotalWeight(g, supplier, fan, queue) + Weight(g, supplier, fan, e)
  {
    assert (queue + [e])[..|queue|] == queue;
  }

  lemma NodesPush(g: Graph, start: Uuid, path: seq<Uuid>, id: Uuid)
    ensures Nodes(g, start, path + [id]) == Nodes(g, start, path) + [Destination(g, id)]
  {
    assert (path + [id])[..|path|] == path;
  }

  lemma {:induction false} NodesPrefix(g: Graph, start: Uuid, path: seq<Uuid>, k: nat)
    requires k <= |path|
    ensures Nodes(g, start, path[..k]) == Nodes(g, start, path)[..k + 1]
  {
    if k == |path| {
      assert path[..k] == path;
    } else {
      var init := path[..|path| - 1];
      NodesPrefix(g, start, init, k);
      assert init[..k] == path[..k];
    }
  }

  /** Following a route to an unseen node lengthens a simple walk. */
  lemma WalkPush(g: Graph, start: Uuid, refinery: Uuid, path: seq<Uuid>, id: Uuid)
    requires SimpleWalk(g, start, refinery, path)
    requires SimpleStep(g, refinery, id, Nodes(g, start, path))
    ensures SimpleWalk(g, start, refinery, path + [id])
  {
    var ns, longer := Nodes(g, start, path), path + [id];
    NodesPush(g, start, path, id);
    forall i ensures StepAt(g, start, refinery, longer, i) {
      if 0 <= i < |longer| {
        assert Nodes(g, start, longer)[..i + 1] == ns[..i + 1];
        assert i < |path| ==> StepAt(g, start, refinery, path, i);
        assert ns[..|path| + 1] == ns;
      }
    }
  }

  /** A simple walk visits no node twice. */
  lemma SimpleWalkIsSimple(g: Graph, start: Uuid, refinery: Uuid, path: seq<Uuid>, i: nat, j: nat)
    requires SimpleWalk(g, start, refinery, path) && i < j <= |path|
    ensures Nodes(g, start, path)[i] != Nodes(g, start, path)[j]
  {
    var ns := Nodes(g, start, path);
    assert StepAt(g, start, refinery, path, j - 1);
    assert ns[..j][i] == ns[i];
    NodesPrefix(g, start, path, j);
    assert ns[j] == ns[..j + 1][j] == Destination(g, path[j - 1]);
  }

  /** And so follows no route twice. */
  lemma PathsDoNotRepeat(g: Graph, start: Uuid, refinery: Uuid, path: seq<Uuid>, i: nat, j: nat)
    requires SimpleWalk(g, start, refinery, path) && i < j < |path|
    ensures path[i] != path[j]
  {
    SimpleWalkIsSimple(g, start, refinery, path, i + 1, j + 1);
    NodesPrefix(g, start, path, i + 1);
    NodesPrefix(g, start, path, j + 1);
    var ns := Nodes(g, start, path);
    assert ns[i + 1] == ns[..i + 2][i + 1] && ns[j + 1] == ns[..j + 2][j + 1];
  }

  /** Following a route to an unseen node gives a valid entry. */
  lemma Extend(g: Graph, supplier: Uuid, refinery: Uuid, e: Entry, id: Uuid)
    requires ValidEntry(g, supplier, refinery, e) && e.node != refinery
    requires id in g && g[id].available && g[id].origin == e.node && g[id].destination !in e.visited
    ensures ValidEntry(g, supplier, refinery,
                       Entry(g[id].destination, e.path + [id], e.visited + {g[id].destination}))
  {
    WalkPush(g, supplier, refinery, e.path, id);
    NodesPush(g, supplier, e.path, id);
  }

  lemma ExtendWeight(g: Graph, supplier: Uuid, fan: nat, e: Entry, child: Entry, next: Uuid)
    requires next in Places(g, supplier) && next !in e.visited && child.visited == e.visited + {next}
    ensures Weight(g, supplier, fan, child) == ChildWeight(g, supplier, fan, e)
  {
    var left, left' := Places(g, supplier) - e.visited, Places(g, supplier) - child.visited;
    assert left == left' + {next} && next !in left';
    assert |left| == |left'| + 1;
  }

  /** A simple walk that runs through an entry either ends there or continues by a usable route. */
  lemma Ahead(g: Graph, supplier: Uuid, refinery: Uuid, e: Entry, p: seq<Uuid>)
    requires ValidEntry(g, supplier, refinery, e) && SimpleWalk(g, supplier, refinery, p) && e.path <= p
    ensures e.node == refinery ==> p == e.path
    ensures e.path != p ==>
              var id := p[|e.path|];
              && id in g && g[id].available && g[id].origin == e.node && g[id].destination !in e.visited
              && e.path + [id] <= p
  {
    var k, full := |e.path|, Nodes(g, supplier, p);
    assert p[..k] == e.path;
    NodesPrefix(g, supplier, p, k);
    assert full[k] == e.node;
    if e.path != p {
      assert StepAt(g, supplier, refinery, p, k);
    }
  }

  /** A candidate is already listed, or a queued entry is a prefix of it. */
  ghost predicate Covered(candidates: seq<seq<Uuid>>, queue: seq<Entry>, p: seq<Uuid>) {
    || p in candidates
    || exists i :: 0 <= i < |queue| && queue[i].path <= p
  }

  /** The route index, built in list order. */
  method IndexRoutes(routes: seq<Route>) returns (g: Graph)
    ensures g == ById(routes)
  {
    g := map[];
    for i := 0 to |routes|
      invariant g == ById(routes[..i])
    {
      assert routes[..i + 1][..i] == routes[..i];
      g := g[routes[i].id := routes[i]];
    }
    assert routes[..|routes|] == routes;
  }

  predicate StringLe(a: string, b: string) {
    a == [] || (b != [] && (a[0] < b[0] || (a[0] == b[0] && StringLe(a[1..], b[1..]))))
  }

  lemma {:induction false} StringLeTotal(a: string, b: string)
    ensures StringLe(a, b) || StringLe(b, a)
  {
    if a != [] && b != [] && a[0] == b[0] {
      StringLeTotal(a[1..], b[1..]);
    }
  }

  lemma {:induction false} StringLeTransitive(a: string, b: string, c: string)
    requires StringLe(a, b) && StringLe(b, c)
    ensures StringLe(a, c)
  {
    if a != [] && a[0] == b[0] && b[0] == c[0] {
      StringLeTransitive(a[1..], b[1..], c[1..]);
    }
  }

  /** Order by canonical identifier; identifiers outside the index come first. */
  function CanonicalLe(g: Graph): (Uuid, Uuid) -> bool {
    (x, y) => if x in g && y in g then StringLe(g[x].canonicalId, g[y].canonicalId) else x !in g
  }

  lemma CanonicalOrder(g: Graph)
    ensures Preorder(CanonicalLe(g))
  {
    var le := CanonicalLe(g);
    forall x, y ensures le(x, y) || le(y, x) {
      if x in g && y in g {
        StringLeTotal(g[x].canonicalId, g[y].canonicalId);
      }
    }
    forall x, y, z | le(x, y) && le(y, z) ensures le(x, z) {
      if x in g && y in g && z in g {
        StringLeTransitive(g[x].canonicalId, g[y].canonicalId, g[z].canonicalId);
      }
    }
  }

  /** The lists of `outgoing` name exactly the available routes out of each node. */
  ghost predicate IsOutgoing(g: Graph, fan: nat, outgoing: map<Uuid, seq<Uuid>>) {
    forall n :: OutOf(g, fan, n, if n in outgoing then outgoing[n] else [])
  }

  ghost predicate OutOf(g: Graph, fan: nat, n: Uuid, ids: seq<Uuid>) {
    && |ids| <= fan
    && forall id :: EdgeListed(g, n, ids, id)
  }

  ghost predicate EdgeListed(g: Graph, n: Uuid, ids: seq<Uuid>, id: Uuid) {
    id in ids <==> id in g && g[id].available && g[id].origin == n
  }

  /** The available routes out of each node, ordered by canonical identifier. */
  method IndexOutgoing(routes: seq<Route>, g: Graph) returns (outgoing: map<Uuid, seq<Uuid>>)
    requires UniqueRoutes(routes) && g == ById(routes)
    ensures IsOutgoing(g, |routes|, outgoing)
    ensures forall n :: n in outgoing ==> Sorted(CanonicalLe(g), outgoing[n])
  {
    hide IsOutgoing, Sorted, CanonicalLe;
    outgoing := map[];
    NothingOutgoing(routes);
    for i := 0 to |routes|
      invariant IsOutgoing(ById(routes[..i]), i, outgoing)
    {
      var route := routes[i];
      ghost var before := outgoing;
      if route.available {
        var known := if route.origin in outgoing then outgoing[route.origin] else [];
        outgoing := outgoing[route.origin := known + [route.id]];
      }
      assert routes[..i + 1][..i] == routes[..i];
      assert routes[..i] + [route] == routes[..i + 1];
      FreshIdentifier(routes[..i], route);
      OutgoingStep(routes[..i], route, before, outgoing);
    }
    assert routes[..|routes|] == routes;
    outgoing := SortOutgoing(g, |routes|, outgoing);
  }

  lemma NothingOutgoing(routes: seq<Route>)
    ensures IsOutgoing(ById(routes[..0]), 0, map[])
  {
  }

  lemma FreshIdentifier(routes: seq<Route>, route: Route)
    requires UniqueRoutes(routes + [route])
    ensures UniqueRoutes(routes) && route.id !in ById(routes)
  {
    var all := routes + [route];
    assert all[..|routes|] == routes;
    forall i, j | 0 <= i < j < |routes| ensures routes[i].id != routes[j].id {
      assert all[i].id != all[j].id;
    }
    forall i | 0 <= i < |routes| ensures routes[i].id != route.id {
      assert all[i].id != all[|routes|].id;
    }
    ByIdHolds(routes);
  }

  lemma TableGrows(routes: seq<Route>, route: Route)
    ensures ById(routes + [route]) == ById(routes)[route.id := route]
  {
    assert (routes + [route])[..|routes|] == routes;
  }

  lemma OutgoingStep(routes: seq<Route>, route: Route, before: map<Uuid, seq<Uuid>>, after: map<Uuid, seq<Uuid>>)
    requires route.id !in ById(routes) && IsOutgoing(ById(routes), |routes|, before)
    requires after == if !route.available then before
                      else before[route.origin :=
                                    (if route.origin in before then before[route.origin] else []) + [route.id]]
    ensures IsOutgoing(ById(routes + [route]), |routes| + 1, after)
  {
    hide OutOf, ById;
    var g, g' := ById(routes), ById(routes + [route]);
    TableGrows(routes, route);
    forall n ensures OutOf(g', |routes| + 1, n, if n in after then after[n] else []) {
      var ids := if n in before then before[n] else [];
      assert OutOf(g, |routes|, n, ids);
      OneMoreRoute(g, route, |routes|, n, ids);
    }
  }

  lemma OneMoreRoute(g: Graph, route: Route, fan: nat, n: Uuid, ids: seq<Uuid>)
    requires route.id !in g && OutOf(g, fan, n, ids)
    ensures OutOf(g[route.id := route], fan + 1, n,
                  if route.available && route.origin == n then ids + [route.id] else ids)
  {
    var longer := if route.available && route.origin == n then ids + [route.id] else ids;
    var larger := g[route.id := route];
    forall id ensures EdgeListed(larger, n, longer, id) {
      assert EdgeListed(g, n, ids, id);
    }
  }

  method SortOutgoing(g: Graph, fan: nat, unsorted: map<Uuid, seq<Uuid>>) returns (outgoing: map<Uuid, seq<Uuid>>)
    requires IsOutgoing(g, fan, unsorted)
    ensures IsOutgoing(g, fan, outgoing)
    ensures forall n :: n in outgoing ==> Sorted(CanonicalLe(g), outgoing[n])
  {
    outgoing := unsorted;
    var todo := outgoing.Keys;
    CanonicalOrder(g);
    while todo != {}
      invariant todo <= outgoing.Keys
      invariant IsOutgoing(g, fan, outgoing)
      invariant forall n :: n in outgoing && n !in todo ==> Sorted(CanonicalLe(g), outgoing[n])
    {
      var n :| n in todo;
      StableSortSorts(CanonicalLe(g), outgoing[n]);
      SortOneList(g, fan, outgoing, n);
      outgoing := outgoing[n := StableSort(CanonicalLe(g), outgoing[n])];
      todo := todo - {n};
    }
  }

  lemma SortOneList(g: Graph, fan: nat, outgoing: map<Uuid, seq<Uuid>>, n: Uuid)
    requires IsOutgoing(g, fan, outgoing) && n in outgoing && Preorder(CanonicalLe(g))
    ensures IsOutgoing(g, fan, outgoing[n := StableSort(CanonicalLe(g), outgoing[n])])
  {
    var ids := StableSort(CanonicalLe(g), outgoing[n]);
    var after := outgoing[n := ids];
    forall m ensures OutOf(g, fan, m, if m in after then after[m] else []) {
      assert OutOf(g, fan, m, if m in outgoing then outgoing[m] else []);
      forall id | m == n ensures EdgeListed(g, n, ids, id) {
        MemberOfSort(CanonicalLe(g), outgoing[n], id);
        assert EdgeListed(g, n, outgoing[n], id);
      }
    }
  }

  /** Takes the least of the candidates, or nothing. */
  method Least(candidates: seq<seq<Uuid>>) returns (path: seq<Uuid>)
    ensures candidates == [] ==> path == []
    ensures candidates != [] ==> path in candidates
    ensures forall p :: p in candidates ==> LexLe(path, p)
  {
    if candidates == [] {
      return [];
    }
    path := candidates[0];
    LexLeTotal(path, path);
    for i := 1 to |candidates|
      invariant path in candidates
      invariant forall k :: 0 <= k < i ==> LexLe(path, candidates[k])
    {
      var p := candidates[i];
      LexLeTotal(p, path);
      LexLeTotal(p, p);
      if !LexLe(path, p) {
        forall k | 0 <= k < i ensures LexLe(p, candidates[k]) {
          LexLeTransitive(p, path, candidates[k]);
        }
        path := p;
      }
    }
  }

  /** The search invariant: everything listed or queued is sound, and nothing is missing. */
  ghost predicate Searching(
    g: Graph, supplier: Uuid, refinery: Uuid, required: Uuid, loadPorts: seq<Uuid>,
    candidates: seq<seq<Uuid>>, queue: seq<Entry>)
  {
    && AllValid(g, supplier, refinery, queue)
    && forall p :: Accounted(g, supplier, refinery, required, loadPorts, candidates, queue, p)
  }

  ghost predicate Accounted(
    g: Graph, supplier: Uuid, refinery: Uuid, required: Uuid, loadPorts: seq<Uuid>,
    candidates: seq<seq<Uuid>>, queue: seq<Entry>, p: seq<Uuid>)
  {
    && (p in candidates ==> Candidate(g, supplier, refinery, required, loadPorts, p))
    && (Candidate(g, supplier, refinery, required, loadPorts, p) ==> Covered(candidates, queue, p))
  }

  ghost predicate AllValid(g: Graph, supplier: Uuid, refinery: Uuid, queue: seq<Entry>) {
    forall i :: ValidAt(g, supplier, refinery, queue, i)
  }

  ghost predicate ValidAt(g: Graph, supplier: Uuid, refinery: Uuid, queue: seq<Entry>, i: int) {
    0 <= i < |queue| ==> ValidEntry(g, supplier, refinery, queue[i])
  }

  /** Breadth-first enumeration over a queue; it ends, and returns the answer. */
  method RoutePath(
    routes: seq<Route>, supplier: Uuid, refinery: Uuid, required: Uuid, loadPorts: seq<Uuid>)
    returns (path: seq<Uuid>)
    requires UniqueRoutes(routes)
    ensures Answer(routes, supplier, refinery, required, loadPorts, path)
    ensures path != [] <==> exists p :: Candidate(ById(routes), supplier, refinery, required, loadPorts, p)
  {
    var g := IndexRoutes(routes);
    var outgoing := IndexOutgoing(routes, g);
    var candidates: seq<seq<Uuid>> := [];
    var queue := [Entry(supplier, [], {supplier})];
    SearchStarts(g, supplier, refinery, required, loadPorts);
    while queue != []
      invariant Searching(g, supplier, refinery, required, loadPorts, candidates, queue)
      decreases TotalWeight(g, supplier, |routes|, queue)
    {
      TotalWeightPop(g, supplier, |routes|, queue);
      PopValid(g, supplier, refinery, queue);
      ghost var before, whole := candidates, queue;
      var e := queue[0];
      queue := queue[1..];
      if e.node == refinery {
        if required in e.path && exists id :: id in e.path && id in g && g[id].origin in loadPorts {
          candidates := candidates + [e.path];
        }
        StepAtRefinery(g, supplier, refinery, required, loadPorts, before, whole, candidates);
      } else {
        queue := Expand(g, |routes|, supplier, refinery, outgoing, e, queue);
        StepInside(g, supplier, refinery, required, loadPorts, candidates, whole, queue);
      }
    }
    path := Least(candidates);
    Exhausted(g, supplier, refinery, required, loadPorts, candidates);
  }

  lemma SearchStarts(g: Graph, supplier: Uuid, refinery: Uuid, required: Uuid, loadPorts: seq<Uuid>)
    ensures Searching(g, supplier, refinery, required, loadPorts, [], [Entry(supplier, [], {supplier})])
  {
    var queue := [Entry(supplier, [], {supplier})];
    forall p ensures Accounted(g, supplier, refinery, required, loadPorts, [], queue, p) {
      assert queue[0].path <= p;
    }
  }

  /** When the queue is empty, the list holds exactly the candidates. */
  lemma Exhausted(
    g: Graph, supplier: Uuid, refinery: Uuid, required: Uuid, loadPorts: seq<Uuid>, candidates: seq<seq<Uuid>>)
    requires Searching(g, supplier, refinery, required, loadPorts, candidates, [])
    ensures forall p :: Candidate(g, supplier, refinery, required, loadPorts, p) <==> p in candidates
    ensures [] !in candidates
  {
    forall p ensures Candidate(g, supplier, refinery, required, loadPorts, p) <==> p in candidates {
      assert Accounted(g, supplier, refinery, required, loadPorts, candidates, [], p);
    }
  }

  /** Appends the entry behind one route, unless its destination was seen. */
  function Follow(g: Graph, e: Entry, id: Uuid, queue: seq<Entry>): seq<Entry>
    requires id in g
  {
    var destination := g[id].destination;
    if destination in e.visited then queue
    else queue + [Entry(destination, e.path + [id], e.visited + {destination})]
  }

  /** A usable route out of `e` leads to an entry of the queue. */
  ghost predicate Follows(g: Graph, e: Entry, id: Uuid, queue: seq<Entry>) {
    id in g && g[id].available && g[id].origin == e.node && g[id].destination !in e.visited ==>
      exists i :: 0 <= i < |queue| && queue[i].path == e.path + [id]
  }

  /** Appends the entries one step beyond `e`. */
  method Expand(
    g: Graph, fan: nat, supplier: Uuid, refinery: Uuid, outgoing: map<Uuid, seq<Uuid>>, e: Entry, rest: seq<Entry>)
    returns (queue: seq<Entry>)
    requires ValidEntry(g, supplier, refinery, e) && e.node != refinery
    requires IsOutgoing(g, fan, outgoing)
    requires AllValid(g, supplier, refinery, rest)
    ensures rest <= queue && AllValid(g, supplier, refinery, queue)
    ensures forall id :: Follows(g, e, id, queue)
    ensures TotalWeight(g, supplier, fan, queue) < TotalWeight(g, supplier, fan, rest) + Weight(g, supplier, fan, e)
  {
    hide Expanding, ValidEntry, AllValid, TotalWeight, Weight, Follow, Follows;
    queue := rest;
    var ids := if e.node in outgoing then outgoing[e.node] else [];
    assert OutOf(g, fan, e.node, ids);
    ghost var tried := [];
    ExpandStart(g, fan, supplier, refinery, e, rest);
    for i := 0 to |ids|
      invariant tried == ids[..i]
      invariant Expanding(g, fan, supplier, refinery, e, rest, tried, queue)
    {
      var id := ids[i];
      assert EdgeListed(g, e.node, ids, id);
      ExpandStep(g, fan, supplier, refinery, e, rest, tried, id, queue);
      queue := Follow(g, e, id, queue);
      tried := tried + [id];
    }
    assert tried == ids;
    ExpandDone(g, fan, supplier, refinery, e, rest, tried, queue);
  }

  ghost function ChildWeight(g: Graph, supplier: Uuid, fan: nat, e: Entry): nat {
    var height := |Places(g, supplier) - e.visited|;
    if height == 0 then 0 else TreeSize(fan, height - 1)
  }

  /** What holds after the routes `tried` out of `e` were followed. */
  ghost predicate Expanding(
    g: Graph, fan: nat, supplier: Uuid, refinery: Uuid, e: Entry, rest: seq<Entry>, tried: seq<Uuid>, queue: seq<Entry>)
  {
    && rest <= queue
    && AllValid(g, supplier, refinery, queue)
    && (forall id :: Tried(g, e, tried, id, queue))
    && TotalWeight(g, supplier, fan, queue)
       <= TotalWeight(g, supplier, fan, rest) + Times(|tried|, ChildWeight(g, supplier, fan, e))
  }

  ghost predicate Tried(g: Graph, e: Entry, tried: seq<Uuid>, id: Uuid, queue: seq<Entry>) {
    id in tried ==> Follows(g, e, id, queue)
  }

  lemma ExpandStart(g: Graph, fan: nat, supplier: Uuid, refinery: Uuid, e: Entry, rest: seq<Entry>)
    requires AllValid(g, supplier, refinery, rest)
    ensures Expanding(g, fan, supplier, refinery, e, rest, [], rest)
  {
    hide AllValid, TotalWeight, ChildWeight;
  }

  lemma ExpandDone(
    g: Graph, fan: nat, supplier: Uuid, refinery: Uuid, e: Entry, rest: seq<Entry>, ids: seq<Uuid>, queue: seq<Entry>)
    requires Expanding(g, fan, supplier, refinery, e, rest, ids, queue) && OutOf(g, fan, e.node, ids)
    ensures rest <= queue && AllValid(g, supplier, refinery, queue)
    ensures forall id :: Follows(g, e, id, queue)
    ensures TotalWeight(g, supplier, fan, queue) < TotalWeight(g, supplier, fan, rest) + Weight(g, supplier, fan, e)
  {
    TimesGrows(|ids|, fan, ChildWeight(g, supplier, fan, e));
    TimesZero(fan);
    forall id ensures Follows(g, e, id, queue) {
      assert EdgeListed(g, e.node, ids, id);
      assert Tried(g, e, ids, id, queue);
    }
  }

  lemma ExpandStep(
    g: Graph, fan: nat, supplier: Uuid, refinery: Uuid, e: Entry, rest: seq<Entry>, tried: seq<Uuid>, id: Uuid,
    queue: seq<Entry>)
    requires Expanding(g, fan, supplier, refinery, e, rest, tried, queue)
    requires ValidEntry(g, supplier, refinery, e) && e.node != refinery
    requires id in g && g[id].available && g[id].origin == e.node
    ensures Expanding(g, fan, supplier, refinery, e, rest, tried + [id], Follow(g, e, id, queue))
  {
    var next := g[id].destination;
    var child := Entry(next, e.path + [id], e.visited + {next});
    var longer := Follow(g, e, id, queue);
    forall i ensures ValidAt(g, supplier, refinery, longer, i) {
      assert ValidAt(g, supplier, refinery, queue, i);
      if next !in e.visited {
        Extend(g, supplier, refinery, e, id);
      }
    }
    if next !in e.visited {
      ExtendWeight(g, supplier, fan, e, child, next);
      TotalWeightPush(g, supplier, fan, queue, child);
      assert longer[|queue|].path == e.path + [id];
    }
    forall k ensures Tried(g, e, tried + [id], k, longer) {
      assert Tried(g, e, tried, k, queue);
      if k in tried {
        FollowsGrows(g, e, k, queue, longer);
      }
    }
  }

  lemma FollowsGrows(g: Graph, e: Entry, id: Uuid, queue: seq<Entry>, longer: seq<Entry>)
    requires Follows(g, e, id, queue) && queue <= longer
    ensures Follows(g, e, id, longer)
  {
    if i :| 0 <= i < |queue| && queue[i].path == e.path + [id] {
      assert longer[i] == queue[i];
    }
  }

  lemma {:induction false} TimesZero(n: nat)
    ensures Times(n, 0) == 0
  {
    if n > 0 {
      TimesZero(n - 1);
    }
  }

  lemma {:induction false} TimesGrows(k: nat, n: nat, w: nat)
    requires k <= n
    ensures Times(k, w) <= Times(n, w)
  {
    if k < n {
      TimesGrows(k, n - 1, w);
    }
  }

  lemma PopValid(g: Graph, supplier: Uuid, refinery: Uuid, queue: seq<Entry>)
    requires AllValid(g, supplier, refinery, queue) && queue != []
    ensures ValidEntry(g, supplier, refinery, queue[0]) && AllValid(g, supplier, refinery, queue[1..])
  {
    assert ValidAt(g, supplier, refinery, queue, 0);
    forall i ensures ValidAt(g, supplier, refinery, queue[1..], i) {
      assert ValidAt(g, supplier, refinery, queue, i + 1);
    }
  }

  lemma StepAtRefinery(
    g: Graph, supplier: Uuid, refinery: Uuid, required: Uuid, loadPorts: seq<Uuid>,
    before: seq<seq<Uuid>>, queue: seq<Entry>, after: seq<seq<Uuid>>)
    requires Searching(g, supplier, refinery, required, loadPorts, before, queue)
    requires queue != [] && queue[0].node == refinery
    requires after == if Candidate(g, supplier, refinery, required, loadPorts, queue[0].path)
                      then before + [queue[0].path] else before
    ensures Searching(g, supplier, refinery, required, loadPorts, after, queue[1..])
  {
    PopValid(g, supplier, refinery, queue);
    forall p ensures Accounted(g, supplier, refinery, required, loadPorts, after, queue[1..], p) {
      assert Accounted(g, supplier, refinery, required, loadPorts, before, queue, p);
      if p !in before && Candidate(g, supplier, refinery, required, loadPorts, p) {
        var i :| 0 <= i < |queue| && queue[i].path <= p;
        if i == 0 {
          Ahead(g, supplier, refinery, queue[0], p);
        } else {
          assert queue[1..][i - 1].path <= p;
        }
      }
    }
  }

  lemma StepInside(
    g: Graph, supplier: Uuid, refinery: Uuid, required: Uuid, loadPorts: seq<Uuid>,
    candidates: seq<seq<Uuid>>, queue: seq<Entry>, after: seq<Entry>)
    requires Searching(g, supplier, refinery, required, loadPorts, candidates, queue)
    requires queue != [] && queue[0].node != refinery
    requires queue[1..] <= after && AllValid(g, supplier, refinery, after)
    requires forall id :: Follows(g, queue[0], id, after)
    ensures Searching(g, supplier, refinery, required, loadPorts, candidates, after)
  {
    PopValid(g, supplier, refinery, queue);
    forall p ensures Accounted(g, supplier, refinery, required, loadPorts, candidates, after, p) {
      assert Accounted(g, supplier, refinery, required, loadPorts, candidates, queue, p);
      if p !in candidates && Candidate(g, supplier, refinery, required, loadPorts, p) {
        var i :| 0 <= i < |queue| && queue[i].path <= p;
        if i == 0 {
          Ahead(g, supplier, refinery, queue[0], p);
          assert queue[0].path != p;
          assert Follows(g, queue[0], p[|queue[0].path|], after);
        } else {
          assert after[i - 1] == queue[1..][i - 1];
        }
      }
    }
  }
}
