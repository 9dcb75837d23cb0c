/** The traversal that collects every metric envelope of a plan, with the path that leads to it. */
module MetricTree {
  import opened Wrappers
  import opened Decimal

  datatype TruthClass = Observed | Derived | Inferred | Modeled | Assumed

  datatype Freshness = Live | Recent | Current | Stale | Replay | Unavailable

  /** A metric envelope: the provenance that travels with every decision value. */
  datatype Metric = Metric(
    value: string, evidenceIds: seq<Uuid>, sourceRefs: seq<string>, transformation: string,
    modelVersion: string, freshness: Freshness, truth: TruthClass)

  /** A field name or dictionary key, or the index of a list item. */
  datatype Step = Key(name: string) | Index(index: nat)

  datatype Child = Child(step: Step, node: Node)

  /** A plan as the traversal sees it. A model, dictionary or list is a branch: its children in
      order, each under its name, key or index. Anything else is passed over. */
  datatype Node = Envelope(metric: Metric) | Branch(children: seq<Child>) | Other

  // ---------------------------------------------------------------- the traversal

  function RenderStep(step: Step): string {
    match step
    case Key(name) => "." + name
    case Index(i) => "[" + Digits(i) + "]"
  }

  function IterMetrics(node: Node, path: string): seq<(string, Metric)> {
    match node
    case Envelope(m) => [(path, m)]
    case Branch(children) => IterChildren(children, path)
    case Other => []
  }

  function IterChildren(children: seq<Child>, path: string): seq<(string, Metric)> {
    if children == [] then []
    else
      var last := children[|children| - 1];
      assert (children decreases to last) && (last decreases to last.node);
      var Child(step, node) := last;
      IterChildren(children[..|children| - 1], path) + IterMetrics(node, path + RenderStep(step))
  }

  // ---------------------------------------------------------------- following a path

  function Render(steps: seq<Step>): string {
    if steps == [] then "" else Render(steps[..|steps| - 1]) + RenderStep(steps[|steps| - 1])
  }

  /** The position of the child under a step, or the number of children. */
  function ChildAt(children: seq<Child>, step: Step): (k: nat)
    ensures k <= |children|
    ensures k < |children| ==> children[k].step == step
    ensures forall i :: 0 <= i < k ==> children[i].step != step
  {
    if children == [] then 0
    else
      var k := ChildAt(children[..|children| - 1], step);
      if k < |children| - 1 || children[k].step == step then k else |children|
  }

  function Lookup(node: Node, steps: seq<Step>): Option<Node>
    decreases |steps|
  {
    if steps == [] then Some(node)
    else if !node.Branch? then None
    else
      var k := ChildAt(node.children, steps[0]);
      if k < |node.children| then Lookup(node.children[k].node, steps[1..]) else None
  }

  predicate Marks(c: char) {
    c == '.' || c == '['
  }

  /** A name cannot be mistaken for the start of the next step. */
  ghost predicate PlainStep(step: Step) {
    step.Key? ==> forall i :: 0 <= i < |step.name| ==> !Marks(step.name[i])
  }

  ghost predicate PlainSteps(steps: seq<Step>) {
    forall i :: 0 <= i < |steps| ==> PlainStep(steps[i])
  }

  /** Names are plain, and siblings have distinct steps, all the way down. */
  ghost predicate WellNamed(node: Node) {
    node.Branch? ==> WellNamedChildren(node.children)
  }

  ghost predicate WellNamedChildren(children: seq<Child>) {
    children != [] ==>
      var n := |children| - 1;
      assert (children decreases to children[n]) && (children[n] decreases to children[n].node);
      var Child(step, node) := children[n];
      && PlainStep(step) && WellNamed(node)
      && (forall i :: 0 <= i < n ==> children[i].step != step)
      && WellNamedChildren(children[..n])
  }

  // ---------------------------------------------------------------- reading a path back

  /** Where the last step of a rendered path starts, or the length if there is none. */
  function LastMark(path: string): (k: nat)
    ensures k <= |path|
  {
    if path == "" then 0
    else if Marks(path[|path| - 1]) then |path| - 1
    else
      var k := LastMark(path[..|path| - 1]);
      if k == |path| - 1 then |path| else k
  }

  function ParseStep(mark: char, text: string): Step {
    if mark == '.' then Key(text) else Index(if text == "" then 0 else Value(text[..|text| - 1]))
  }

  function Parse(path: string): seq<Step>
    decreases |path|
  {
    var k := LastMark(path);
    if k == |path| then [] else Parse(path[..k]) + [ParseStep(path[k], path[k + 1..])]
  }

  ghost predicate Unmarked(text: string) {
    forall i :: 0 <= i < |text| ==> !Marks(text[i])
  }

  lemma {:induction false} LastMarkBefore(a: string, c: char, text: string)
    requires Marks(c) && Unmarked(text)
    ensures LastMark(a + [c] + text) == |a|
    decreases |text|
  {
    var path := a + [c] + text;
    if text != [] {
      LastMarkBefore(a, c, text[..|text| - 1]);
      assert path[..|path| - 1] == a + [c] + text[..|text| - 1];
    }
  }

  lemma StepText(step: Step) returns (c: char, text: string)
    requires PlainStep(step)
    ensures RenderStep(step) == [c] + text && Marks(c) && Unmarked(text) && ParseStep(c, text) == step
  {
    match step
    case Key(name) =>
      c, text := '.', name;
    case Index(i) =>
      DigitsReadBack(i);
      c, text := '[', Digits(i) + "]";
      assert text[..|text| - 1] == Digits(i);
  }

  /** Rendering loses nothing when the names are plain. */
  lemma {:induction false} ParseRender(steps: seq<Step>)
    requires PlainSteps(steps)
    ensures Parse(Render(steps)) == steps
  {
    hide Parse, RenderStep, PlainStep;
    if steps == [] {
      ParseNothing();
    } else {
      var init, last := steps[..|steps| - 1], steps[|steps| - 1];
      ParseRender(init);
      ParseLast(Render(init), last);
      assert steps == init + [last];
    }
  }

  lemma ParseNothing()
    ensures Parse("") == []
  {
  }

  lemma ParseLast(a: string, step: Step)
    requires PlainStep(step)
    ensures Parse(a + RenderStep(step)) == Parse(a) + [step]
  {
    var c, text := StepText(step);
    hide RenderStep, ParseStep, PlainStep;
    LastMarkBefore(a, c, text);
    var path := a + RenderStep(step);
    assert path == a + [c] + text;
    assert path[..|a|] == a && path[|a|] == c && path[|a| + 1..] == text;
  }

  // ---------------------------------------------------------------- the entries, structurally

  ghost function Entries(node: Node, taken: seq<Step>): seq<(seq<Step>, Metric)> {
    match node
    case Envelope(m) => [(taken, m)]
    case Branch(children) => ChildEntries(children, taken)
    case Other => []
  }

  ghost function ChildEntries(children: seq<Child>, taken: seq<Step>): seq<(seq<Step>, Metric)> {
    if children == [] then []
    else
      var last := children[|children| - 1];
      assert (children decreases to last) && (last decreases to last.node);
      var Child(step, node) := last;
      ChildEntries(children[..|children| - 1], taken) + Entries(node, taken + [step])
  }

  ghost function RenderAll(entries: seq<(seq<Step>, Metric)>, root: string): seq<(string, Metric)> {
    seq(|entries|, i requires 0 <= i < |entries| => (root + Render(entries[i].0), entries[i].1))
  }

  lemma RenderPush(root: string, taken: seq<Step>, step: Step)
    ensures root + Render(taken + [step]) == root + Render(taken) + RenderStep(step)
  {
    assert (taken + [step])[..|taken|] == taken;
    assert root + (Render(taken) + RenderStep(step)) == root + Render(taken) + RenderStep(step);
  }

  /** The yielded paths are the structural ones, rendered. */
  lemma {:induction false} IterRenders(node: Node, taken: seq<Step>, root: string)
    ensures IterMetrics(node, root + Render(taken)) == RenderAll(Entries(node, taken), root)
    decreases node
  {
    if node.Branch? {
      IterChildrenRenders(node.children, taken, root);
    }
  }

  lemma {:induction false} IterChildrenRenders(children: seq<Child>, taken: seq<Step>, root: string)
    ensures IterChildren(children, root + Render(taken)) == RenderAll(ChildEntries(children, taken), root)
    decreases children
  {
    hide Render, RenderStep;
    if children != [] {
      var last := children[|children| - 1];
      assert (children decreases to last) && (last decreases to last.node);
      var Child(step, node) := last;
      IterChildrenRenders(children[..|children| - 1], taken, root);
      IterRenders(node, taken + [step], root);
      RenderPush(root, taken, step);
    }
  }

  /** An entry of a child: what was taken, the child's step, and the way from there on. */
  ghost predicate LeadsThrough(child: Child, taken: seq<Step>, entry: (seq<Step>, Metric)) {
    && |taken| < |entry.0| && entry.0[..|taken|] == taken && entry.0[|taken|] == child.step
    && Lookup(child.node, entry.0[|taken| + 1..]) == Some(Envelope(entry.1))
    && PlainSteps(entry.0[|taken| + 1..])
  }

  ghost predicate LeadsTo(node: Node, taken: seq<Step>, entry: (seq<Step>, Metric)) {
    && taken <= entry.0 && Lookup(node, entry.0[|taken|..]) == Some(Envelope(entry.1))
    && PlainSteps(entry.0[|taken|..])
  }

  /** Every entry leads to an envelope. */
  lemma {:induction false} EntriesLead(node: Node, taken: seq<Step>, i: nat)
    requires WellNamed(node) && i < |Entries(node, taken)|
    ensures LeadsTo(node, taken, Entries(node, taken)[i])
    decreases node
  {
    if node.Branch? {
      var k := ChildEntriesLead(node.children, taken, i);
      var steps := Entries(node, taken)[i].0;
      ChildAtIs(node.children, k);
      assert steps[|taken|..][1..] == steps[|taken| + 1..];
    }
  }

  lemma {:induction false} ChildEntriesLead(children: seq<Child>, taken: seq<Step>, i: nat) returns (k: nat)
    requires WellNamedChildren(children) && i < |ChildEntries(children, taken)|
    ensures k < |children| && LeadsThrough(children[k], taken, ChildEntries(children, taken)[i])
    ensures PlainStep(children[k].step)
    decreases children
  {
    var n := |children| - 1;
    var before := ChildEntries(children[..n], taken);
    if i < |before| {
      k := ChildEntriesLead(children[..n], taken, i);
    } else {
      k := n;
      assert (children decreases to children[n]) && (children[n] decreases to children[n].node);
      var Child(step, node) := children[n];
      var deeper := taken + [step];
      EntriesLead(node, deeper, i - |before|);
      var steps := ChildEntries(children, taken)[i].0;
      assert steps[|deeper|..] == steps[|taken| + 1..];
      assert steps[..|deeper|] == deeper;
      assert steps[..|taken|] == deeper[..|taken|];
    }
  }

  lemma {:induction false} ChildAtIs(children: seq<Child>, k: nat)
    requires WellNamedChildren(children) && k < |children|
    ensures ChildAt(children, children[k].step) == k
  {
    var n := |children| - 1;
    if k < n {
      ChildAtIs(children[..n], k);
    }
  }

  /** Every envelope that can be reached is an entry. */
  lemma {:induction false} EnvelopesAreEntries(node: Node, taken: seq<Step>, steps: seq<Step>, m: Metric)
    returns (i: nat)
    requires Lookup(node, steps) == Some(Envelope(m))
    ensures i < |Entries(node, taken)| && Entries(node, taken)[i] == (taken + steps, m)
    decreases node
  {
    if steps == [] {
      i := 0;
      assert taken + steps == taken;
    } else {
      var k := ChildAt(node.children, steps[0]);
      i := ChildEnvelopes(node.children, k, taken, steps, m);
    }
  }

  lemma {:induction false} ChildEnvelopes(children: seq<Child>, k: nat, taken: seq<Step>, steps: seq<Step>, m: Metric)
    returns (i: nat)
    requires k < |children| && steps != [] && children[k].step == steps[0]
    requires Lookup(children[k].node, steps[1..]) == Some(Envelope(m))
    ensures i < |ChildEntries(children, taken)| && ChildEntries(children, taken)[i] == (taken + steps, m)
    decreases children
  {
    var n := |children| - 1;
    if k < n {
      i := ChildEnvelopes(children[..n], k, taken, steps, m);
    } else {
      var before := ChildEntries(children[..n], taken);
      assert (children decreases to children[n]) && (children[n] decreases to children[n].node);
      var Child(_, node) := children[n];
      var j := EnvelopesAreEntries(node, taken + [steps[0]], steps[1..], m);
      i := |before| + j;
      assert taken + [steps[0]] + steps[1..] == taken + steps;
    }
  }

  /** No two entries took the same steps. */
  lemma {:induction false} EntriesDiffer(node: Node, taken: seq<Step>, i: nat, j: nat)
    requires WellNamed(node) && i < j < |Entries(node, taken)|
    ensures Entries(node, taken)[i].0 != Entries(node, taken)[j].0
    decreases node
  {
    if node.Branch? {
      ChildEntriesDiffer(node.children, taken, i, j);
    }
  }

  lemma {:induction false} ChildEntriesDiffer(children: seq<Child>, taken: seq<Step>, i: nat, j: nat)
    requires WellNamedChildren(children) && i < j < |ChildEntries(children, taken)|
    ensures ChildEntries(children, taken)[i].0 != ChildEntries(children, taken)[j].0
    decreases children
  {
    var n := |children| - 1;
    var before := ChildEntries(children[..n], taken);
    if j < |before| {
      ChildEntriesDiffer(children[..n], taken, i, j);
    } else if i >= |before| {
      assert (children decreases to children[n]) && (children[n] decreases to children[n].node);
      var Child(step, node) := children[n];
      EntriesDiffer(node, taken + [step], i - |before|, j - |before|);
    } else {
      var k := ChildEntriesLead(children[..n], taken, i);
      EntriesLead(children[n].node, taken + [children[n].step], j - |before|);
      assert ChildEntries(children, taken)[j].0[|taken|] == children[n].step;
    }
  }

  // ---------------------------------------------------------------- the theorem

  const ROOT := "plan"

  /** The path, read back, leads to the envelope it came with. */
  ghost predicate PathLeads(plan: Node, entry: (string, Metric)) {
    && ROOT <= entry.0
    && Lookup(plan, Parse(entry.0[|ROOT|..])) == Some(Envelope(entry.1))
  }

  lemma EntryPath(plan: Node, i: nat)
    requires WellNamed(plan) && i < |Entries(plan, [])|
    ensures |IterMetrics(plan, ROOT)| == |Entries(plan, [])|
    ensures var steps := Entries(plan, [])[i].0;
            && IterMetrics(plan, ROOT)[i] == (ROOT + Render(steps), Entries(plan, [])[i].1)
            && PlainSteps(steps) && Lookup(plan, steps) == Some(Envelope(Entries(plan, [])[i].1))
  {
    IterRenders(plan, [], ROOT);
    assert ROOT + "" == ROOT;
    EntriesLead(plan, [], i);
    var steps := Entries(plan, [])[i].0;
    assert steps[0..] == steps;
  }

  /** Exactly one entry per envelope: each path leads to its own envelope, no path occurs twice,
      and every envelope is reached. */
  lemma EveryEnvelopeOnce(plan: Node)
    requires WellNamed(plan)
    ensures forall i :: 0 <= i < |IterMetrics(plan, ROOT)| ==> PathLeads(plan, IterMetrics(plan, ROOT)[i])
    ensures forall i, j :: 0 <= i < j < |IterMetrics(plan, ROOT)| ==>
              IterMetrics(plan, ROOT)[i].0 != IterMetrics(plan, ROOT)[j].0
    ensures forall steps, m: Metric :: Lookup(plan, steps) == Some(Envelope(m)) ==>
              (ROOT + Render(steps), m) in IterMetrics(plan, ROOT)
  {
    var found := IterMetrics(plan, ROOT);
    IterRenders(plan, [], ROOT);
    assert ROOT + "" == ROOT;
    forall i | 0 <= i < |found| ensures PathLeads(plan, found[i]) {
      PathReads(plan, i);
    }
    forall i, j | 0 <= i < j < |found| ensures found[i].0 != found[j].0 {
      EntriesDiffer(plan, [], i, j);
      PathReads(plan, i);
      PathReads(plan, j);
    }
    forall steps, m: Metric | Lookup(plan, steps) == Some(Envelope(m)) ensures (ROOT + Render(steps), m) in found {
      var i := EnvelopesAreEntries(plan, [], steps, m);
      assert [] + steps == steps;
      assert found[i] == (ROOT + Render(steps), m);
    }
  }

  lemma PathReads(plan: Node, i: nat)
    requires WellNamed(plan) && i < |Entries(plan, [])|
    ensures |IterMetrics(plan, ROOT)| == |Entries(plan, [])| && PathLeads(plan, IterMetrics(plan, ROOT)[i])
    ensures Parse(IterMetrics(plan, ROOT)[i].0[|ROOT|..]) == Entries(plan, [])[i].0
  {
    EntryPath(plan, i);
    var steps := Entries(plan, [])[i].0;
    ParseRender(steps);
    assert (ROOT + Render(steps))[|ROOT|..] == Render(steps);
  }
}
