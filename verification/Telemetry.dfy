/** The telemetry registry: a bounded deque of durations per operation, and the snapshot. */
module Telemetry {
  import opened Sequences
  import opened Ordering
  import opened Percentiles
  import opened Rounding

  const MAX_SAMPLES := 2000

  /** Operation names matter only for equality and order. */
  type Operation = nat

  datatype Call = Call(operation: Operation, duration: real, failed: bool)

  datatype Samples = Samples(durations: seq<real>, failures: nat)

  datatype RuntimeMetric = RuntimeMetric(
    operation: Operation, count: nat, failures: nat, minimum: real, median: real, p95: real, maximum: real)

  // ---------------------------------------------------------------- the naive log

  ghost function Durations(log: seq<Call>, operation: Operation): seq<real> {
    if log == [] then []
    else
      var c := log[|log| - 1];
      Durations(log[..|log| - 1], operation)
      + if c.operation == operation then [if c.duration < 0.0 then 0.0 else c.duration] else []
  }

  ghost function Failures(log: seq<Call>, operation: Operation): nat {
    if log == [] then 0
    else
      var c := log[|log| - 1];
      Failures(log[..|log| - 1], operation) + if c.operation == operation && c.failed then 1 else 0
  }

  ghost predicate SamplesAt(operations: map<Operation, Samples>, log: seq<Call>, op: Operation) {
    && (op in operations <==> Durations(log, op) != [])
    && (op in operations ==>
          operations[op] == Samples(Keep(Durations(log, op), MAX_SAMPLES), Failures(log, op)))
    && (op !in operations ==> Failures(log, op) == 0)
  }

  // ---------------------------------------------------------------- the registry

  ghost predicate Describes(m: RuntimeMetric, log: seq<Call>) {
    var recorded := Durations(log, m.operation);
    var kept := SortedReals(if |recorded| <= 2000 then recorded else recorded[|recorded| - 2000..]);
    && kept != [] && Ascending(kept) && m.count == |kept| && m.failures == Failures(log, m.operation)
    && m.minimum == Round3(kept[0]) && m.maximum == Round3(kept[|kept| - 1])
    && (exists v :: IsMedian(kept, v) && m.median == Round3(v))
    && (exists v :: Interpolated(kept, 0.95, v) && m.p95 == Round3(v))
    && m.minimum <= m.median <= m.p95 <= m.maximum
  }

  lemma {:induction false} LeastExists(s: set<Operation>) returns (least: Operation)
    requires s != {}
    ensures least in s && forall o :: o in s ==> least <= o
  {
    var x :| x in s;
    var rest := s - {x};
    assert forall o :: o in s ==> o == x || o in rest;
    if rest == {} {
      least := x;
    } else {
      var other := LeastExists(rest);
      least := if other < x then other else x;
    }
  }

  ghost predicate Listed(metrics: seq<RuntimeMetric>, op: Operation) {
    exists i :: 0 <= i < |metrics| && metrics[i].operation == op
  }

  lemma ListedNothing()
    ensures forall op :: !Listed([], op)
  {
  }

  lemma ListedPush(metrics: seq<RuntimeMetric>, m: RuntimeMetric, op: Operation)
    ensures Listed(metrics + [m], op) <==> Listed(metrics, op) || m.operation == op
  {
    var longer := metrics + [m];
    assert longer[|metrics|] == m;
    if i :| 0 <= i < |metrics| && metrics[i].operation == op {
      assert longer[i].operation == op;
    }
  }

  class TelemetryRegistry {
    var operations: map<Operation, Samples>
    ghost var log: seq<Call>

    ghost predicate Valid()
      reads this
    {
      forall op :: SamplesAt(operations, log, op)
    }

    constructor ()
      ensures Valid() && log == []
    {
      operations, log := map[], [];
    }

    /** Appends to the operation's deque and counts the failure. */
    method Record(operation: Operation, duration: real, failed: bool)
      requires Valid()
      modifies this
      ensures Valid() && log == old(log) + [Call(operation, duration, failed)]
    {
      var sample := if operation in operations then operations[operation] else Samples([], 0);
      var clipped := if duration < 0.0 then 0.0 else duration;
      ghost var before, call := operations, Call(operation, duration, failed);
      operations := operations[operation :=
        Samples(Keep(sample.durations + [clipped], MAX_SAMPLES), sample.failures + if failed then 1 else 0)];
      assert (log + [call])[..|log|] == log;
      forall op ensures SamplesAt(operations, log + [call], op) {
        assert SamplesAt(before, log, op);
        KeepPush(Durations(log, operation), MAX_SAMPLES, clipped);
        assert op != operation ==> Durations(log + [call], op) == Durations(log, op);
      }
      log := log + [call];
    }

    /** One metric per operation, by name, with ordered figures over the last 2000 samples. */
    method Snapshot() returns (result: seq<RuntimeMetric>)
      requires Valid()
      ensures forall i :: 0 <= i < |result| ==> Describes(result[i], log)
      ensures forall i, j :: 0 <= i < j < |result| ==> result[i].operation < result[j].operation
      ensures forall op :: Durations(log, op) != [] <==> Listed(result, op)
    {
      hide Durations, Failures, SortedReals, Percentile, Round3, Listed, IsMedian, Interpolated;
      result := [];
      ListedNothing();
      var todo := operations.Keys;
      while todo != {}
        invariant todo <= operations.Keys
        invariant forall i :: 0 <= i < |result| ==> Describes(result[i], log)
        invariant forall i, o :: 0 <= i < |result| && o in todo ==> result[i].operation < o
        invariant forall i, j :: 0 <= i < j < |result| ==> result[i].operation < result[j].operation
        invariant forall op :: op in operations && op !in todo <==> Listed(result, op)
      {
        ghost var least := LeastExists(todo);
        var op :| op in todo && forall o :: o in todo ==> op <= o;
        assert SamplesAt(operations, log, op);
        ghost var shown, left := result, todo;
        result := result + [Metric(op, operations[op])];
        todo := todo - {op};
        forall o ensures o in operations && o !in todo <==> Listed(result, o) {
          ListedPush(shown, result[|shown|], o);
          assert o in operations && o !in left <==> Listed(shown, o);
        }
      }
      forall op ensures op in operations <==> Durations(log, op) != [] {
        assert SamplesAt(operations, log, op);
      }
    }

    static function Metric(op: Operation, sample: Samples): (m: RuntimeMetric)
      requires sample.durations != []
      ensures var kept := SortedReals(sample.durations);
              && m.operation == op && m.count == |kept| && m.failures == sample.failures
              && kept != [] && Ascending(kept)
              && m.minimum == Round3(kept[0]) && m.maximum == Round3(kept[|kept| - 1])
              && (exists v :: IsMedian(kept, v) && m.median == Round3(v))
              && (exists v :: Interpolated(kept, 0.95, v) && m.p95 == Round3(v))
              && m.minimum <= m.median <= m.p95 <= m.maximum
    {
      var values := SortedReals(sample.durations);
      SortedRealsAscend(sample.durations);
      HalfIsMedian(values);
      PercentileInterpolates(values, 0.95);
      PercentileWithin(values, 0.5);
      PercentileWithin(values, 0.95);
      PercentileMonotone(values, 0.5, 0.95);
      Round3Monotone(values[0], Percentile(values, 0.5));
      Round3Monotone(Percentile(values, 0.5), Percentile(values, 0.95));
      Round3Monotone(Percentile(values, 0.95), values[|values| - 1]);
      RuntimeMetric(
        op, |values|, sample.failures, Round3(values[0]), Round3(Percentile(values, 0.5)),
        Round3(Percentile(values, 0.95)), Round3(values[|values| - 1]))
    }
  }
}
