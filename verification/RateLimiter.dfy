/** The sliding-window rate limiter with its bounded identity table. The table of deques is shown
    to agree, over every run, with the full log of admissions that it never stores. */
module RateLimiter {

  const WINDOW := 60.0

  /** The keys of the table: SHA-256 digests of identities, and the reserved word that no digest equals. */
  datatype Bucket = Digest(value: nat) | Overflow

  /** One admitted request: who asked, which bucket was charged, when. */
  datatype Admission = Admission(identity: Bucket, bucket: Bucket, at: real)

  // ---------------------------------------------------------------- the naive log

  /** Admissions charged to a bucket in the half-open interval (lo, hi]. */
  ghost function Admitted(log: seq<Admission>, bucket: Bucket, lo: real, hi: real): nat {
    if log == [] then 0
    else
      var e := log[|log| - 1];
      Admitted(log[..|log| - 1], bucket, lo, hi) + if e.bucket == bucket && lo < e.at <= hi then 1 else 0
  }

  ghost function AdmittedFor(log: seq<Admission>, identity: Bucket, lo: real, hi: real): nat {
    if log == [] then 0
    else
      var e := log[|log| - 1];
      AdmittedFor(log[..|log| - 1], identity, lo, hi) + if e.identity == identity && lo < e.at <= hi then 1 else 0
  }

  /** Admissions charged to any of the given buckets. */
  ghost function AdmittedIn(log: seq<Admission>, buckets: set<Bucket>, lo: real, hi: real): nat {
    if log == [] then 0
    else
      var e := log[|log| - 1];
      AdmittedIn(log[..|log| - 1], buckets, lo, hi) + if e.bucket in buckets && lo < e.at <= hi then 1 else 0
  }

  ghost function AdmittedAll(log: seq<Admission>, lo: real, hi: real): nat {
    if log == [] then 0
    else
      var e := log[|log| - 1];
      AdmittedAll(log[..|log| - 1], lo, hi) + if lo < e.at <= hi then 1 else 0
  }

  ghost predicate UpTo(log: seq<Admission>, at: real) {
    forall i :: 0 <= i < |log| ==> log[i].at <= at
  }

  /** The i-th admission came after the earlier ones, found its bucket below the limit, was charged to the
      identity's own bucket or to the shared one, and left at most `buckets` full windows overall. */
  ghost predicate Lawful(log: seq<Admission>, limit: nat, buckets: nat, i: int) {
    0 <= i < |log| ==>
      var e := log[i];
      && UpTo(log[..i], e.at)
      && Admitted(log[..i], e.bucket, e.at - WINDOW, e.at) < limit
      && (e.bucket == e.identity || e.bucket == Overflow)
      && AdmittedAll(log[..i + 1], e.at - WINDOW, e.at) <= buckets * limit
  }

  ghost predicate LawfulLog(log: seq<Admission>, limit: nat, buckets: nat) {
    forall i :: Lawful(log, limit, buckets, i)
  }

  lemma LawfulPrefix(log: seq<Admission>, limit: nat, buckets: nat)
    requires LawfulLog(log, limit, buckets) && log != []
    ensures LawfulLog(log[..|log| - 1], limit, buckets)
  {
    var init := log[..|log| - 1];
    forall i ensures Lawful(init, limit, buckets, i) {
      assert Lawful(log, limit, buckets, i);
      if 0 <= i < |init| {
        assert init[..i] == log[..i] && init[..i + 1] == log[..i + 1];
      }
    }
  }

  lemma {:induction false} NarrowerAdmitsLess(
    log: seq<Admission>, bucket: Bucket, lo: real, hi: real, lo': real, hi': real)
    requires lo' <= lo && UpTo(log, hi')
    ensures Admitted(log, bucket, lo, hi) <= Admitted(log, bucket, lo', hi')
  {
    if log != [] {
      NarrowerAdmitsLess(log[..|log| - 1], bucket, lo, hi, lo', hi');
    }
  }

  lemma {:induction false} NarrowerAdmitsLessOverall(log: seq<Admission>, lo: real, hi: real, lo': real, hi': real)
    requires lo' <= lo && UpTo(log, hi')
    ensures AdmittedAll(log, lo, hi) <= AdmittedAll(log, lo', hi')
  {
    if log != [] {
      NarrowerAdmitsLessOverall(log[..|log| - 1], lo, hi, lo', hi');
    }
  }

  /** No bucket is admitted more than `limit` times in any 60 seconds, wherever they start. */
  lemma {:induction false} BucketBound(log: seq<Admission>, limit: nat, buckets: nat, bucket: Bucket, end: real)
    requires LawfulLog(log, limit, buckets)
    ensures Admitted(log, bucket, end - WINDOW, end) <= limit
  {
    if log != [] {
      var init, e := log[..|log| - 1], log[|log| - 1];
      LawfulPrefix(log, limit, buckets);
      BucketBound(init, limit, buckets, bucket, end);
      if e.bucket == bucket && end - WINDOW < e.at <= end {
        assert Lawful(log, limit, buckets, |log| - 1);
        NarrowerAdmitsLess(init, bucket, end - WINDOW, end, e.at - WINDOW, e.at);
      }
    }
  }

  lemma {:induction false} IdentityUsesTwoBuckets(
    log: seq<Admission>, limit: nat, buckets: nat, identity: Bucket, lo: real, hi: real)
    requires LawfulLog(log, limit, buckets)
    ensures AdmittedFor(log, identity, lo, hi) <= Admitted(log, identity, lo, hi) + Admitted(log, Overflow, lo, hi)
  {
    if log != [] {
      LawfulPrefix(log, limit, buckets);
      IdentityUsesTwoBuckets(log[..|log| - 1], limit, buckets, identity, lo, hi);
      assert Lawful(log, limit, buckets, |log| - 1);
    }
  }

  /** An identity, through its own bucket and the shared one, gets at most twice the limit. */
  lemma IdentityBound(log: seq<Admission>, limit: nat, buckets: nat, identity: Bucket, end: real)
    requires LawfulLog(log, limit, buckets)
    ensures AdmittedFor(log, identity, end - WINDOW, end) <= 2 * limit
  {
    IdentityUsesTwoBuckets(log, limit, buckets, identity, end - WINDOW, end);
    BucketBound(log, limit, buckets, identity, end);
    BucketBound(log, limit, buckets, Overflow, end);
  }

  /** All identities together get at most one full window per table entry. */
  lemma {:induction false} OverallBound(log: seq<Admission>, limit: nat, buckets: nat, end: real)
    requires LawfulLog(log, limit, buckets)
    ensures AdmittedAll(log, end - WINDOW, end) <= buckets * limit
  {
    if log == [] {
      assert buckets * limit >= 0;
    } else {
      var init, e := log[..|log| - 1], log[|log| - 1];
      LawfulPrefix(log, limit, buckets);
      OverallBound(init, limit, buckets, end);
      if end - WINDOW < e.at <= end {
        assert Lawful(log, limit, buckets, |log| - 1);
        assert log[..|log|] == log && log[..|log| - 1] == init;
        assert UpTo(log, e.at);
        NarrowerAdmitsLessOverall(log, end - WINDOW, end, e.at - WINDOW, e.at);
      }
    }
  }

  // ---------------------------------------------------------------- table and log

  /** The admission times of one bucket, in order. */
  ghost function Times(log: seq<Admission>, bucket: Bucket): seq<real> {
    if log == [] then []
    else
      var e := log[|log| - 1];
      Times(log[..|log| - 1], bucket) + if e.bucket == bucket then [e.at] else []
  }

  ghost predicate Ascending(times: seq<real>, last: real) {
    && (forall i, j :: InOrderAt(times, i, j))
    && (forall i :: 0 <= i < |times| ==> times[i] <= last)
  }

  ghost predicate InOrderAt(times: seq<real>, i: int, j: int) {
    0 <= i <= j < |times| ==> times[i] <= times[j]
  }

  function Live(table: map<Bucket, seq<real>>, bucket: Bucket): seq<real> {
    if bucket in table then table[bucket] else []
  }

  /** A deque is the tail of its bucket's admissions; what was dropped is out of every window to come. */
  ghost predicate Tail(times: seq<real>, live: seq<real>, last: real) {
    && Ascending(times, last)
    && |live| <= |times|
    && times[|times| - |live|..] == live
    && forall i :: 0 <= i < |times| - |live| ==> times[i] <= last - WINDOW
  }

  ghost predicate Agrees(table: map<Bucket, seq<real>>, log: seq<Admission>, last: real) {
    forall b :: AgreesAt(table, log, last, b)
  }

  ghost predicate AgreesAt(table: map<Bucket, seq<real>>, log: seq<Admission>, last: real, b: Bucket) {
    Tail(Times(log, b), Live(table, b), last)
  }

  /** Dropping an expired head, or a whole expired deque, keeps the agreement. */
  lemma TailDrops(times: seq<real>, live: seq<real>, now: real, k: nat)
    requires Tail(times, live, now) && k <= |live|
    requires k > 0 ==> now - live[k - 1] >= WINDOW
    ensures Tail(times, live[k..], now)
  {
    var d := |times| - |live|;
    assert live[k..] == times[d + k..];
    forall i | 0 <= i < d + k ensures times[i] <= now - WINDOW {
      if k > 0 {
        assert live[k - 1] == times[d + k - 1];
        assert InOrderAt(times, i, d + k - 1);
      }
    }
  }

  lemma TailGrows(times: seq<real>, live: seq<real>, now: real)
    requires Tail(times, live, now)
    ensures Tail(times + [now], live + [now], now)
  {
    var t := times + [now];
    forall i, j ensures InOrderAt(t, i, j) {
      assert InOrderAt(times, i, j);
    }
    assert t[|t| - |live + [now]|..] == times[|times| - |live|..] + [now];
  }

  ghost function CountIn(times: seq<real>, lo: real, hi: real): nat {
    if times == [] then 0
    else CountIn(times[..|times| - 1], lo, hi) + if lo < times[|times| - 1] <= hi then 1 else 0
  }

  lemma {:induction false} AdmittedCountsTimes(log: seq<Admission>, bucket: Bucket, lo: real, hi: real)
    ensures Admitted(log, bucket, lo, hi) == CountIn(Times(log, bucket), lo, hi)
  {
    if log != [] {
      var init, e := log[..|log| - 1], log[|log| - 1];
      AdmittedCountsTimes(init, bucket, lo, hi);
      if e.bucket == bucket {
      } else {
        assert Times(init, bucket) + [] == Times(init, bucket);
      }
    }
  }

  /** Leaving out the last admission leaves out the last entry of the deque, if it has one. */
  lemma TailInit(times: seq<real>, live: seq<real>, now: real)
    requires Tail(times, live, now) && times != []
    ensures var k := |times| - 1;
            if live == [] then Tail(times[..k], [], now) && times[k] <= now - WINDOW
            else Tail(times[..k], live[..|live| - 1], now) && times[k] == live[|live| - 1] <= now
  {
    var init := times[..|times| - 1];
    forall i, j ensures InOrderAt(init, i, j) {
      assert InOrderAt(times, i, j);
    }
    if live == [] {
      assert init[|init|..] == [];
    } else {
      var rest := live[..|live| - 1];
      assert live[|live| - 1] == times[|times| - 1];
      assert init[|init| - |rest|..] == times[|times| - |live|..][..|rest|];
    }
  }

  /** Once its expired head is gone, a deque holds exactly the admissions of the window. */
  lemma {:induction false} TailCounts(times: seq<real>, live: seq<real>, now: real)
    requires Tail(times, live, now)
    requires forall i :: 0 <= i < |live| ==> now - live[i] < WINDOW
    ensures CountIn(times, now - WINDOW, now) == |live|
  {
    hide Ascending;
    if times == [] {
    } else {
      TailInit(times, live, now);
      hide Tail;
      TailCounts(times[..|times| - 1], if live == [] then [] else live[..|live| - 1], now);
    }
  }

  // ---------------------------------------------------------------- counting over the table

  lemma {:induction false} SplitBucket(log: seq<Admission>, buckets: set<Bucket>, b: Bucket, lo: real, hi: real)
    requires b in buckets
    ensures AdmittedIn(log, buckets, lo, hi) == Admitted(log, b, lo, hi) + AdmittedIn(log, buckets - {b}, lo, hi)
  {
    if log != [] {
      SplitBucket(log[..|log| - 1], buckets, b, lo, hi);
    }
  }

  lemma {:induction false} NoBuckets(log: seq<Admission>, lo: real, hi: real)
    ensures AdmittedIn(log, {}, lo, hi) == 0
  {
    if log != [] {
      NoBuckets(log[..|log| - 1], lo, hi);
    }
  }

  lemma {:induction false} BucketsTimesLimit(log: seq<Admission>, buckets: set<Bucket>, limit: nat, lo: real, hi: real)
    requires forall b :: b in buckets ==> Admitted(log, b, lo, hi) <= limit
    ensures AdmittedIn(log, buckets, lo, hi) <= |buckets| * limit
  {
    if buckets == {} {
      NoBuckets(log, lo, hi);
    } else {
      var b :| b in buckets;
      SplitBucket(log, buckets, b, lo, hi);
      BucketsTimesLimit(log, buckets - {b}, limit, lo, hi);
      assert |buckets| == |buckets - {b}| + 1;
      assert |buckets| * limit == |buckets - {b}| * limit + limit;
    }
  }

  lemma {:induction false} AllInside(log: seq<Admission>, buckets: set<Bucket>, lo: real, hi: real)
    requires forall i :: 0 <= i < |log| && lo < log[i].at <= hi ==> log[i].bucket in buckets
    ensures AdmittedAll(log, lo, hi) == AdmittedIn(log, buckets, lo, hi)
  {
    if log != [] {
      AllInside(log[..|log| - 1], buckets, lo, hi);
    }
  }

  lemma {:induction false} TimesHold(log: seq<Admission>, i: nat)
    requires i < |log|
    ensures log[i].at in Times(log, log[i].bucket)
  {
    if i < |log| - 1 {
      TimesHold(log[..|log| - 1], i);
    }
  }

  /** Whatever was admitted within the window is still in the table. */
  lemma RecentAreInTable(table: map<Bucket, seq<real>>, log: seq<Admission>, now: real)
    requires Agrees(table, log, now)
    ensures forall i :: 0 <= i < |log| && now - WINDOW < log[i].at <= now ==> log[i].bucket in table.Keys
  {
    forall i | 0 <= i < |log| && now - WINDOW < log[i].at <= now ensures log[i].bucket in table.Keys {
      TimesHold(log, i);
      assert AgreesAt(table, log, now, log[i].bucket);
    }
  }

  /** All buckets together were admitted at most one full window each. */
  lemma TableBoundsWindow(
    table: map<Bucket, seq<real>>, log: seq<Admission>, e: Admission, limit: nat, buckets: nat)
    requires LawfulLog(log, limit, buckets) && Agrees(table, log + [e], e.at) && |table| <= buckets
    requires Admitted(log, e.bucket, e.at - WINDOW, e.at) < limit
    ensures AdmittedAll(log + [e], e.at - WINDOW, e.at) <= buckets * limit
  {
    var longer, lo := log + [e], e.at - WINDOW;
    forall b | b in table.Keys ensures Admitted(longer, b, lo, e.at) <= limit {
      BucketBound(log, limit, buckets, b, e.at);
    }
    BucketsTimesLimit(longer, table.Keys, limit, lo, e.at);
    RecentAreInTable(table, longer, e.at);
    AllInside(longer, table.Keys, lo, e.at);
    assert |table.Keys| == |table|;
    MoreBuckets(|table|, buckets, limit);
  }

  lemma MoreBuckets(k: nat, n: nat, limit: nat)
    requires k <= n
    ensures k * limit <= n * limit
  {
  }

  /** An admission below the limit keeps the log lawful. */
  lemma LawfulPush(table: map<Bucket, seq<real>>, log: seq<Admission>, e: Admission, limit: nat, buckets: nat)
    requires LawfulLog(log, limit, buckets) && UpTo(log, e.at)
    requires Admitted(log, e.bucket, e.at - WINDOW, e.at) < limit
    requires e.bucket == e.identity || e.bucket == Overflow
    requires Agrees(table, log + [e], e.at) && |table| <= buckets
    ensures LawfulLog(log + [e], limit, buckets)
  {
    var longer := log + [e];
    TableBoundsWindow(table, log, e, limit, buckets);
    forall i ensures Lawful(longer, limit, buckets, i) {
      assert Lawful(log, limit, buckets, i);
      if 0 <= i < |log| {
        assert longer[..i] == log[..i] && longer[..i + 1] == log[..i + 1];
      } else if i == |log| {
        assert longer[..i] == log && longer[..i + 1] == longer;
      }
    }
  }

  /** The last request of the deque is inside the window. */
  predicate Active(times: seq<real>, now: real) {
    times != [] && now - times[|times| - 1] < WINDOW
  }

  ghost predicate AllActive(table: map<Bucket, seq<real>>, now: real) {
    forall b :: b in table ==> Active(table[b], now)
  }

  ghost function ActiveKeys(table: map<Bucket, seq<real>>, now: real): set<Bucket> {
    set b | b in table && Active(table[b], now)
  }

  /** A new client finds no place left, even after the inactive identities went. */
  ghost predicate CrowdedOut(table: map<Bucket, seq<real>>, clientKey: Bucket, places: int, now: real) {
    clientKey !in table && |ActiveKeys(table, now)| >= places
  }

  lemma PrunedIsActive(table: map<Bucket, seq<real>>, log: seq<Admission>, key: Bucket, k: nat, now: real)
    requires Agrees(table, log, now) && k < |Live(table, key)|
    requires k > 0 ==> now - Live(table, key)[k - 1] >= WINDOW
    requires now - Live(table, key)[k] < WINDOW
    ensures Active(Live(table, key)[k..], now)
  {
    var live := Live(table, key);
    assert AgreesAt(table, log, now, key);
    TailDrops(Times(log, key), live, now, k);
    WindowIsLive(Times(log, key), live[k..], now);
  }

  lemma AllFresh(table: map<Bucket, seq<real>>, log: seq<Admission>, now: real)
    requires Agrees(table, log, now) && AllActive(table, now)
    ensures forall b :: b in table ==> Admitted(log, b, now - WINDOW, now) > 0
  {
    forall b | b in table ensures Admitted(log, b, now - WINDOW, now) > 0 {
      FreshCounts(table, log, b, now);
    }
  }

  /** Pruning one bucket leaves the others alone. */
  lemma AgreesPrune(table: map<Bucket, seq<real>>, log: seq<Admission>, key: Bucket, k: nat, now: real)
    requires Agrees(table, log, now) && k <= |Live(table, key)|
    requires k > 0 ==> now - Live(table, key)[k - 1] >= WINDOW
    ensures Agrees(table[key := Live(table, key)[k..]], log, now)
  {
    hide Tail, Times;
    var after := table[key := Live(table, key)[k..]];
    forall b ensures AgreesAt(after, log, now, b) {
      assert AgreesAt(table, log, now, b);
      if b == key {
        TailDrops(Times(log, key), Live(table, key), now, k);
      }
    }
  }

  /** Charging one bucket leaves the others alone. */
  lemma AgreesPush(table: map<Bucket, seq<real>>, log: seq<Admission>, e: Admission)
    requires Agrees(table, log, e.at)
    ensures Agrees(table[e.bucket := Live(table, e.bucket) + [e.at]], log + [e], e.at)
  {
    hide Tail;
    var after := table[e.bucket := Live(table, e.bucket) + [e.at]];
    assert (log + [e])[..|log|] == log;
    forall b ensures AgreesAt(after, log + [e], e.at, b) {
      assert AgreesAt(table, log, e.at, b);
      if b == e.bucket {
        TailGrows(Times(log, b), Live(table, b), e.at);
      } else {
        assert Times(log + [e], b) == Times(log, b);
      }
    }
  }

  lemma AgreesAges(table: map<Bucket, seq<real>>, log: seq<Admission>, last: real, now: real)
    requires Agrees(table, log, last) && last <= now
    ensures Agrees(table, log, now)
  {
    forall b ensures AgreesAt(table, log, now, b) {
      assert AgreesAt(table, log, last, b);
    }
  }

  /** The pruned deque has as many entries as the log has admissions in the window. */
  lemma PrunedCounts(table: map<Bucket, seq<real>>, log: seq<Admission>, key: Bucket, k: nat, now: real)
    requires Agrees(table, log, now) && k <= |Live(table, key)|
    requires k > 0 ==> now - Live(table, key)[k - 1] >= WINDOW
    requires k == |Live(table, key)| || now - Live(table, key)[k] < WINDOW
    ensures |Live(table, key)[k..]| == Admitted(log, key, now - WINDOW, now)
  {
    hide Tail, Times, CountIn, Admitted;
    var live := Live(table, key);
    assert AgreesAt(table, log, now, key);
    TailDrops(Times(log, key), live, now, k);
    WindowIsLive(Times(log, key), live[k..], now);
    TailCounts(Times(log, key), live[k..], now);
    AdmittedCountsTimes(log, key, now - WINDOW, now);
  }

  /** An entry that is not expired was admitted within the window. */
  lemma FreshCounts(table: map<Bucket, seq<real>>, log: seq<Admission>, b: Bucket, now: real)
    requires Agrees(table, log, now) && b in table && Active(table[b], now)
    ensures Admitted(log, b, now - WINDOW, now) > 0
  {
    assert AgreesAt(table, log, now, b);
    AdmittedCountsTimes(log, b, now - WINDOW, now);
  }

  // ---------------------------------------------------------------- the limiter

  /** One place of the table is kept for the shared bucket. */
  ghost predicate Bounded(table: map<Bucket, seq<real>>, bound: nat) {
    |table| <= if Overflow in table then bound else bound - 1
  }

  class RateLimiter {
    const limit: nat
    const maxIdentities: nat
    var requests: map<Bucket, seq<real>>
    ghost var log: seq<Admission>
    ghost var last: real

    /** The table agrees with the log, the log is lawful, and the table is bounded. */
    ghost predicate Valid()
      reads this
    {
      && limit > 0 && maxIdentities > 0
      && Agrees(requests, log, last)
      && LawfulLog(log, limit, maxIdentities)
      && UpTo(log, last)
      && Bounded(requests, maxIdentities)
    }

    constructor (limit: nat, maxIdentities: nat)
      requires limit > 0 && maxIdentities > 0
      ensures Valid() && log == [] && last == 0.0 && this.limit == limit && this.maxIdentities == maxIdentities
    {
      this.limit, this.maxIdentities := limit, maxIdentities;
      requests := map[];
      log, last := [], 0.0;
    }

    /** Deletes the identities whose last request left the window. */
    method Evict(now: real)
      requires Valid() && last <= now
      modifies this
      ensures Valid() && last == now && log == old(log)
      ensures requests.Keys <= old(requests.Keys)
      ensures forall b :: b in requests ==> requests[b] == old(requests)[b]
      ensures forall b :: b in old(requests) ==> (b in requests <==> Active(old(requests)[b], now))
      ensures requests.Keys == ActiveKeys(old(requests), now) && AllActive(requests, now)
    {
      var expired := set b | b in requests && (requests[b] == [] || now - requests[b][|requests[b]| - 1] >= WINDOW);
      ghost var before := requests;
      requests := requests - expired;
      AgreesAges(before, log, last, now);
      forall b ensures AgreesAt(requests, log, now, b) {
        assert AgreesAt(before, log, now, b);
        if b in expired {
          TailDrops(Times(log, b), before[b], now, |before[b]|);
          assert before[b][|before[b]|..] == [];
        }
      }
      last := now;
      FewerKeys(requests, before);
    }

    /** Picks the bucket to charge: the client's own, or the shared one when the table is full of
        identities that were active within the window. */
    method Route(clientKey: Bucket, now: real) returns (key: Bucket)
      requires Valid() && last <= now
      modifies this
      ensures Valid() && last == now && log == old(log)
      ensures key == if CrowdedOut(old(requests), clientKey, maxIdentities - 1, now) then Overflow else clientKey
      ensures clientKey in old(requests) || |old(requests)| < maxIdentities - 1 ==> requests == old(requests)
      ensures forall b :: b in requests ==> b in old(requests) && requests[b] == old(requests)[b]
      ensures key in requests || key == Overflow || |requests| < maxIdentities - 1
      ensures key != clientKey ==> clientKey !in requests && |requests| >= maxIdentities - 1 && AllActive(requests, now)
    {
      key := clientKey;
      FewerElements(ActiveKeys(requests, now), requests.Keys);
      assert |requests.Keys| == |requests|;
      if key !in requests && |requests| >= maxIdentities - 1 {
        Evict(now);
        assert |requests.Keys| == |requests|;
      } else {
        AgreesAges(requests, log, last, now);
        last := now;
      }
      if key !in requests && |requests| >= maxIdentities - 1 {
        key := Overflow;
      }
    }

    /** Prunes the deque of the bucket and either refuses the request or records it. */
    method Charge(identity: Bucket, key: Bucket, now: real) returns (limited: bool)
      requires Valid() && last == now && (key == identity || key == Overflow)
      requires key in requests || key == Overflow || |requests| < maxIdentities - 1
      modifies this
      ensures Valid() && last == now && key in requests
      ensures requests == old(requests)[key := requests[key]] && Active(requests[key], now)
      ensures limited <==> Admitted(old(log), key, now - WINDOW, now) >= limit
      ensures log == if limited then old(log) else old(log) + [Admission(identity, key, now)]
    {
      var window, k := Prune(Live(requests, key), now);
      PrunedCounts(requests, log, key, k, now);
      AgreesPrune(requests, log, key, k, now);
      requests := requests[key := window];
      limited := |window| >= limit;
      if !limited {
        Record(Admission(identity, key, now), key, now);
      } else {
        PrunedIsActive(old(requests), log, key, k, now);
      }
    }

    /** A request of `clientKey` at `now` is rejected iff the bucket it is charged to already has
        `limit` admissions in the last 60 seconds, counted in the full log. That bucket is the shared
        one iff the client is new and active identities leave it no place. */
    method RateLimited(clientKey: Bucket, now: real) returns (limited: bool, ghost bucket: Bucket)
      requires Valid() && last <= now && clientKey.Digest?
      modifies this
      ensures Valid() && last == now && |requests| <= maxIdentities
      ensures limited <==> Admitted(old(log), bucket, now - 60.0, now) >= limit
      ensures log == if limited then old(log) else old(log) + [Admission(clientKey, bucket, now)]
      ensures bucket == if CrowdedOut(old(requests), clientKey, maxIdentities - 1, now) then Overflow else clientKey
      ensures bucket in requests
      ensures forall b :: b in requests && b != bucket ==> b in old(requests) && requests[b] == old(requests)[b]
      ensures clientKey in old(requests) || |old(requests)| < maxIdentities - 1 ==>
                requests.Keys == old(requests).Keys + {clientKey}
      ensures bucket != clientKey ==>
                && clientKey !in requests && |requests| >= maxIdentities - 1
                && forall b :: b in requests ==> Admitted(log, b, now - WINDOW, now) > 0
    {
      hide CrowdedOut, Active, Admitted, Agrees, UpTo;
      var key := Route(clientKey, now);
      bucket := key;
      ghost var routed := requests;
      limited := Charge(clientKey, key, now);
      assert requests.Keys == routed.Keys + {key};
      if key != clientKey {
        AllFresh(requests, log, now);
      }
    }

    /** Appends an admission to the deque of its bucket, and to the log. */
    method Record(ghost e: Admission, key: Bucket, now: real)
      requires Valid() && e.at == now == last && e.bucket == key && key in requests
      requires key == e.identity || key == Overflow
      requires Admitted(log, key, now - WINDOW, now) < limit
      modifies this
      ensures Valid() && last == now
      ensures log == old(log) + [e]
      ensures requests == old(requests)[key := old(requests)[key] + [now]]
    {
      AgreesPush(requests, log, e);
      requests := requests[key := requests[key] + [now]];
      LawfulPush(requests, log, e, limit, maxIdentities);
      log := log + [e];
    }

    /** Pops the expired head of a deque. */
    static method Prune(whole: seq<real>, now: real) returns (window: seq<real>, ghost k: nat)
      ensures k <= |whole| && window == whole[k..]
      ensures k > 0 ==> now - whole[k - 1] >= WINDOW
      ensures k == |whole| || now - whole[k] < WINDOW
    {
      window, k := whole, 0;
      while window != [] && now - window[0] >= WINDOW
        invariant k <= |whole| && window == whole[k..]
        invariant k > 0 ==> now - whole[k - 1] >= WINDOW
      {
        window, k := window[1..], k + 1;
      }
    }
  }

  lemma {:induction false} FewerElements(a: set<Bucket>, b: set<Bucket>)
    requires a <= b
    ensures |a| <= |b| && (a != b ==> |a| < |b|)
  {
    if a != {} {
      var x :| x in a;
      FewerElements(a - {x}, b - {x});
    }
  }

  lemma FewerKeys(after: map<Bucket, seq<real>>, before: map<Bucket, seq<real>>)
    requires after.Keys <= before.Keys
    ensures |after| <= |before| && (Overflow in before && Overflow !in after ==> |after| < |before|)
  {
    FewerElements(after.Keys, before.Keys);
    assert |after.Keys| == |after| && |before.Keys| == |before|;
  }

  /** After the expired head is gone, the whole deque lies in the window. */
  lemma WindowIsLive(times: seq<real>, live: seq<real>, now: real)
    requires Tail(times, live, now) && (live == [] || now - live[0] < WINDOW)
    ensures forall i :: 0 <= i < |live| ==> now - live[i] < WINDOW
  {
    var d := |times| - |live|;
    forall i | 0 <= i < |live| ensures now - live[i] < WINDOW {
      assert live[0] == times[d] && live[i] == times[d + i];
      assert InOrderAt(times, d, d + i);
    }
  }
}
