/** Silence monitoring of the data streams (ops/delivery_counter.py): one rule, fed by a live counter or by a
    replay of the stored files. */
module Delivery {
  import opened Types
  import opened Sorting

  /** Seconds of silence allowed. */
  function Grace(k: Kind): int {
    120
  }

  function MinPerMinute(k: Kind): int {
    if k.KlineClose? then 0 else 1
  }

  function GraceMs(k: Kind): int {
    Grace(k) * 1000
  }

  function MinuteOf(ms: int): int {
    ms / MINUTE_MS
  }

  function PrevMinute(now: int): int {
    MinuteOf(now) - 1
  }

  /** A minute that began before the observation is no evidence. */
  predicate Covered(minute: int, start: int) {
    minute * MINUTE_MS >= start
  }

  /** The one rule. */
  predicate IsStalled(k: Kind, now: int, start: int, lastSeen: Option<int>, prevCount: Option<nat>) {
    match lastSeen
    case None => now - start > GraceMs(k)
    case Some(last) =>
      now - last > GraceMs(k) || (MinPerMinute(k) > 0 && prevCount.Some? && prevCount.value < MinPerMinute(k))
  }

  // ---------------------------------------------------------------- the live counter

  datatype Bucket = Bucket(minute: int, count: nat, prevMinute: int, prevCount: nat, lastSeen: Option<int>)

  const EMPTY := Bucket(-1, 0, -1, 0, None)

  function Later(last: Option<int>, ts: int): Option<int> {
    if last.Some? && last.value > ts then last else Some(ts)
  }

  function Observe1(b: Bucket, ts: int): Bucket {
    var m := MinuteOf(ts);
    if m < b.minute then
      b.(prevCount := if m == b.prevMinute then b.prevCount + 1 else b.prevCount, lastSeen := Later(b.lastSeen, ts))
    else if m > b.minute then Bucket(m, 1, b.minute, b.count, Later(b.lastSeen, ts))
    else b.(count := b.count + 1, lastSeen := Later(b.lastSeen, ts))
  }

  function Feed(evs: seq<int>): Bucket
    decreases |evs|
  {
    if evs == [] then EMPTY else Observe1(Feed(evs[..|evs| - 1]), evs[|evs| - 1])
  }

  function CountOf(b: Bucket, minute: int): nat {
    if b.minute == minute then b.count else if b.prevMinute == minute then b.prevCount else 0
  }

  function LivePrevCount(b: Bucket, now: int, start: int): Option<nat> {
    if Covered(PrevMinute(now), start) then Some(CountOf(b, PrevMinute(now))) else None
  }

  class DeliveryCounter {
    const streams: seq<Kind>
    const start: int
    var buckets: map<Kind, Bucket>

    predicate Valid()
      reads this
    {
      forall k :: k in streams ==> k in buckets
    }

    constructor (streams: seq<Kind>, start: int)
      ensures Valid() && this.streams == streams && this.start == start
      ensures forall k :: k in buckets <==> k in streams
      ensures forall k :: k in buckets ==> buckets[k] == EMPTY
    {
      this.streams, this.start := streams, start;
      buckets := map k | k in streams :: EMPTY;
    }

    /** An unknown stream is an error, never dropped silently. */
    method Observe(stream: Kind, ts: int) returns (known: bool)
      requires Valid()
      modifies this`buckets
      ensures Valid() && known == (stream in old(buckets)) && buckets.Keys == old(buckets).Keys
      ensures buckets == if known then old(buckets)[stream := Observe1(old(buckets)[stream], ts)] else old(buckets)
    {
      if stream !in buckets { return false; }
      var b := buckets[stream];
      var m := MinuteOf(ts);
      if m != b.minute {
        if m > b.minute {
          b := b.(prevMinute := b.minute, prevCount := b.count, minute := m, count := 0);
        } else {
          if m == b.prevMinute { b := b.(prevCount := b.prevCount + 1); }
          b := b.(lastSeen := Later(b.lastSeen, ts));
          buckets := buckets[stream := b];
          return true;
        }
      }
      b := b.(count := b.count + 1);
      b := b.(lastSeen := Later(b.lastSeen, ts));
      buckets := buckets[stream := b];
      known := true;
    }

    /** Each stream is judged on its own: one flowing stream does not excuse a silent one. */
    method Stalled(now: int) returns (out: seq<Kind>)
      requires Valid()
      ensures forall k :: k in out <==> k in streams && IsStalled(k, now, start, buckets[k].lastSeen, LivePrevCount(buckets[k], now, start))
    {
      out := [];
      for i := 0 to |streams|
        invariant forall k :: k in out <==>
          k in streams[..i] && IsStalled(k, now, start, buckets[k].lastSeen, LivePrevCount(buckets[k], now, start))
      {
        var s := streams[i];
        var b := buckets[s];
        assert streams[..i + 1] == streams[..i] + [s];
        if IsStalled(s, now, start, b.lastSeen, LivePrevCount(b, now, start)) { out := out + [s]; }
      }
      assert streams[..|streams|] == streams;
    }
  }

  // ---------------------------------------------------------------- what the counter knows

  function CountIn(evs: seq<int>, minute: int): nat {
    if evs == [] then 0 else (if MinuteOf(evs[0]) == minute then 1 else 0) + CountIn(evs[1..], minute)
  }

  lemma {:induction false} CountAppend(xs: seq<int>, ys: seq<int>, minute: int)
    ensures CountIn(xs + ys, minute) == CountIn(xs, minute) + CountIn(ys, minute)
  {
    if xs == [] {
      assert xs + ys == ys;
    } else {
      assert (xs + ys)[1..] == xs[1..] + ys;
      CountAppend(xs[1..], ys, minute);
    }
  }

  lemma CountLast(evs: seq<int>, minute: int)
    requires evs != []
    ensures CountIn(evs, minute) == CountIn(evs[..|evs| - 1], minute) + (if MinuteOf(evs[|evs| - 1]) == minute then 1 else 0)
  {
    var n := |evs| - 1;
    assert evs == evs[..n] + [evs[n]];
    CountAppend(evs[..n], [evs[n]], minute);
    assert [evs[n]][1..] == [];
  }

  lemma {:induction false} CountNone(evs: seq<int>, minute: int)
    requires forall i :: 0 <= i < |evs| ==> MinuteOf(evs[i]) != minute
    ensures CountIn(evs, minute) == 0
  {
    if evs != [] { CountNone(evs[1..], minute); }
  }

  predicate IsLatest(evs: seq<int>, last: Option<int>) {
    if evs == [] then last.None?
    else last.Some? && last.value in evs && forall i :: 0 <= i < |evs| ==> evs[i] <= last.value
  }

  predicate Natural(evs: seq<int>) {
    forall i :: 0 <= i < |evs| ==> evs[i] >= 0
  }

  /** Event minutes do not go back. */
  predicate MinutesAscend(evs: seq<int>) {
    Natural(evs) && forall i, j :: 0 <= i < j < |evs| ==> MinuteOf(evs[i]) <= MinuteOf(evs[j])
  }

  /** On arrival the minute of the event is neither of the two the counter keeps, nor a new one. */
  predicate Missed(b: Bucket, ts: int) {
    MinuteOf(ts) < b.minute && MinuteOf(ts) != b.prevMinute
  }

  /** No event of that minute was missed. */
  predicate NoneMissed(evs: seq<int>, minute: int) {
    forall n :: 0 <= n < |evs| && MinuteOf(evs[n]) == minute ==> !Missed(Feed(evs[..n]), evs[n])
  }

  predicate AllMissed(evs: seq<int>, minute: int) {
    forall n :: 0 <= n < |evs| && MinuteOf(evs[n]) == minute ==> Missed(Feed(evs[..n]), evs[n])
  }

  lemma OneMore(evs: seq<int>, ts: int, minute: int)
    ensures NoneMissed(evs + [ts], minute) <==> NoneMissed(evs, minute) && (MinuteOf(ts) == minute ==> !Missed(Feed(evs), ts))
    ensures AllMissed(evs + [ts], minute) <==> AllMissed(evs, minute) && (MinuteOf(ts) == minute ==> Missed(Feed(evs), ts))
  {
    hide Feed, Missed, MinuteOf;
    var all := evs + [ts];
    assert all[..|evs|] == evs;
    assert forall n :: 0 <= n < |evs| ==> all[..n] == evs[..n] && all[n] == evs[n];
    assert all[|evs|] == ts;
  }

  /** The two minutes the counter keeps have lost nothing; of a minute between them every event was missed. */
  predicate Knows(evs: seq<int>, b: Bucket, minute: int) {
    && (minute == b.minute || minute == b.prevMinute ==> CountOf(b, minute) == CountIn(evs, minute) && NoneMissed(evs, minute))
    && (b.prevMinute < minute < b.minute ==> AllMissed(evs, minute))
    && (minute > b.minute ==> CountIn(evs, minute) == 0 && NoneMissed(evs, minute) && AllMissed(evs, minute))
  }

  lemma {:induction false} FeedKnows(evs: seq<int>, minute: int)
    requires Natural(evs)
    ensures Knows(evs, Feed(evs), minute) && IsLatest(evs, Feed(evs).lastSeen)
    ensures if evs == [] then Feed(evs) == EMPTY else Feed(evs).prevMinute < Feed(evs).minute
    decreases |evs|
  {
    hide Knows, Later, IsLatest, MinuteOf;
    if evs == [] {
      EmptyKnows(minute);
    } else {
      var n := |evs| - 1;
      var before := Feed(evs[..n]);
      FeedKnows(evs[..n], minute);
      assert evs == evs[..n] + [evs[n]];
      LatestMore(evs[..n], before.lastSeen, evs[n]);
      MinuteIsNatural(evs[n]);
      KnowsMore(evs[..n], evs[n], minute);
    }
  }

  lemma EmptyKnows(minute: int)
    ensures Knows([], EMPTY, minute) && IsLatest([], None)
  {}

  lemma MinuteIsNatural(ts: int)
    requires ts >= 0
    ensures MinuteOf(ts) >= 0
  {}

  lemma KnowsMore(evs: seq<int>, ts: int, minute: int)
    requires Knows(evs, Feed(evs), minute) && MinuteOf(ts) >= 0
    requires if evs == [] then Feed(evs) == EMPTY else Feed(evs).prevMinute < Feed(evs).minute
    ensures Knows(evs + [ts], Feed(evs + [ts]), minute) && Feed(evs + [ts]).prevMinute < Feed(evs + [ts]).minute
  {
    hide MinuteOf, Later, NoneMissed, AllMissed, CountIn, Feed;
    FeedOne(evs, ts);
    CountOne(evs, ts, minute);
    OneMore(evs, ts, minute);
  }

  lemma FeedOne(evs: seq<int>, ts: int)
    ensures Feed(evs + [ts]) == Observe1(Feed(evs), ts)
  {
    var all := evs + [ts];
    assert all[..|all| - 1] == evs;
  }

  lemma CountOne(evs: seq<int>, ts: int, minute: int)
    ensures CountIn(evs + [ts], minute) == CountIn(evs, minute) + (if MinuteOf(ts) == minute then 1 else 0)
  {
    var all := evs + [ts];
    assert all[..|all| - 1] == evs;
    CountLast(all, minute);
  }

  lemma LatestMore(evs: seq<int>, last: Option<int>, ts: int)
    requires IsLatest(evs, last)
    ensures IsLatest(evs + [ts], Later(last, ts))
  {
    var all := evs + [ts];
    assert all[|evs|] == ts;
    if last.Some? && last.value > ts { assert last.value in all; }
  }

  /** In whatever order events arrive, none of them from the future: the counter's answer for the previous minute is
      the true count if and only if no event of that minute was missed on arrival. If one was, all were, and the
      answer is nought. */
  lemma LiveCountIff(evs: seq<int>, now: int)
    requires Natural(evs) && forall i :: 0 <= i < |evs| ==> MinuteOf(evs[i]) <= MinuteOf(now)
    ensures var live, minute := CountOf(Feed(evs), PrevMinute(now)), PrevMinute(now);
      && (live == CountIn(evs, minute) <==> NoneMissed(evs, minute))
      && (!NoneMissed(evs, minute) ==> live == 0 && AllMissed(evs, minute) && CountIn(evs, minute) > 0)
  {
    hide MinuteOf, Feed, NoneMissed, AllMissed, CountIn, IsLatest;
    var minute := PrevMinute(now);
    FeedKnows(evs, minute);
    LatestMinute(evs, now);
    if n :| 0 <= n < |evs| && MinuteOf(evs[n]) == minute {
      CountSome(evs, n);
      NotBoth(evs, n, minute);
      MinuteIsNatural(evs[n]);
    } else {
      NoneOccurs(evs, minute);
      CountNone(evs, minute);
    }
  }

  lemma NotBoth(evs: seq<int>, n: nat, minute: int)
    requires n < |evs| && MinuteOf(evs[n]) == minute
    ensures !(NoneMissed(evs, minute) && AllMissed(evs, minute))
  {
    assert Missed(Feed(evs[..n]), evs[n]) || !Missed(Feed(evs[..n]), evs[n]);
  }

  lemma NoneOccurs(evs: seq<int>, minute: int)
    requires forall i :: 0 <= i < |evs| ==> MinuteOf(evs[i]) != minute
    ensures NoneMissed(evs, minute) && AllMissed(evs, minute)
  {}

  lemma {:induction false} LatestMinute(evs: seq<int>, now: int)
    requires evs == [] || forall i :: 0 <= i < |evs| ==> MinuteOf(evs[i]) <= MinuteOf(now)
    ensures evs != [] ==> Feed(evs).minute <= MinuteOf(now) || Feed(evs).minute == -1
    decreases |evs|
  {
    hide MinuteOf, Later;
    if evs != [] { LatestMinute(evs[..|evs| - 1], now); }
  }

  lemma {:induction false} CountSome(evs: seq<int>, n: nat)
    requires n < |evs|
    ensures CountIn(evs, MinuteOf(evs[n])) > 0
  {
    if n > 0 { CountSome(evs[1..], n - 1); }
  }

  /** Minutes that do not go back lose nothing. */
  lemma AscendingMissesNone(evs: seq<int>, minute: int)
    requires MinutesAscend(evs)
    ensures NoneMissed(evs, minute)
  {
    forall n | 0 <= n < |evs| ensures !Missed(Feed(evs[..n]), evs[n]) {
      LatestMinute(evs[..n], evs[n]);
      MinuteIsNatural(evs[n]);
      hide MinuteOf;
      assert n == 0 ==> Feed(evs[..n]) == EMPTY;
    }
  }

  // ---------------------------------------------------------------- the replay of the files

  datatype Scan = Scan(lo: int, hi: int, rows: nat, first: Option<int>, last: Option<int>, maxGap: int, overGrace: nat, minuteCount: nat)

  function Filter(xs: seq<int>, lo: int, hi: int): seq<int> {
    if xs == [] then [] else (if lo <= xs[0] < hi then [xs[0]] else []) + Filter(xs[1..], lo, hi)
  }

  /** Rows of one file inside the window, sorted. */
  function FileRows(file: seq<int>, lo: int, hi: int): seq<int> {
    Sort(Filter(file, lo, hi), AtMost)
  }

  /** Differences of neighbours. */
  function Diffs(xs: seq<int>): (ds: seq<int>)
    ensures |ds| == if xs == [] then 0 else |xs| - 1
    ensures forall i :: 0 <= i < |ds| ==> ds[i] == xs[i + 1] - xs[i]
  {
    if xs == [] then [] else seq(|xs| - 1, i requires 0 <= i < |xs| - 1 => xs[i + 1] - xs[i])
  }

  function MaxOf(xs: seq<int>, least: int): int {
    if xs == [] then least else var m := MaxOf(xs[..|xs| - 1], least); if xs[|xs| - 1] > m then xs[|xs| - 1] else m
  }

  function CountOver(xs: seq<int>, g: int): nat {
    if xs == [] then 0 else CountOver(xs[..|xs| - 1], g) + (if xs[|xs| - 1] > g then 1 else 0)
  }

  function ScanFile(s: Scan, rows: seq<int>, g: int, minute: int): Scan {
    if rows == [] then s
    else
      var low, high := rows[0], rows[|rows| - 1];
      var between := if s.last.None? then [] else [low - s.last.value];
      Scan(s.lo, s.hi, s.rows + |rows|,
           if s.first.Some? && s.first.value < low then s.first else Some(low),
           if s.last.Some? && s.last.value > high then s.last else Some(high),
           MaxOf(Diffs(rows), MaxOf(between, s.maxGap)),
           s.overGrace + CountOver(between, g) + CountOver(Diffs(rows), g),
           s.minuteCount + CountIn(rows, minute))
  }

  function ScanFiles(files: seq<seq<int>>, lo: int, hi: int, g: int, minute: int): Scan
    decreases |files|
  {
    if files == [] then Scan(lo, hi, 0, None, None, 0, 0, 0)
    else
      var n := |files| - 1;
      ScanFile(ScanFiles(files[..n], lo, hi, g, minute), FileRows(files[n], lo, hi), g, minute)
  }

  function Concat(files: seq<seq<int>>): seq<int>
    decreases |files|
  {
    if files == [] then [] else Concat(files[..|files| - 1]) + files[|files| - 1]
  }

  lemma {:induction false} CountInsert(x: int, xs: seq<int>, minute: int)
    ensures CountIn(Insert(x, xs, AtMost), minute) == CountIn(xs, minute) + (if MinuteOf(x) == minute then 1 else 0)
  {
    if xs == [] || AtMost(x, xs[0]) {
      assert ([x] + xs)[1..] == xs;
    } else {
      CountInsert(x, xs[1..], minute);
      assert ([xs[0]] + Insert(x, xs[1..], AtMost))[1..] == Insert(x, xs[1..], AtMost);
    }
  }

  lemma {:induction false} CountSort(xs: seq<int>, minute: int)
    ensures CountIn(Sort(xs, AtMost), minute) == CountIn(xs, minute)
  {
    if xs != [] {
      CountSort(xs[1..], minute);
      CountInsert(xs[0], Sort(xs[1..], AtMost), minute);
    }
  }

  lemma {:induction false} FilterAll(xs: seq<int>, lo: int, hi: int)
    requires forall i :: 0 <= i < |xs| ==> lo <= xs[i] < hi
    ensures Filter(xs, lo, hi) == xs
  {
    if xs != [] { FilterAll(xs[1..], lo, hi); }
  }

  lemma SortedEnds(xs: seq<int>)
    ensures |Sort(xs, AtMost)| == |xs|
    ensures xs != [] ==> Sort(xs, AtMost)[|xs| - 1] in xs && forall x :: x in xs ==> x <= Sort(xs, AtMost)[|xs| - 1]
  {
    AtMostIsTotal();
    SortSorts(xs, AtMost);
    var ys := Sort(xs, AtMost);
    if xs != [] {
      assert ys[|xs| - 1] in multiset(ys);
      forall x | x in xs ensures x <= ys[|xs| - 1] {
        assert x in multiset(ys);
        var k :| 0 <= k < |ys| && ys[k] == x;
        assert k < |xs| - 1 ==> AtMost(ys[k], ys[|xs| - 1]);
      }
    }
  }

  predicate Within(file: seq<int>, lo: int, hi: int) {
    forall i :: 0 <= i < |file| ==> lo <= file[i] < hi
  }

  predicate AllWithin(files: seq<seq<int>>, lo: int, hi: int) {
    forall i :: 0 <= i < |files| ==> Within(files[i], lo, hi)
  }

  /** Over a whole history the scan finds the latest event and counts the minute. */
  lemma {:induction false} ScanIsTrue(files: seq<seq<int>>, lo: int, hi: int, g: int, minute: int)
    requires AllWithin(files, lo, hi)
    ensures var s := ScanFiles(files, lo, hi, g, minute);
      s.minuteCount == CountIn(Concat(files), minute) && IsLatest(Concat(files), s.last)
    decreases |files|
  {
    hide Within, IsLatest, Sort, MaxOf, CountOver, Diffs;
    if files == [] {
      NothingIsLatest();
    } else {
      var n := |files| - 1;
      var before, f := ScanFiles(files[..n], lo, hi, g, minute), files[n];
      ScanIsTrue(files[..n], lo, hi, g, minute);
      WithinAll(f, lo, hi);
      CountSort(f, minute);
      CountAppend(Concat(files[..n]), f, minute);
      SortedEnds(f);
      LatestFile(Concat(files[..n]), before.last, f, Sort(f, AtMost));
      if f == [] { assert Concat(files) == Concat(files[..n]); }
    }
  }

  lemma NothingIsLatest()
    ensures IsLatest([], None)
  {}

  lemma WithinAll(f: seq<int>, lo: int, hi: int)
    requires Within(f, lo, hi)
    ensures Filter(f, lo, hi) == f
  {
    FilterAll(f, lo, hi);
  }

  lemma LatestFile(evs: seq<int>, last: Option<int>, f: seq<int>, sorted: seq<int>)
    requires IsLatest(evs, last) && |sorted| == |f|
    requires f != [] ==> sorted[|f| - 1] in f && forall x :: x in f ==> x <= sorted[|f| - 1]
    ensures IsLatest(evs + f, if f == [] then last
                              else if last.Some? && last.value > sorted[|f| - 1] then last else Some(sorted[|f| - 1]))
  {
    var all := evs + f;
    if f == [] {
      assert all == evs;
    } else {
      var high := sorted[|f| - 1];
      forall i | 0 <= i < |all| ensures all[i] <= high || (last.Some? && all[i] <= last.value) {
        if i >= |evs| { assert all[i] == f[i - |evs|] && all[i] in f; } else { assert all[i] == evs[i]; }
      }
      var k :| 0 <= k < |f| && f[k] == high;
      assert all[|evs| + k] == f[k];
      if last.Some? { assert last.value in all; }
    }
  }

  lemma LatestIsUnique(evs: seq<int>, a: Option<int>, b: Option<int>)
    requires IsLatest(evs, a) && IsLatest(evs, b)
    ensures a == b
  {}

  lemma Removed(xs: seq<int>, i: nat)
    requires i < |xs|
    ensures multiset(xs) == multiset(xs[..i] + xs[i + 1..]) + multiset{xs[i]}
  {
    assert xs == xs[..i] + [xs[i]] + xs[i + 1..];
  }

  lemma CountRemoved(xs: seq<int>, i: nat, minute: int)
    requires i < |xs|
    ensures CountIn(xs, minute) == CountIn(xs[..i] + xs[i + 1..], minute) + (if MinuteOf(xs[i]) == minute then 1 else 0)
  {
    hide MinuteOf;
    assert xs == xs[..i] + [xs[i]] + xs[i + 1..];
    CountAppend(xs[..i], xs[i + 1..], minute);
    CountAppend(xs[..i] + [xs[i]], xs[i + 1..], minute);
    CountOne(xs[..i], xs[i], minute);
  }

  lemma {:induction false} CountPermuted(xs: seq<int>, ys: seq<int>, minute: int)
    requires multiset(xs) == multiset(ys)
    ensures CountIn(xs, minute) == CountIn(ys, minute)
    decreases |xs|
  {
    hide *;
    if xs == [] {
      assert |multiset(ys)| == |ys|;
    } else {
      assert xs[0] in multiset(ys);
      var i :| 0 <= i < |ys| && ys[i] == xs[0];
      Removed(ys, i);
      Removed(xs, 0);
      var a, b := xs[..0] + xs[1..], ys[..i] + ys[i + 1..];
      assert multiset(a) == multiset(xs) - multiset{xs[0]} && multiset(b) == multiset(ys) - multiset{xs[0]};
      CountPermuted(a, b, minute);
      CountRemoved(xs, 0, minute);
      CountRemoved(ys, i, minute);
    }
  }

  lemma LatestPermuted(xs: seq<int>, ys: seq<int>, last: Option<int>)
    requires multiset(xs) == multiset(ys) && IsLatest(ys, last)
    ensures IsLatest(xs, last)
  {
    assert |multiset(xs)| == |xs| && |multiset(ys)| == |ys|;
    forall x ensures x in xs <==> x in ys { assert x in xs <==> x in multiset(xs); }
    forall i | 0 <= i < |xs| && last.Some? ensures xs[i] <= last.value {
      assert xs[i] in xs;
      var j :| 0 <= j < |ys| && ys[j] == xs[i];
    }
  }

  /** Main theorem. The live counter sees events in the order they arrive, the files hold the same events. For any
      order, and any moment before whose minute no event lies in the future, the two verdicts are the same if and
      only if no event of the judged minute was missed on arrival, or that minute does not count: it was not
      observed whole, the stream has no minimum, or it is silent for too long anyway. */
  lemma LiveEqualsReplayIff(k: Kind, evs: seq<int>, files: seq<seq<int>>, lo: int, hi: int, now: int, start: int)
    requires Natural(evs) && forall i :: 0 <= i < |evs| ==> MinuteOf(evs[i]) <= MinuteOf(now)
    requires multiset(evs) == multiset(Concat(files)) && AllWithin(files, lo, hi)
    ensures var s, minute := ScanFiles(files, lo, hi, GraceMs(k), PrevMinute(now)), PrevMinute(now);
      var live := IsStalled(k, now, start, Feed(evs).lastSeen, LivePrevCount(Feed(evs), now, start));
      var replay := IsStalled(k, now, start, s.last, if Covered(minute, start) then Some(s.minuteCount) else None);
      && s.last == Feed(evs).lastSeen
      && ((live <==> replay)
          <==> NoneMissed(evs, minute) || !Covered(minute, start) || MinPerMinute(k) == 0 || now - s.last.value > GraceMs(k))
  {
    hide Feed, ScanFiles, CountIn, NoneMissed, AllMissed, MinuteOf, IsLatest, Concat, AllWithin, Natural, CountOf;
    var minute := PrevMinute(now);
    ScanIsTrue(files, lo, hi, GraceMs(k), minute);
    LiveCountIff(evs, now);
    FeedKnows(evs, 0);
    CountPermuted(evs, Concat(files), minute);
    LatestPermuted(evs, Concat(files), ScanFiles(files, lo, hi, GraceMs(k), minute).last);
    LatestIsUnique(evs, Feed(evs).lastSeen, ScanFiles(files, lo, hi, GraceMs(k), minute).last);
    NothingMissedOfNothing(evs, minute);
  }

  lemma NothingMissedOfNothing(evs: seq<int>, minute: int)
    ensures evs == [] ==> NoneMissed(evs, minute)
    ensures forall last :: IsLatest(evs, last) && last.None? ==> evs == []
  {}

  /** A stream that has sent nothing, or whose events are all older than the two minutes allowed. */
  predicate Silent(evs: seq<int>, now: int, start: int) {
    if evs == [] then now - start > 120 * 1000 else forall i :: 0 <= i < |evs| ==> now - evs[i] > 120 * 1000
  }

  lemma SilentIff(evs: seq<int>, last: Option<int>, now: int, start: int)
    requires IsLatest(evs, last)
    ensures Silent(evs, now, start) <==> now - (if evs == [] then start else last.value) > 120 * 1000
  {
    if evs != [] {
      var i :| 0 <= i < |evs| && evs[i] == last.value;
    }
  }

  /** The minute before was observed whole, and the stream, which owes an event a minute, was not seen to send one. */
  predicate Lacking(k: Kind, evs: seq<int>, now: int, start: int) {
    !k.KlineClose? && evs != [] && PrevMinute(now) * MINUTE_MS >= start && AllMissed(evs, PrevMinute(now))
  }

  /** Main theorem on the live verdict, for any order of arrival: a stream is stalled exactly if it is silent, or has sent
      something before but nothing the counter took for the minute before. */
  lemma LiveStalledIff(k: Kind, evs: seq<int>, now: int, start: int)
    requires Natural(evs) && forall i :: 0 <= i < |evs| ==> MinuteOf(evs[i]) <= MinuteOf(now)
    ensures IsStalled(k, now, start, Feed(evs).lastSeen, LivePrevCount(Feed(evs), now, start))
            <==> Silent(evs, now, start) || Lacking(k, evs, now, start)
  {
    hide Feed, CountIn, NoneMissed, AllMissed, MinuteOf, Natural, CountOf, Silent;
    LiveCountIff(evs, now);
    FeedKnows(evs, 0);
    SilentIff(evs, Feed(evs).lastSeen, now, start);
    CountsMissed(evs, PrevMinute(now));
  }

  /** If none was missed, all were exactly if there was none. */
  lemma CountsMissed(evs: seq<int>, minute: int)
    ensures NoneMissed(evs, minute) ==> (AllMissed(evs, minute) <==> CountIn(evs, minute) == 0)
  {
    hide MinuteOf;
    if n :| 0 <= n < |evs| && MinuteOf(evs[n]) == minute {
      CountSome(evs, n);
      if NoneMissed(evs, minute) { NotBoth(evs, n, minute); }
    } else {
      CountNone(evs, minute);
      NoneOccurs(evs, minute);
    }
  }

  /** An event minute that goes back past the two kept is not counted live: the verdicts differ. */
  lemma LateEventsDiffer()
    ensures var evs := [5 * MINUTE_MS, 7 * MINUTE_MS, 6 * MINUTE_MS]; var now := 7 * MINUTE_MS + 1;
      IsStalled(MarkPrice, now, 0, Feed(evs).lastSeen, LivePrevCount(Feed(evs), now, 0))
      && !IsStalled(MarkPrice, now, 0, Feed(evs).lastSeen, Some(CountIn(evs, PrevMinute(now))))
  {
    var evs := [5 * MINUTE_MS, 7 * MINUTE_MS, 6 * MINUTE_MS];
    assert evs[..2] == [5 * MINUTE_MS, 7 * MINUTE_MS] && evs[..2][..1] == [5 * MINUTE_MS] && evs[..2][..1][..0] == [];
    assert Feed(evs[..2][..1]) == Bucket(5, 1, -1, 0, Some(5 * MINUTE_MS));
    assert Feed(evs[..2]) == Bucket(7, 1, 5, 1, Some(7 * MINUTE_MS));
    assert Feed(evs) == Bucket(7, 1, 5, 1, Some(7 * MINUTE_MS));
    CountLast(evs, 6);
  }

  // ---------------------------------------------------------------- the longest silence

  /** Largest silence of one scan, the two window edges included. */
  function LongestOf(s: Scan): int {
    if s.rows == 0 || s.first.None? || s.last.None? then s.hi - s.lo
    else MaxOf([s.first.value - s.lo, s.hi - s.last.value], s.maxGap)
  }

  function BeyondOf(s: Scan, g: int): nat {
    if s.rows == 0 || s.first.None? || s.last.None? then CountOver([s.hi - s.lo], g)
    else CountOver([s.first.value - s.lo, s.hi - s.last.value], g) + s.overGrace
  }

  function Longest(scans: seq<Scan>): int {
    if scans == [] then 0 else MaxOf([LongestOf(scans[|scans| - 1])], Longest(scans[..|scans| - 1]))
  }

  function Beyond(scans: seq<Scan>, g: int): nat {
    if scans == [] then 0 else Beyond(scans[..|scans| - 1], g) + BeyondOf(scans[|scans| - 1], g)
  }

  method SilenceSummary(scans: seq<Scan>, g: int) returns (maxSilence: int, beyond: nat)
    ensures maxSilence == Longest(scans) && beyond == Beyond(scans, g)
  {
    maxSilence, beyond := 0, 0;
    for i := 0 to |scans|
      invariant maxSilence == Longest(scans[..i]) && beyond == Beyond(scans[..i], g)
    {
      var s := scans[i];
      assert scans[..i + 1][..i] == scans[..i];
      if s.rows == 0 || s.first.None? || s.last.None? {
        var silence := s.hi - s.lo;
        WholeWindow(silence, maxSilence, g);
        if silence > maxSilence { maxSilence := silence; }
        if silence > g { beyond := beyond + 1; }
      } else {
        var head, tail := s.first.value - s.lo, s.hi - s.last.value;
        Edges(head, tail, s.maxGap, maxSilence, g);
        if head > maxSilence { maxSilence := head; }
        if head > g { beyond := beyond + 1; }
        if tail > maxSilence { maxSilence := tail; }
        if tail > g { beyond := beyond + 1; }
        if s.maxGap > maxSilence { maxSilence := s.maxGap; }
        beyond := beyond + s.overGrace;
      }
    }
    assert scans[..|scans|] == scans;
  }

  lemma WholeWindow(x: int, before: int, g: int)
    ensures MaxOf([x], before) == if x > before then x else before
    ensures CountOver([x], g) == if x > g then 1 else 0
  {
    assert [x][..0] == [];
  }

  lemma Edges(a: int, b: int, gap: int, before: int, g: int)
    ensures var m := MaxOf([a, b], gap);
      m == (if a > gap && a >= b then a else if b > gap then b else gap)
    ensures forall x :: MaxOf([x], before) == if x > before then x else before
    ensures CountOver([a, b], g) == (if a > g then 1 else 0) + (if b > g then 1 else 0)
  {
    assert [a, b] == [a] + [b];
    MaxAppend([a], [b], gap);
    OverAppend([a], [b], g);
    WholeWindow(a, gap, g);
    WholeWindow(b, MaxOf([a], gap), g);
    forall x ensures MaxOf([x], before) == if x > before then x else before { WholeWindow(x, before, g); }
  }

  /** All rows of the files inside the window, file by file. */
  function Rows(files: seq<seq<int>>, lo: int, hi: int): seq<int>
    decreases |files|
  {
    if files == [] then [] else Rows(files[..|files| - 1], lo, hi) + FileRows(files[|files| - 1], lo, hi)
  }

  predicate Rising(xs: seq<int>) {
    forall i, j :: 0 <= i < j < |xs| ==> xs[i] <= xs[j]
  }

  lemma DiffsAppend(xs: seq<int>, ys: seq<int>)
    requires xs != [] && ys != []
    ensures Diffs(xs + ys) == Diffs(xs) + [ys[0] - xs[|xs| - 1]] + Diffs(ys)
  {
    hide Diffs;
    var all, step := xs + ys, [ys[0] - xs[|xs| - 1]];
    var parts := Diffs(xs) + step + Diffs(ys);
    forall i | 0 <= i < |all| - 1 ensures Diffs(all)[i] == parts[i] {
      if i < |xs| - 1 {
        assert all[i] == xs[i] && all[i + 1] == xs[i + 1] && parts[i] == Diffs(xs)[i];
      } else if i >= |xs| {
        assert all[i] == ys[i - |xs|] && all[i + 1] == ys[i + 1 - |xs|] && parts[i] == Diffs(ys)[i - |xs|];
      } else {
        assert all[i] == xs[i] && all[i + 1] == ys[0] && parts[i] == step[0];
      }
    }
  }

  lemma {:induction false} MaxAppend(xs: seq<int>, ys: seq<int>, least: int)
    ensures MaxOf(xs + ys, least) == MaxOf(ys, MaxOf(xs, least))
    decreases |ys|
  {
    if ys == [] {
      assert xs + ys == xs;
    } else {
      assert (xs + ys)[..|xs + ys| - 1] == xs + ys[..|ys| - 1];
      MaxAppend(xs, ys[..|ys| - 1], least);
    }
  }

  lemma {:induction false} OverAppend(xs: seq<int>, ys: seq<int>, g: int)
    ensures CountOver(xs + ys, g) == CountOver(xs, g) + CountOver(ys, g)
    decreases |ys|
  {
    if ys == [] {
      assert xs + ys == xs;
    } else {
      assert (xs + ys)[..|xs + ys| - 1] == xs + ys[..|ys| - 1];
      OverAppend(xs, ys[..|ys| - 1], g);
    }
  }

  lemma {:induction false} MaxBounds(xs: seq<int>, least: int)
    ensures MaxOf(xs, least) >= least && forall i :: 0 <= i < |xs| ==> xs[i] <= MaxOf(xs, least)
    ensures MaxOf(xs, least) == least || MaxOf(xs, least) in xs
  {
    if xs != [] { MaxBounds(xs[..|xs| - 1], least); }
  }

  predicate Describes(s: Scan, rows: seq<int>, g: int) {
    && s.rows == |rows| && s.maxGap == MaxOf(Diffs(rows), 0) && s.overGrace == CountOver(Diffs(rows), g)
    && (if rows == [] then s.first.None? && s.last.None? else s.first == Some(rows[0]) && s.last == Some(rows[|rows| - 1]))
  }

  lemma ThreeParts(xs: seq<int>, ys: seq<int>, zs: seq<int>, least: int, g: int)
    ensures MaxOf(xs + ys + zs, least) == MaxOf(zs, MaxOf(ys, MaxOf(xs, least)))
    ensures CountOver(xs + ys + zs, g) == CountOver(xs, g) + CountOver(ys, g) + CountOver(zs, g)
  {
    MaxAppend(xs + ys, zs, least);
    MaxAppend(xs, ys, least);
    OverAppend(xs + ys, zs, g);
    OverAppend(xs, ys, g);
  }

  /** Gaps of two stretches joined: those of each, and the one between. */
  lemma JoinedGaps(before: seq<int>, rows: seq<int>, g: int)
    requires before != [] && rows != []
    ensures var between := [rows[0] - before[|before| - 1]];
      && MaxOf(Diffs(before + rows), 0) == MaxOf(Diffs(rows), MaxOf(between, MaxOf(Diffs(before), 0)))
      && CountOver(Diffs(before + rows), g) == CountOver(Diffs(before), g) + CountOver(between, g) + CountOver(Diffs(rows), g)
  {
    hide *;
    DiffsAppend(before, rows);
    ThreeParts(Diffs(before), [rows[0] - before[|before| - 1]], Diffs(rows), 0, g);
  }

  lemma FileDescribes(s: Scan, before: seq<int>, rows: seq<int>, g: int, minute: int)
    requires Describes(s, before, g) && Rising(before + rows)
    ensures Describes(ScanFile(s, rows, g, minute), before + rows, g)
  {
    if rows == [] {
      assert before + rows == before;
    } else if before == [] {
      assert before + rows == rows;
      FirstFile(s, rows, g, minute);
    } else {
      NextFile(s, before, rows, g, minute);
    }
  }

  lemma FirstFile(s: Scan, rows: seq<int>, g: int, minute: int)
    requires Describes(s, [], g) && rows != []
    ensures Describes(ScanFile(s, rows, g, minute), rows, g)
  {
    NoGaps(g);
    assert Diffs([]) == [];
    hide Diffs, CountIn, MaxOf, CountOver;
  }

  lemma NextFile(s: Scan, before: seq<int>, rows: seq<int>, g: int, minute: int)
    requires Describes(s, before, g) && Rising(before + rows) && rows != [] && before != []
    ensures Describes(ScanFile(s, rows, g, minute), before + rows, g)
  {
    hide Diffs, MaxOf, CountOver, CountIn, Rising;
    JoinedGaps(before, rows, g);
    JoinedEnds(before, rows);
  }

  lemma JoinedEnds(before: seq<int>, rows: seq<int>)
    requires before != [] && rows != [] && Rising(before + rows)
    ensures var all := before + rows;
      && all[0] == before[0] && all[|all| - 1] == rows[|rows| - 1]
      && before[0] <= rows[0] && before[|before| - 1] <= rows[|rows| - 1]
  {
    var all := before + rows;
    assert all[0] <= all[|before|] && (|rows| >= 1 ==> all[|before| - 1] <= all[|all| - 1]);
  }

  lemma NoGaps(g: int)
    ensures MaxOf([], 0) == 0 && CountOver([], g) == 0
  {}

  lemma {:induction false} ScanDescribes(files: seq<seq<int>>, lo: int, hi: int, g: int, minute: int)
    requires Rising(Rows(files, lo, hi))
    ensures Describes(ScanFiles(files, lo, hi, g, minute), Rows(files, lo, hi), g)
    ensures ScanFiles(files, lo, hi, g, minute).lo == lo && ScanFiles(files, lo, hi, g, minute).hi == hi
    decreases |files|
  {
    hide Describes, FileRows, Rising;
    if files == [] {
      NoFiles(lo, hi, g);
    } else {
      var n := |files| - 1;
      RisingPrefix(Rows(files[..n], lo, hi), FileRows(files[n], lo, hi));
      ScanDescribes(files[..n], lo, hi, g, minute);
      FileDescribes(ScanFiles(files[..n], lo, hi, g, minute), Rows(files[..n], lo, hi), FileRows(files[n], lo, hi), g, minute);
    }
  }

  lemma NoFiles(lo: int, hi: int, g: int)
    ensures Describes(Scan(lo, hi, 0, None, None, 0, 0, 0), [], g)
  {}

  lemma RisingPrefix(xs: seq<int>, ys: seq<int>)
    requires Rising(xs + ys)
    ensures Rising(xs)
  {
    forall i, j | 0 <= i < j < |xs| ensures xs[i] <= xs[j] { assert (xs + ys)[i] <= (xs + ys)[j]; }
  }

  /** For files in time order that do not overlap, the summary of a window reports its true largest gap and the
      true number of gaps beyond the grace: between rows, and from either edge of the window. */
  lemma SummaryIsTrue(files: seq<seq<int>>, lo: int, hi: int, g: int, minute: int)
    requires lo <= hi && Rising(Rows(files, lo, hi)) && Within(Rows(files, lo, hi), lo, hi)
    ensures var s, gaps := ScanFiles(files, lo, hi, g, minute), Diffs([lo] + Rows(files, lo, hi) + [hi]);
      LongestOf(s) == MaxOf(gaps, 0) && BeyondOf(s, g) == CountOver(gaps, g)
  {
    var s, rows := ScanFiles(files, lo, hi, g, minute), Rows(files, lo, hi);
    ScanDescribes(files, lo, hi, g, minute);
    DescribedGaps(s, rows, g);
  }

  lemma DescribedGaps(s: Scan, rows: seq<int>, g: int)
    requires Describes(s, rows, g) && s.lo <= s.hi && Within(rows, s.lo, s.hi)
    ensures var gaps := Diffs([s.lo] + rows + [s.hi]); LongestOf(s) == MaxOf(gaps, 0) && BeyondOf(s, g) == CountOver(gaps, g)
  {
    hide Diffs, MaxOf, CountOver, Within;
    if rows == [] {
      EmptyWindow(s, rows, g);
    } else {
      FirstInside(rows, s.lo, s.hi);
      GapsOfWindow(s.lo, rows, s.hi);
      GapSum(rows[0] - s.lo, Diffs(rows), s.hi - rows[|rows| - 1], s.maxGap, g);
    }
  }

  lemma FirstInside(rows: seq<int>, lo: int, hi: int)
    requires Within(rows, lo, hi) && rows != []
    ensures lo <= rows[0]
  {}

  lemma EmptyWindow(s: Scan, rows: seq<int>, g: int)
    requires Describes(s, rows, g) && rows == [] && s.lo <= s.hi
    ensures var gaps := Diffs([s.lo] + rows + [s.hi]); LongestOf(s) == MaxOf(gaps, 0) && BeyondOf(s, g) == CountOver(gaps, g)
  {
    hide MaxOf, CountOver;
    assert [s.lo] + rows + [s.hi] == [s.lo, s.hi];
    assert Diffs([s.lo, s.hi]) == [s.hi - s.lo];
    WholeWindow(s.hi - s.lo, 0, g);
  }

  /** The edges and the inner gaps, taken together or one after the other. */
  lemma GapSum(a: int, d: seq<int>, b: int, gap: int, g: int)
    requires a >= 0 && gap == MaxOf(d, 0)
    ensures MaxOf([a, b], gap) == MaxOf([a] + d + [b], 0)
    ensures CountOver([a, b], g) + CountOver(d, g) == CountOver([a] + d + [b], g)
  {
    ThreeParts([a], d, [b], 0, g);
    WholeWindow(a, 0, g);
    WholeWindow(b, MaxOf(d, MaxOf([a], 0)), g);
    Edges(a, b, gap, 0, g);
    MaxShift(d, a);
    hide MaxOf, CountOver;
  }

  lemma GapsOfWindow(lo: int, rows: seq<int>, hi: int)
    requires rows != []
    ensures Diffs([lo] + rows + [hi]) == [rows[0] - lo] + Diffs(rows) + [hi - rows[|rows| - 1]]
  {
    hide Diffs;
    var all := [lo] + rows + [hi];
    var parts := [rows[0] - lo] + Diffs(rows) + [hi - rows[|rows| - 1]];
    forall i | 0 <= i < |all| - 1 ensures Diffs(all)[i] == parts[i] {
      if i == 0 {
        assert all[0] == lo && all[1] == rows[0];
      } else if i < |rows| {
        assert all[i] == rows[i - 1] && all[i + 1] == rows[i];
      } else {
        assert all[i] == rows[|rows| - 1] && all[i + 1] == hi;
      }
    }
  }

  lemma {:induction false} MaxShift(xs: seq<int>, least: int)
    requires least >= 0
    ensures MaxOf(xs, least) == if MaxOf(xs, 0) > least then MaxOf(xs, 0) else least
  {
    if xs != [] { MaxShift(xs[..|xs| - 1], least); }
  }
}
