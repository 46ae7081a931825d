/** The N-day-Y-percent rate gate of nfdump1.c.

    The LMDB environment is opened read-only once per run; the model takes
    what its cursors return as values: the address table as the sequence of
    its values in cursor order, the service table as a map from a service key
    to its duplicate values in cursor order. `time(NULL)` is a parameter. */
module RateFilter {
  import opened CArith
  import opened FlowTypes

  const SecondsPerDay: nat := 86400
  const HalfDay: nat := 43200

  /** `SvcKey`: the service an endpoint offers. */
  datatype SvcKey = SvcKey(ip: UInt32, protocol: UInt16, port: UInt16)

  /** `SvcValue`: one client of a service and when it was last seen. */
  datatype SvcValue = SvcValue(peerIp: UInt32, timestamp: UInt32)

  /** The two tables read through the filter's one read transaction: `ip`
      holds the last-seen timestamps of the address table, `svc` the
      duplicate values stored under each service key. */
  datatype Store = Store(ip: seq<UInt32>, svc: map<SvcKey, seq<SvcValue>>)

  /** `now - x * 86400` stored in an `unsigned int`: it wraps below zero. */
  function WindowStart(now: nat, x: nat): (t: nat)
    ensures t < U32
    ensures x * SecondsPerDay <= now < U32 ==> t == now - x * SecondsPerDay
  {
    Wrap32(now - x * SecondsPerDay)
  }

  /** The window start rounded down to a multiple of twelve hours, as the
      client count computes it. */
  function AlignedWindowStart(now: nat, x: nat): (b: nat)
    ensures b <= WindowStart(now, x) < b + HalfDay
    ensures b % HalfDay == 0
  {
    var t := WindowStart(now, x);
    t - t % HalfDay
  }

  // ---------------------------------------------------------------------
  // get_xdayypercent_threshold

  /** How many of `ts` are at or after `bound`. */
  function CountAtLeast(ts: seq<nat>, bound: nat): (n: nat)
    ensures n <= |ts|
  {
    if |ts| == 0 then 0
    else CountAtLeast(ts[..|ts| - 1], bound) + (if ts[|ts| - 1] >= bound then 1 else 0)
  }

  /** The count is the number of positions whose timestamp is in the window. */
  lemma {:induction false} CountAtLeastIsCardinality(ts: seq<nat>, bound: nat)
    ensures CountAtLeast(ts, bound) == |set i | 0 <= i < |ts| && ts[i] >= bound|
  {
    if |ts| > 0 {
      var n := |ts| - 1;
      CountAtLeastIsCardinality(ts[..n], bound);
      var before := set i | 0 <= i < n && ts[..n][i] >= bound;
      var after := set i | 0 <= i < |ts| && ts[i] >= bound;
      assert before == set i | 0 <= i < n && ts[i] >= bound;
      if ts[n] >= bound {
        assert after == before + {n};
      } else {
        assert after == before;
      }
    }
  }

  /** An earlier window start counts at least as many timestamps. */
  lemma {:induction false} CountAtLeastAntitone(ts: seq<nat>, b1: nat, b2: nat)
    requires b1 <= b2
    ensures CountAtLeast(ts, b1) >= CountAtLeast(ts, b2)
  {
    if |ts| > 0 {
      CountAtLeastAntitone(ts[..|ts| - 1], b1, b2);
    }
  }

  /** `count * y / 100` in `unsigned long long`, `y` having passed through
      an `int` parameter. */
  function Percent(count: nat, y: nat): nat
    requires y < U32
  {
    (count * IntToULongLong(y)) % U64 / 100
  }

  lemma MulMonotone(c: nat, a: nat, b: nat)
    requires a <= b
    ensures c * a <= c * b
  {
    assert c * b == c * a + c * (b - a);
  }

  /** Without 64-bit overflow the threshold is the floor of count * y / 100. */
  lemma PercentIsFloor(count: nat, y: nat)
    requires y <= IntMax && count * y < U64
    ensures Percent(count, y) * 100 <= count * y < Percent(count, y) * 100 + 100
  {
  }

  /** A larger percentage never gives a smaller threshold. */
  lemma PercentMonotoneInY(count: nat, y1: nat, y2: nat)
    requires y1 <= y2 <= IntMax
    requires count * y2 < U64
    ensures Percent(count, y1) <= Percent(count, y2)
  {
    MulMonotone(count, y1, y2);
    assert count * y1 % U64 == count * y1;
    assert count * y2 % U64 == count * y2;
  }

  /** Up to 100 percent the threshold never exceeds the count, even where
      the 64-bit product wraps: a wrapped product over 100 is below 2^64 / 100,
      which such a count already exceeds. */
  lemma PercentAtMostCount(count: nat, y: nat)
    requires y <= 100
    ensures Percent(count, y) <= count
  {
    if count * 100 < U64 {
      MulMonotone(count, y, 100);
      assert count * y % U64 == count * y;
    } else {
      assert (count * y) % U64 < U64;
      assert (count * y) % U64 / 100 < U64 / 100 + 1;
      assert U64 <= count * 100;
    }
  }

  /** The threshold `get_xdayypercent_threshold(x, y)` returns. */
  function Threshold(store: Store, now: nat, x: nat, y: nat): (t: nat)
    requires y < U32
    ensures t * 100 < U64
    ensures y == 0 ==> t == 0
  {
    Percent(CountAtLeast(store.ip, WindowStart(now, x)), y)
  }

  /** `get_xdayypercent_threshold`: a cursor walk over the address table
      counting the timestamps inside the window, scaled by y percent. */
  method GetThreshold(store: Store, now: nat, x: nat, y: nat) returns (threshold: nat)
    requires y < U32
    ensures threshold == Percent(CountAtLeast(store.ip, WindowStart(now, x)), y)
  {
    var timestamp := WindowStart(now, x);
    var count := 0;
    var i := 0;
    while i < |store.ip|
      invariant 0 <= i <= |store.ip|
      invariant count == CountAtLeast(store.ip[..i], timestamp)
    {
      assert store.ip[..i + 1][..i] == store.ip[..i];
      count := count + (if store.ip[i] >= timestamp then 1 else 0);
      i := i + 1;
    }
    assert store.ip[..|store.ip|] == store.ip;
    threshold := (count * IntToULongLong(y)) % U64 / 100;
  }

  /** Up to 100 percent the threshold never exceeds the number of
      addresses in the table. */
  lemma ThresholdAtMostAddresses(store: Store, now: nat, x: nat, y: nat)
    requires y <= 100
    ensures Threshold(store, now, x, y) <= |store.ip|
  {
    PercentAtMostCount(CountAtLeast(store.ip, WindowStart(now, x)), y);
  }

  /** Raising the percentage never lowers the threshold (while the product
      does not overflow). */
  lemma ThresholdMonotoneInY(store: Store, now: nat, x: nat, y1: nat, y2: nat)
    requires y1 <= y2 <= IntMax
    requires |store.ip| * y2 < U64
    ensures Threshold(store, now, x, y1) <= Threshold(store, now, x, y2)
  {
    var count := CountAtLeast(store.ip, WindowStart(now, x));
    MulMonotone(y2, count, |store.ip|);
    PercentMonotoneInY(count, y1, y2);
  }

  /** Lengthening the window (without wrapping below zero) never lowers the
      threshold. */
  lemma ThresholdMonotoneInDays(store: Store, now: nat, x1: nat, x2: nat, y: nat)
    requires x1 <= x2 && x2 * SecondsPerDay <= now < U32
    requires y <= IntMax && |store.ip| * y < U64
    ensures Threshold(store, now, x1, y) <= Threshold(store, now, x2, y)
  {
    MulMonotone(SecondsPerDay, x1, x2);
    CountAtLeastAntitone(store.ip, WindowStart(now, x2), WindowStart(now, x1));
    var c1, c2 := CountAtLeast(store.ip, WindowStart(now, x1)), CountAtLeast(store.ip, WindowStart(now, x2));
    MulMonotone(y, c1, c2);
    MulMonotone(y, c2, |store.ip|);
    assert c1 * y % U64 == c1 * y;
    assert c2 * y % U64 == c2 * y;
  }

  /** The thresholds of the context after `load_xdayypercent_db` has run:
      each is computed only when its mode is on and both of its numbers are
      nonzero; otherwise it keeps its zero initial value. */
  datatype RateCtx = RateCtx(
    exclude: bool,
    only: bool,
    exclusionX: nat,
    exclusionY: nat,
    inclusionX: nat,
    inclusionY: nat,
    exclusionThreshold: nat,
    inclusionThreshold: nat)

  /** The tail of `load_xdayypercent_db` that computes the two thresholds. */
  method LoadThresholds(store: Store, now: nat, ctx: RateCtx) returns (loaded: RateCtx)
    requires ctx.exclusionY < U32 && ctx.inclusionY < U32
    ensures loaded.(exclusionThreshold := ctx.exclusionThreshold, inclusionThreshold := ctx.inclusionThreshold) == ctx
    ensures loaded.exclusionThreshold ==
      if ctx.exclude && ctx.exclusionX != 0 && ctx.exclusionY != 0
      then Threshold(store, now, ctx.exclusionX, ctx.exclusionY) else ctx.exclusionThreshold
    ensures loaded.inclusionThreshold ==
      if ctx.only && ctx.inclusionX != 0 && ctx.inclusionY != 0
      then Threshold(store, now, ctx.inclusionX, ctx.inclusionY) else ctx.inclusionThreshold
  {
    loaded := ctx;
    if ctx.exclude && ctx.exclusionX != 0 && ctx.exclusionY != 0 {
      var t := GetThreshold(store, now, ctx.exclusionX, ctx.exclusionY);
      loaded := loaded.(exclusionThreshold := t);
    }
    if ctx.only && ctx.inclusionX != 0 && ctx.inclusionY != 0 {
      var t := GetThreshold(store, now, ctx.inclusionX, ctx.inclusionY);
      loaded := loaded.(inclusionThreshold := t);
    }
  }

  // ---------------------------------------------------------------------
  // get_xdayypercent_svc_client_count

  /** The duplicates `MDB_SET_KEY` / `MDB_NEXT_DUP` visit; none when the key
      is absent (the first get returns MDB_NOTFOUND). */
  function Dups(store: Store, key: SvcKey): seq<SvcValue> {
    if key in store.svc then store.svc[key] else []
  }

  /** How many of `dups` were seen at or after `bound`. */
  function CountRecent(dups: seq<SvcValue>, bound: nat): (n: nat)
    ensures n <= |dups|
  {
    if |dups| == 0 then 0
    else CountRecent(dups[..|dups| - 1], bound) + (if dups[|dups| - 1].timestamp >= bound then 1 else 0)
  }

  lemma {:induction false} CountRecentIsCardinality(dups: seq<SvcValue>, bound: nat)
    ensures CountRecent(dups, bound) == |set i | 0 <= i < |dups| && dups[i].timestamp >= bound|
  {
    if |dups| > 0 {
      var n := |dups| - 1;
      CountRecentIsCardinality(dups[..n], bound);
      var before := set i | 0 <= i < n && dups[..n][i].timestamp >= bound;
      var after := set i | 0 <= i < |dups| && dups[i].timestamp >= bound;
      assert before == set i | 0 <= i < n && dups[i].timestamp >= bound;
      if dups[n].timestamp >= bound {
        assert after == before + {n};
      } else {
        assert after == before;
      }
    }
  }

  /** The client count of a service for a window of `x` days. */
  function ClientCount(store: Store, key: SvcKey, now: nat, x: nat): (n: nat)
    ensures n <= |Dups(store, key)|
    ensures key !in store.svc ==> n == 0
  {
    CountRecent(Dups(store, key), AlignedWindowStart(now, x))
  }

  /** `get_xdayypercent_svc_client_count` (its `y` argument is unused). */
  method GetSvcClientCount(store: Store, protocol: UInt8, ip: UInt32, port: UInt16, now: nat, x: nat)
    returns (count: nat)
    ensures count == CountRecent(Dups(store, SvcKey(ip, protocol, port)), AlignedWindowStart(now, x))
    ensures count <= |Dups(store, SvcKey(ip, protocol, port))|
  {
    var timestamp := Wrap32(now - x * SecondsPerDay);
    timestamp := timestamp - timestamp % HalfDay;
    var key := SvcKey(ip, protocol, port);
    var dups := if key in store.svc then store.svc[key] else [];
    count := 0;
    var i := 0;
    while i < |dups|
      invariant 0 <= i <= |dups|
      invariant count == CountRecent(dups[..i], timestamp)
    {
      assert dups[..i + 1][..i] == dups[..i];
      count := count + (if dups[i].timestamp >= timestamp then 1 else 0);
      i := i + 1;
    }
    assert dups[..|dups|] == dups;
  }

  // ---------------------------------------------------------------------
  // check_xdayypercent_filter

  function SrcKey(r: MasterRecord): SvcKey {
    SvcKey(Low32(r.srcaddr), r.prot, r.srcport)
  }

  function DstKey(r: MasterRecord): SvcKey {
    SvcKey(Low32(r.dstaddr), r.prot, r.dstport)
  }

  predicate ExclusionActive(ctx: RateCtx) {
    ctx.exclude && ctx.exclusionThreshold != 0
  }

  predicate InclusionActive(ctx: RateCtx) {
    ctx.only && ctx.inclusionThreshold != 0
  }

  /** The window the inclusion test's counts were taken over: counts left
      over from the exclusion test are reused, so when that test ran, its
      window applies. */
  function InclusionWindow(ctx: RateCtx): nat {
    if ExclusionActive(ctx) then ctx.exclusionX else ctx.inclusionX
  }

  /** The rate gate, stated declaratively: with exclusion active both
      endpoints must be at or under the exclusion threshold (a record goes if
      EITHER exceeds it); with inclusion active both must be over the
      inclusion threshold (a record stays only if BOTH exceed it). */
  predicate RateAdmits(ctx: RateCtx, store: Store, now: nat, r: MasterRecord) {
    && (ExclusionActive(ctx) ==>
          && ClientCount(store, SrcKey(r), now, ctx.exclusionX) <= ctx.exclusionThreshold
          && ClientCount(store, DstKey(r), now, ctx.exclusionX) <= ctx.exclusionThreshold)
    && (InclusionActive(ctx) ==>
          && ClientCount(store, SrcKey(r), now, InclusionWindow(ctx)) > ctx.inclusionThreshold
          && ClientCount(store, DstKey(r), now, InclusionWindow(ctx)) > ctx.inclusionThreshold)
  }

  /** `check_xdayypercent_filter`. A count of -1 means "not yet computed";
      `lookups` counts the calls to the client counter. */
  method CheckRateFilter(ctx: RateCtx, store: Store, now: nat, r: MasterRecord)
    returns (pass: bool, ghost lookups: nat)
    ensures pass == RateAdmits(ctx, store, now, r)
    ensures lookups <= 2
    ensures !ExclusionActive(ctx) && !InclusionActive(ctx) ==> lookups == 0
    ensures ExclusionActive(ctx) && ClientCount(store, SrcKey(r), now, ctx.exclusionX) > ctx.exclusionThreshold
            ==> lookups == 1
  {
    var sip, dip := Low32(r.srcaddr), Low32(r.dstaddr);
    var sport, dport := r.srcport, r.dstport;
    var srcClientCount: int, dstClientCount: int := -1, -1;
    lookups := 0;
    if ctx.exclude && ctx.exclusionThreshold != 0 {
      var c := GetSvcClientCount(store, r.prot, sip, sport, now, ctx.exclusionX);
      srcClientCount, lookups := c, lookups + 1;
      if srcClientCount > ctx.exclusionThreshold {
        return false, lookups;
      }
      c := GetSvcClientCount(store, r.prot, dip, dport, now, ctx.exclusionX);
      dstClientCount, lookups := c, lookups + 1;
      if dstClientCount > ctx.exclusionThreshold {
        return false, lookups;
      }
    }
    if ctx.only && ctx.inclusionThreshold != 0 {
      if srcClientCount == -1 {
        var c := GetSvcClientCount(store, r.prot, sip, sport, now, ctx.inclusionX);
        srcClientCount, lookups := c, lookups + 1;
      }
      if srcClientCount <= ctx.inclusionThreshold {
        return false, lookups;
      }
      if dstClientCount == -1 {
        var c := GetSvcClientCount(store, r.prot, dip, dport, now, ctx.inclusionX);
        dstClientCount, lookups := c, lookups + 1;
      }
      if dstClientCount <= ctx.inclusionThreshold {
        return false, lookups;
      }
    }
    return true, lookups;
  }

  /** Exclude mode alone is an OR: the record is dropped when either
      endpoint's client count exceeds the threshold. */
  lemma ExcludeDropsOnEither(ctx: RateCtx, store: Store, now: nat, r: MasterRecord)
    requires ExclusionActive(ctx) && !InclusionActive(ctx)
    ensures !RateAdmits(ctx, store, now, r) <==>
      (ClientCount(store, SrcKey(r), now, ctx.exclusionX) > ctx.exclusionThreshold
       || ClientCount(store, DstKey(r), now, ctx.exclusionX) > ctx.exclusionThreshold)
  {
  }

  /** Include-only mode alone is an AND: the record is kept only when both
      endpoints' client counts exceed the threshold, so a record whose source
      alone exceeds it is dropped. */
  lemma IncludeKeepsOnBoth(ctx: RateCtx, store: Store, now: nat, r: MasterRecord)
    requires !ExclusionActive(ctx) && InclusionActive(ctx)
    ensures RateAdmits(ctx, store, now, r) <==>
      (ClientCount(store, SrcKey(r), now, ctx.inclusionX) > ctx.inclusionThreshold
       && ClientCount(store, DstKey(r), now, ctx.inclusionX) > ctx.inclusionThreshold)
  {
  }

  /** A zero threshold switches its test off. */
  lemma ZeroThresholdsAdmitAll(ctx: RateCtx, store: Store, now: nat, r: MasterRecord)
    requires ctx.exclusionThreshold == 0 && ctx.inclusionThreshold == 0
    ensures RateAdmits(ctx, store, now, r)
  {
  }

  /** Once the window reaches back before the epoch, `now - x * 86400`
      wraps to the top of the `unsigned int` range, and a longer window can
      count fewer addresses: with one address last seen at 100000 and the
      clock at 172800, a one-day window counts it and a three-day window,
      whose start has wrapped, does not. */
  lemma WrappedWindowLowersThreshold()
    ensures Threshold(Store([100000], map[]), 172800, 1, 100) == 1
    ensures Threshold(Store([100000], map[]), 172800, 3, 100) == 0
  {
    assert WindowStart(172800, 1) == 86400;
    assert WindowStart(172800, 3) == U32 - 86400;
    assert [100000][..0] == [];
  }

  /** A wrapped window start is shifted by 2^32, which is not a multiple of
      twelve hours, so two clock readings in the same twelve-hour tick can
      fall on different aligned boundaries. */
  lemma WrappedWindowShiftsBoundary()
    ensures 0 / HalfDay == 20000 / HalfDay
    ensures AlignedWindowStart(0, 1) != AlignedWindowStart(20000, 1)
  {
    assert WindowStart(0, 1) == U32 - 86400;
    assert WindowStart(20000, 1) == U32 - 66400;
  }

  /** Within one twelve-hour tick of the clock (and a window that does not
      reach back before the epoch) the aligned window start does not move. */
  lemma SameHalfDaySameBoundary(n1: nat, n2: nat, x: nat)
    requires x * SecondsPerDay <= n1 && x * SecondsPerDay <= n2
    requires n1 < U32 && n2 < U32
    requires n1 / HalfDay == n2 / HalfDay
    ensures AlignedWindowStart(n1, x) == AlignedWindowStart(n2, x)
  {
    var k := x * 2;
    assert x * SecondsPerDay == k * HalfDay;
    var t1, t2 := n1 - k * HalfDay, n2 - k * HalfDay;
    assert WindowStart(n1, x) == t1 && WindowStart(n2, x) == t2;
    DivShift(n1, k);
    DivShift(n2, k);
    assert t1 / HalfDay == t2 / HalfDay;
    assert t1 - t1 % HalfDay == HalfDay * (t1 / HalfDay);
    assert t2 - t2 % HalfDay == HalfDay * (t2 / HalfDay);
  }

  lemma DivShift(n: nat, k: nat)
    requires k * HalfDay <= n
    ensures (n - k * HalfDay) / HalfDay == n / HalfDay - k
  {
    var q, r := n / HalfDay, n % HalfDay;
    assert n == q * HalfDay + r;
    assert n - k * HalfDay == (q - k) * HalfDay + r;
  }

  /** The gate depends on the clock only through the two aligned window
      starts, so two readings in the same twelve-hour tick give the same
      verdict. */
  lemma RateAdmitsWithinHalfDay(ctx: RateCtx, store: Store, n1: nat, n2: nat, r: MasterRecord)
    requires ctx.exclusionX * SecondsPerDay <= n1 && ctx.exclusionX * SecondsPerDay <= n2
    requires ctx.inclusionX * SecondsPerDay <= n1 && ctx.inclusionX * SecondsPerDay <= n2
    requires n1 < U32 && n2 < U32
    requires n1 / HalfDay == n2 / HalfDay
    ensures RateAdmits(ctx, store, n1, r) == RateAdmits(ctx, store, n2, r)
  {
    SameHalfDaySameBoundary(n1, n2, ctx.exclusionX);
    SameHalfDaySameBoundary(n1, n2, ctx.inclusionX);
  }
}
