/**
 Metrics histories as values: what a run of scrapes and prunes leaves in each agent's series.
 Sample times are nanoseconds; counters and rates are real numbers.
 */
module MetricsHistory {

  type Uid = string

  datatype Point = Point(time: int, value: real)

  type Series = seq<Point>

  const MAX_POINTS := 60

  /** The raw counters and the memory gauge of one successful scrape. */
  datatype Sample = Sample(at: int, cpu: real, received: real, sent: real, failed: real, memory: real)

  datatype View = View(updatedAt: int, cpu: Series, memory: Series, received: Series, ratio: Series)

  const NO_VIEW := View(0, [], [], [], [])

  function LastPoints(s: Series): Series {
    if |s| <= MAX_POINTS then s else s[|s| - MAX_POINTS..]
  }

  /** `appendCapped`, or plain append when there is no cap. */
  function Append(s: Series, p: Point, capped: bool): Series {
    if capped then LastPoints(s + [p]) else s + [p]
  }

  function Rate(cur: real, prev: real, seconds: real): real
    requires seconds > 0.0
  {
    if cur - prev < 0.0 then 0.0 else (cur - prev) / seconds
  }

  function SuccessRatio(cur: Sample, prev: Sample): real {
    var total := cur.sent + cur.failed - prev.sent - prev.failed;
    if total > 0.0 then (cur.sent - prev.sent) / total else 0.0
  }

  function Seconds(ns: int): real { ns as real / 1000000000.0 }

  function FirstRecorded(v: View, cur: Sample, capped: bool): View {
    v.(updatedAt := cur.at, memory := Append(v.memory, Point(cur.at, cur.memory), capped))
  }

  function RatesRecorded(v: View, cur: Sample, prev: Sample, capped: bool): View
    requires cur.at > prev.at
  {
    var seconds := Seconds(cur.at - prev.at);
    View(cur.at,
         Append(v.cpu, Point(cur.at, Rate(cur.cpu, prev.cpu, seconds)), capped),
         Append(v.memory, Point(cur.at, cur.memory), capped),
         Append(v.received, Point(cur.at, Rate(cur.received, prev.received, seconds)), capped),
         Append(v.ratio, Point(cur.at, SuccessRatio(cur, prev)), capped))
  }

  // ---------------------------------------------------------------- a run of scrapes and prunes

  type Views = map<Uid, View>

  datatype Scraped = Scraped(prevs: map<Uid, Sample>, views: Views)

  function ViewOf(views: Views, uid: Uid): View {
    if uid in views then views[uid] else NO_VIEW
  }

  /** One successful scrape; a scrape no later than the previous one only replaces the counters. */
  function AfterScrape(s: Scraped, uid: Uid, cur: Sample, capped: bool): Scraped {
    Scraped(
      s.prevs[uid := cur],
      if uid !in s.prevs then s.views[uid := FirstRecorded(ViewOf(s.views, uid), cur, capped)]
      else if cur.at <= s.prevs[uid].at then s.views
      else s.views[uid := RatesRecorded(ViewOf(s.views, uid), cur, s.prevs[uid], capped)])
  }

  function Pruned(views: Views, live: set<Uid>): Views {
    map uid | uid in views && uid in live :: views[uid]
  }

  datatype Event = Scrape(uid: Uid, sample: Sample) | Prune(live: set<Uid>)

  function After(s: Scraped, e: Event, capped: bool): Scraped {
    match e
    case Scrape(uid, sample) => AfterScrape(s, uid, sample, capped)
    case Prune(live) => s.(views := Pruned(s.views, live))
  }

  function Replay(events: seq<Event>, n: nat, capped: bool): Scraped
    requires n <= |events|
  {
    if n == 0 then Scraped(map[], map[]) else After(Replay(events, n - 1, capped), events[n - 1], capped)
  }

  /** The clock never runs backwards between scrapes. */
  ghost predicate ClockRuns(events: seq<Event>) {
    forall i, j :: 0 <= i < j < |events| && events[i].Scrape? && events[j].Scrape? ==>
      events[i].sample.at <= events[j].sample.at
  }

  // ---------------------------------------------------------------- the cap keeps the latest points

  function Capped(v: View): View {
    View(v.updatedAt, LastPoints(v.cpu), LastPoints(v.memory), LastPoints(v.received), LastPoints(v.ratio))
  }

  lemma AppendKeepsLast(s: Series, p: Point)
    ensures Append(LastPoints(s), p, true) == LastPoints(s + [p])
  {
  }

  lemma RatesKeepLast(v: View, cur: Sample, prev: Sample)
    requires cur.at > prev.at
    ensures RatesRecorded(Capped(v), cur, prev, true) == Capped(RatesRecorded(v, cur, prev, false))
  {
    var seconds := Seconds(cur.at - prev.at);
    AppendKeepsLast(v.cpu, Point(cur.at, Rate(cur.cpu, prev.cpu, seconds)));
    AppendKeepsLast(v.memory, Point(cur.at, cur.memory));
    AppendKeepsLast(v.received, Point(cur.at, Rate(cur.received, prev.received, seconds)));
    AppendKeepsLast(v.ratio, Point(cur.at, SuccessRatio(cur, prev)));
  }

  /** The capped histories are at all times the last at most 60 points of unbounded ones. */
  lemma {:induction false} CapKeepsLatest(events: seq<Event>, n: nat, uid: Uid)
    requires n <= |events|
    ensures var c, u := Replay(events, n, true), Replay(events, n, false);
            && c.prevs == u.prevs
            && (uid in c.views <==> uid in u.views)
            && ViewOf(c.views, uid) == Capped(ViewOf(u.views, uid))
  {
    if n > 0 {
      CapKeepsLatest(events, n - 1, uid);
      var u, e := Replay(events, n - 1, false), events[n - 1];
      if e.Scrape? && e.uid == uid {
        var v := ViewOf(u.views, uid);
        AppendKeepsLast(v.memory, Point(e.sample.at, e.sample.memory));
        if uid in u.prevs && e.sample.at > u.prevs[uid].at { RatesKeepLast(v, e.sample, u.prevs[uid]); }
      }
    }
  }

  /** The stored series is the end of the unbounded one, all of it up to 60 points. */
  ghost predicate KeepsLatest60(stored: Series, all: Series) {
    && |stored| == (if |all| <= 60 then |all| else 60)
    && forall i :: 0 <= i < |stored| ==> stored[i] == all[|all| - |stored| + i]
  }

  lemma LastPointsAre60(s: Series)
    ensures KeepsLatest60(LastPoints(s), s)
  {
  }

  /** So after any run every stored series is the last at most 60 points of what was appended. */
  lemma SeriesKeepLatest60(events: seq<Event>, n: nat, uid: Uid)
    requires n <= |events|
    ensures var c, u := ViewOf(Replay(events, n, true).views, uid), ViewOf(Replay(events, n, false).views, uid);
            && KeepsLatest60(c.cpu, u.cpu) && KeepsLatest60(c.memory, u.memory)
            && KeepsLatest60(c.received, u.received) && KeepsLatest60(c.ratio, u.ratio)
  {
    CapKeepsLatest(events, n, uid);
    var u := ViewOf(Replay(events, n, false).views, uid);
    LastPointsAre60(u.cpu);
    LastPointsAre60(u.memory);
    LastPointsAre60(u.received);
    LastPointsAre60(u.ratio);
  }

  // ---------------------------------------------------------------- alignment

  ghost predicate SameTimes(s: Series, t: Series) {
    |s| == |t| && forall i :: 0 <= i < |s| ==> s[i].time == t[i].time
  }

  ghost predicate Increasing(s: Series) {
    forall i, j :: 0 <= i < j < |s| ==> s[i].time < s[j].time
  }

  /** The rate series agree in their times, which are the memory series' times or all but its first. */
  ghost predicate Aligned(v: View) {
    && SameTimes(v.cpu, v.received) && SameTimes(v.cpu, v.ratio)
    && (SameTimes(v.cpu, v.memory) || (v.memory != [] && SameTimes(v.cpu, v.memory[1..])))
    && Increasing(v.memory) && Increasing(v.cpu)
    && (v.memory != [] ==> v.updatedAt == v.memory[|v.memory| - 1].time)
    && (forall i :: 0 <= i < |v.cpu| ==> v.cpu[i].value >= 0.0 && v.received[i].value >= 0.0)
  }

  ghost predicate AlignedAt(s: Scraped, uid: Uid, now: int) {
    && (uid in s.views ==> uid in s.prevs && s.views[uid].memory != [])
    && (uid in s.prevs ==> s.prevs[uid].at <= now)
    && Aligned(ViewOf(s.views, uid))
    && (uid in s.views ==> s.views[uid].updatedAt <= s.prevs[uid].at)
  }

  lemma SameTimesGrow(s: Series, t: Series, p: Point, q: Point)
    requires SameTimes(s, t) && p.time == q.time
    ensures SameTimes(s + [p], t + [q])
  {
  }

  lemma IncreasingGrows(s: Series, p: Point)
    requires Increasing(s) && (s != [] ==> s[|s| - 1].time < p.time)
    ensures Increasing(s + [p])
  {
  }

  lemma SignOfProduct(x: real, t: real)
    requires t > 0.0
    ensures x * t >= 0.0 <==> x >= 0.0
  {
  }

  lemma RateIsNonNegative(cur: real, prev: real, seconds: real)
    requires seconds > 0.0
    ensures Rate(cur, prev, seconds) >= 0.0
  {
    if cur - prev >= 0.0 {
      var r := (cur - prev) / seconds;
      SignOfProduct(r, seconds);
      assert r * seconds == cur - prev;
    }
  }

  lemma RatesStayAligned(v: View, cur: Sample, prev: Sample)
    requires cur.at > prev.at && Aligned(v)
    requires v.memory != [] ==> v.updatedAt <= prev.at
    ensures Aligned(RatesRecorded(v, cur, prev, false))
  {
    var seconds := Seconds(cur.at - prev.at);
    var c := Point(cur.at, Rate(cur.cpu, prev.cpu, seconds));
    var m := Point(cur.at, cur.memory);
    var r := Point(cur.at, Rate(cur.received, prev.received, seconds));
    var x := Point(cur.at, SuccessRatio(cur, prev));
    SameTimesGrow(v.cpu, v.received, c, r);
    SameTimesGrow(v.cpu, v.ratio, c, x);
    if SameTimes(v.cpu, v.memory) {
      SameTimesGrow(v.cpu, v.memory, c, m);
    } else {
      SameTimesGrow(v.cpu, v.memory[1..], c, m);
      assert (v.memory + [m])[1..] == v.memory[1..] + [m];
    }
    assert v.cpu != [] ==> v.cpu[|v.cpu| - 1].time == v.memory[|v.memory| - 1].time;
    IncreasingGrows(v.memory, m);
    IncreasingGrows(v.cpu, c);
    RateIsNonNegative(cur.cpu, prev.cpu, seconds);
    RateIsNonNegative(cur.received, prev.received, seconds);
  }

  lemma {:induction false} UncappedAligned(events: seq<Event>, n: nat, uid: Uid, now: int)
    requires n <= |events| && ClockRuns(events)
    requires forall i :: 0 <= i < n && events[i].Scrape? ==> events[i].sample.at <= now
    ensures AlignedAt(Replay(events, n, false), uid, now)
  {
    if n > 0 {
      var e := events[n - 1];
      UncappedAligned(events, n - 1, uid, if e.Scrape? then e.sample.at else now);
      var s := Replay(events, n - 1, false);
      if e.Scrape? && e.uid == uid && uid in s.prevs && e.sample.at > s.prevs[uid].at {
        RatesStayAligned(ViewOf(s.views, uid), e.sample, s.prevs[uid]);
      }
    }
  }

  lemma LastPointsSameTimes(s: Series, t: Series)
    requires SameTimes(s, t)
    ensures SameTimes(LastPoints(s), LastPoints(t))
  {
  }

  lemma LastPointsIncreasing(s: Series)
    requires Increasing(s)
    ensures Increasing(LastPoints(s))
  {
  }

  /** A series that misses the first point of another has the same last points, once both are long. */
  lemma LastPointsCatchUp(s: Series, t: Series)
    requires t != [] && SameTimes(s, t[1..])
    ensures var u, v := LastPoints(s), LastPoints(t); SameTimes(u, v) || (v != [] && SameTimes(u, v[1..]))
  {
    if |t| > MAX_POINTS {
      var u, v := LastPoints(s), LastPoints(t);
      forall i | 0 <= i < |u| ensures u[i].time == v[i].time {
        assert v[i] == t[1..][|t| - MAX_POINTS + i - 1];
      }
    }
  }

  lemma LastPointsAligned(v: View)
    requires Aligned(v)
    ensures Aligned(Capped(v))
  {
    LastPointsSameTimes(v.cpu, v.received);
    LastPointsSameTimes(v.cpu, v.ratio);
    if SameTimes(v.cpu, v.memory) { LastPointsSameTimes(v.cpu, v.memory); } else { LastPointsCatchUp(v.cpu, v.memory); }
    LastPointsIncreasing(v.memory);
    LastPointsIncreasing(v.cpu);
  }

  lemma {:induction false} LatestTime(events: seq<Event>, n: nat) returns (now: int)
    requires n <= |events|
    ensures forall i :: 0 <= i < n && events[i].Scrape? ==> events[i].sample.at <= now
  {
    now := 0;
    if n > 0 {
      now := LatestTime(events, n - 1);
      if events[n - 1].Scrape? && events[n - 1].sample.at > now { now := events[n - 1].sample.at; }
    }
  }

  /**
   After any run, an agent's rate series carry the same times, a suffix of the memory series that
   misses at most one point; times strictly increase, no series exceeds the cap, no rate is negative.
   */
  lemma HistoriesStayAligned(events: seq<Event>, n: nat, uid: Uid)
    requires n <= |events| && ClockRuns(events)
    ensures var v := ViewOf(Replay(events, n, true).views, uid);
            && Aligned(v) && |v.memory| - 1 <= |v.cpu| <= |v.memory| <= MAX_POINTS
  {
    CapKeepsLatest(events, n, uid);
    var now := LatestTime(events, n);
    UncappedAligned(events, n, uid, now);
    LastPointsAligned(ViewOf(Replay(events, n, false).views, uid));
  }

  // ---------------------------------------------------------------- what the points say

  lemma QuotientTimes(x: real, t: real)
    requires t > 0.0
    ensures x / t * t == x
  {
  }

  /** A counter's increase, or nothing when it went down. */
  function Increase(cur: real, prev: real): real { if cur >= prev then cur - prev else 0.0 }

  /** The series gained one point. */
  predicate Gained(before: Series, after: Series, p: Point) { after == before + [p] }

  /**
   What a scrape adds to the uncapped histories. A rate times the seconds since the scrape before is
   the counter's increase, nothing after a decrease. The ratio times all points exported since then is
   those sent; it is zero when none were exported on balance.
   */
  lemma PointsMeanIncreases(s: Scraped, uid: Uid, cur: Sample)
    requires uid in s.prevs && cur.at > s.prevs[uid].at
    ensures var prev, v := s.prevs[uid], ViewOf(s.views, uid);
            var w := ViewOf(AfterScrape(s, uid, cur, false).views, uid);
            var seconds := (cur.at - prev.at) as real / 1000000000.0;
            exists c, r, x ::
              && Gained(v.cpu, w.cpu, Point(cur.at, c)) && c * seconds == Increase(cur.cpu, prev.cpu)
              && Gained(v.received, w.received, Point(cur.at, r))
              && r * seconds == Increase(cur.received, prev.received)
              && Gained(v.memory, w.memory, Point(cur.at, cur.memory))
              && Gained(v.ratio, w.ratio, Point(cur.at, x))
              && (cur.cpu < prev.cpu ==> c == 0.0) && (cur.received < prev.received ==> r == 0.0)
              && var exported := (cur.sent - prev.sent) + (cur.failed - prev.failed);
                 if exported > 0.0 then x * exported == cur.sent - prev.sent else x == 0.0
  {
    var prev, v := s.prevs[uid], ViewOf(s.views, uid);
    var w := ViewOf(AfterScrape(s, uid, cur, false).views, uid);
    var seconds := Seconds(cur.at - prev.at);
    var c, r := Rate(cur.cpu, prev.cpu, seconds), Rate(cur.received, prev.received, seconds);
    var x := SuccessRatio(cur, prev);
    QuotientTimes(cur.cpu - prev.cpu, seconds);
    QuotientTimes(cur.received - prev.received, seconds);
    var exported := cur.sent + cur.failed - prev.sent - prev.failed;
    if exported > 0.0 { QuotientTimes(cur.sent - prev.sent, exported); }
    assert Gained(v.cpu, w.cpu, Point(cur.at, c)) && Gained(v.received, w.received, Point(cur.at, r));
    assert Gained(v.memory, w.memory, Point(cur.at, cur.memory)) && Gained(v.ratio, w.ratio, Point(cur.at, x));
  }

  /** An agent's first scrape records the memory gauge alone. */
  lemma FirstPointIsMemory(s: Scraped, uid: Uid, cur: Sample)
    requires uid !in s.prevs
    ensures var v, w := ViewOf(s.views, uid), ViewOf(AfterScrape(s, uid, cur, false).views, uid);
            Gained(v.memory, w.memory, Point(cur.at, cur.memory))
            && w.cpu == v.cpu && w.received == v.received && w.ratio == v.ratio
  {
  }

  predicate IsScrapeOf(e: Event, uid: Uid) { e.Scrape? && e.uid == uid }

  /** Event `j` is the agent's latest scrape before event `n`. */
  ghost predicate LatestScrape(events: seq<Event>, j: int, n: nat, uid: Uid) {
    0 <= j < n <= |events| && IsScrapeOf(events[j], uid) && forall i :: j < i < n ==> !IsScrapeOf(events[i], uid)
  }

  /** A scrape is compared with the one before it, recorded or not; prunes do not matter. */
  lemma {:induction false} PrevIsLatestScrape(events: seq<Event>, j: int, n: nat, uid: Uid, capped: bool)
    requires LatestScrape(events, j, n, uid)
    ensures var prevs := Replay(events, n, capped).prevs; uid in prevs && prevs[uid] == events[j].sample
  {
    if j < n - 1 { PrevIsLatestScrape(events, j, n - 1, uid, capped); }
  }

  /** A scrape adds points exactly when it is later than the agent's latest one before. */
  lemma OnlyLaterScrapesRecord(events: seq<Event>, j: int, n: nat, uid: Uid)
    requires n < |events| && IsScrapeOf(events[n], uid) && LatestScrape(events, j, n, uid)
    ensures var v, w := ViewOf(Replay(events, n, false).views, uid), ViewOf(Replay(events, n + 1, false).views, uid);
            if events[n].sample.at <= events[j].sample.at then w == v
            else
              && |w.cpu| == |v.cpu| + 1 && |w.received| == |v.received| + 1 && |w.ratio| == |v.ratio| + 1
              && |w.memory| == |v.memory| + 1 && w.updatedAt == events[n].sample.at
  {
    PrevIsLatestScrape(events, j, n, uid, false);
  }

  /** The first `n` rates times the seconds between the scrapes, added up. */
  function Integral(rates: Series, scrapes: Series, n: nat): real
    requires n <= |rates| < |scrapes|
  {
    if n == 0 then 0.0
    else
      Integral(rates, scrapes, n - 1) +
      rates[n - 1].value * ((scrapes[n].time - scrapes[n - 1].time) as real / 1000000000.0)
  }

  lemma {:induction false} IntegralOfLonger(rates: Series, scrapes: Series, p: Point, q: Point, n: nat)
    requires n <= |rates| < |scrapes|
    ensures Integral(rates + [p], scrapes + [q], n) == Integral(rates, scrapes, n)
  {
    if n > 0 { IntegralOfLonger(rates, scrapes, p, q, n - 1); }
  }

  lemma IntegralOfMore(rates: Series, scrapes: Series, p: Point, q: Point)
    requires |scrapes| == |rates| + 1
    ensures Integral(rates + [p], scrapes + [q], |rates| + 1) ==
            Integral(rates, scrapes, |rates|) + p.value * ((q.time - scrapes[|rates|].time) as real / 1000000000.0)
  {
    IntegralOfLonger(rates, scrapes, p, q, |rates|);
  }

  /** The scrape is later than the agent's last one and sees no counter of it below the last value. */
  predicate Advances(s: Scraped, e: Event, uid: Uid) {
    match e
    case Scrape(u, cur) =>
      u == uid && uid in s.prevs ==>
        cur.at > s.prevs[uid].at && cur.cpu >= s.prevs[uid].cpu && cur.received >= s.prevs[uid].received
    case Prune(live) => uid in live
  }

  /** The agent stays a target, and every scrape of it advances. */
  ghost predicate Steady(events: seq<Event>, n: nat, uid: Uid)
    requires n <= |events|
  {
    n > 0 ==> Steady(events, n - 1, uid) && Advances(Replay(events, n - 1, false), events[n - 1], uid)
  }

  /** The agent's first sample. */
  function FirstSample(events: seq<Event>, n: nat, uid: Uid): (r: seq<Sample>)
    requires n <= |events|
    ensures |r| <= 1
  {
    if n == 0 then []
    else
      var before := FirstSample(events, n - 1, uid);
      if before == [] && events[n - 1].Scrape? && events[n - 1].uid == uid then [events[n - 1].sample] else before
  }

  lemma IntegralStep(v: View, first: Sample, prev: Sample, cur: Sample)
    requires cur.at > prev.at && cur.cpu >= prev.cpu && cur.received >= prev.received
    requires |v.memory| == |v.cpu| + 1 == |v.received| + 1 && v.memory[|v.cpu|].time == prev.at
    requires Integral(v.cpu, v.memory, |v.cpu|) == prev.cpu - first.cpu
    requires Integral(v.received, v.memory, |v.received|) == prev.received - first.received
    ensures var w := RatesRecorded(v, cur, prev, false);
            && |w.memory| == |w.cpu| + 1 == |w.received| + 1 && w.memory[|w.cpu|].time == cur.at
            && Integral(w.cpu, w.memory, |w.cpu|) == cur.cpu - first.cpu
            && Integral(w.received, w.memory, |w.received|) == cur.received - first.received
  {
    var seconds := Seconds(cur.at - prev.at);
    var m := Point(cur.at, cur.memory);
    IntegralOfMore(v.cpu, v.memory, Point(cur.at, Rate(cur.cpu, prev.cpu, seconds)), m);
    IntegralOfMore(v.received, v.memory, Point(cur.at, Rate(cur.received, prev.received, seconds)), m);
    QuotientTimes(cur.cpu - prev.cpu, seconds);
    QuotientTimes(cur.received - prev.received, seconds);
  }

  /**
   The rates add up. For an agent whose counters never went down, every rate times the seconds between
   its scrape and the one before, summed over the uncapped history, is the last counter less the first.
   */
  lemma {:induction false} RatesAddUp(events: seq<Event>, n: nat, uid: Uid)
    requires n <= |events| && Steady(events, n, uid)
    ensures var s, first := Replay(events, n, false), FirstSample(events, n, uid);
            var v := ViewOf(s.views, uid);
            if first == [] then uid !in s.prevs && v == NO_VIEW
            else
              && uid in s.prevs && |v.memory| == |v.cpu| + 1 == |v.received| + 1
              && v.memory[|v.cpu|].time == s.prevs[uid].at
              && Integral(v.cpu, v.memory, |v.cpu|) == s.prevs[uid].cpu - first[0].cpu
              && Integral(v.received, v.memory, |v.received|) == s.prevs[uid].received - first[0].received
  {
    if n > 0 {
      RatesAddUp(events, n - 1, uid);
      var s, e := Replay(events, n - 1, false), events[n - 1];
      if e.Scrape? && e.uid == uid && uid in s.prevs {
        IntegralStep(ViewOf(s.views, uid), FirstSample(events, n - 1, uid)[0], s.prevs[uid], e.sample);
      }
    }
  }

  // ---------------------------------------------------------------- the success ratio

  lemma UnitFraction(part: real, total: real)
    requires total > 0.0
    ensures 0.0 <= part / total <= 1.0 <==> 0.0 <= part <= total
  {
    var r := part / total;
    SignOfProduct(r, total);
    SignOfProduct(1.0 - r, total);
    assert r * total == part && (1.0 - r) * total == total - part;
  }

  /** The ratio lies in the unit interval exactly when nothing was exported on balance or neither counter went down. */
  lemma RatioInUnitIff(cur: Sample, prev: Sample)
    ensures 0.0 <= SuccessRatio(cur, prev) <= 1.0 <==>
            cur.sent + cur.failed <= prev.sent + prev.failed || (cur.sent >= prev.sent && cur.failed >= prev.failed)
  {
    var total := cur.sent + cur.failed - prev.sent - prev.failed;
    if total > 0.0 { UnitFraction(cur.sent - prev.sent, total); }
  }

  /** A collector restart can push the ratio outside the unit interval. */
  lemma RatioCanExceedOne() returns (cur: Sample, prev: Sample)
    ensures cur.sent >= prev.sent && SuccessRatio(cur, prev) > 1.0
  {
    prev := Sample(0, 0.0, 0.0, 0.0, 5.0, 0.0);
    cur := Sample(1, 0.0, 0.0, 10.0, 0.0, 0.0);
  }

  /** The scrape, if it is one of this agent, does not see an exporter counter below its previous value. */
  predicate CountsUp(s: Scraped, e: Event, uid: Uid) {
    e.Scrape? && e.uid == uid && uid in s.prevs ==>
      e.sample.sent >= s.prevs[uid].sent && e.sample.failed >= s.prevs[uid].failed
  }

  /** None of the first `n` events saw an exporter counter below its previous value. */
  ghost predicate NoReset(events: seq<Event>, n: nat, uid: Uid)
    requires n <= |events|
  {
    n > 0 ==> NoReset(events, n - 1, uid) && CountsUp(Replay(events, n - 1, false), events[n - 1], uid)
  }

  ghost predicate UnitRatios(s: Series) {
    forall i :: 0 <= i < |s| ==> 0.0 <= s[i].value <= 1.0
  }

  lemma UnitRatioAppended(s: Series, cur: Sample, prev: Sample)
    requires UnitRatios(s) && cur.sent >= prev.sent && cur.failed >= prev.failed
    ensures UnitRatios(s + [Point(cur.at, SuccessRatio(cur, prev))])
  {
    RatioInUnitIff(cur, prev);
  }

  lemma UnitRatiosStep(s: Scraped, e: Event, uid: Uid)
    requires CountsUp(s, e, uid) && UnitRatios(ViewOf(s.views, uid).ratio)
    ensures UnitRatios(ViewOf(After(s, e, false).views, uid).ratio)
  {
    if e.Scrape? && e.uid == uid && uid in s.prevs {
      UnitRatioAppended(ViewOf(s.views, uid).ratio, e.sample, s.prevs[uid]);
    }
  }

  lemma {:induction false} UncappedUnitRatios(events: seq<Event>, n: nat, uid: Uid)
    requires n <= |events| && NoReset(events, n, uid)
    ensures UnitRatios(ViewOf(Replay(events, n, false).views, uid).ratio)
  {
    if n > 0 {
      UncappedUnitRatios(events, n - 1, uid);
      UnitRatiosStep(Replay(events, n - 1, false), events[n - 1], uid);
    }
  }

  /** Without a counter decrease every stored ratio lies between 0 and 1. */
  lemma RatiosAreRatios(events: seq<Event>, n: nat, uid: Uid)
    requires n <= |events| && NoReset(events, n, uid)
    ensures UnitRatios(ViewOf(Replay(events, n, true).views, uid).ratio)
  {
    UncappedUnitRatios(events, n, uid);
    CapKeepsLatest(events, n, uid);
  }
}
