/**
 The metrics store with Go's slices made explicit: a memory of backing arrays, series that are
 slices of them, appends that write in place when the array has room, and snapshots handed to
 readers that share the arrays.
 */
module MetricsStore {
  import opened Common
  import opened MetricsHistory

  /** Backing arrays by number; allocation adds one at the end. */
  type Memory = seq<Series>

  /** `len` elements of an array from `off` on; the capacity ends with the array. */
  datatype Slice = NilSlice | Slice(arr: nat, off: nat, len: nat) {
    /** The index in the array just behind the slice. */
    function End(): nat { if Slice? then off + len else 0 }

    function Len(): nat { if Slice? then len else 0 }
  }

  predicate InBounds(mem: Memory, s: Slice) {
    s.Slice? ==> s.arr < |mem| && s.End() <= |mem[s.arr]|
  }

  /** The elements of a slice. */
  function Show(mem: Memory, s: Slice): Series
    requires InBounds(mem, s)
  {
    if s.Slice? then mem[s.arr][s.off..s.End()] else []
  }

  function Zeros(n: nat): Series {
    seq(n, _ => Point(0, 0.0))
  }

  /** Go's `append`: in place behind the slice while its array has room, else into a new array with `spare` room. */
  function Pushed(mem: Memory, s: Slice, p: Point, spare: nat): (Memory, Slice)
    requires InBounds(mem, s)
  {
    if s.Slice? && s.End() < |mem[s.arr]|
    then (mem[s.arr := mem[s.arr][s.End() := p]], Slice(s.arr, s.off, s.len + 1))
    else (mem + [Show(mem, s) + [p] + Zeros(spare)], Slice(|mem|, 0, s.Len() + 1))
  }

  /** The re-slice that keeps the last points. */
  function Tail(s: Slice): Slice {
    if s.Len() > MAX_POINTS then Slice(s.arr, s.End() - MAX_POINTS, MAX_POINTS) else s
  }

  datatype Kind = Cpu | Memory | Received | Ratio

  datatype Snapshot = Snapshot(updatedAt: int, cpu: Slice, memory: Slice, received: Slice, ratio: Slice) {
    function Part(k: Kind): Slice {
      match k case Cpu => cpu case Memory => memory case Received => received case Ratio => ratio
    }

    function With(k: Kind, s: Slice): Snapshot {
      match k
      case Cpu => this.(cpu := s)
      case Memory => this.(memory := s)
      case Received => this.(received := s)
      case Ratio => this.(ratio := s)
    }
  }

  const EMPTY := Snapshot(0, NilSlice, NilSlice, NilSlice, NilSlice)

  type Snapshots = map<Uid, Snapshot>

  function PartAt(ids: Snapshots, uid: Uid, k: Kind): Slice {
    if uid in ids then ids[uid].Part(k) else NilSlice
  }

  /** A slice a reader holds, with the points it showed when it was handed out. */
  datatype Handout = Handout(slice: Slice, points: Series)

  // ---------------------------------------------------------------- what sharing must respect

  ghost predicate Bounded(mem: Memory, ids: Snapshots) {
    forall uid, k :: InBounds(mem, PartAt(ids, uid, k))
  }

  /** No two series grow in the same array. */
  ghost predicate Apart(ids: Snapshots) {
    forall u, k, v, l :: (u, k) != (v, l) && PartAt(ids, u, k).Slice? && PartAt(ids, v, l).Slice? ==>
      PartAt(ids, u, k).arr != PartAt(ids, v, l).arr
  }

  /** A reader's slice still shows what it showed and ends no later than the series that grows in its array. */
  ghost predicate Intact(mem: Memory, ids: Snapshots, h: Handout) {
    && InBounds(mem, h.slice) && Show(mem, h.slice) == h.points
    && forall uid, k :: h.slice.Slice? && PartAt(ids, uid, k).Slice? && PartAt(ids, uid, k).arr == h.slice.arr ==>
         h.slice.End() <= PartAt(ids, uid, k).End()
  }

  ghost predicate Sound(mem: Memory, ids: Snapshots, handed: set<Handout>) {
    Bounded(mem, ids) && Apart(ids) && forall h :: h in handed ==> Intact(mem, ids, h)
  }

  lemma PushedShows(mem: Memory, s: Slice, p: Point, spare: nat)
    requires InBounds(mem, s)
    ensures var (mem', r) := Pushed(mem, s, p, spare);
            InBounds(mem', r) && Show(mem', r) == Show(mem, s) + [p] && r.Slice? && r.len >= 1
  {
    var (mem', r) := Pushed(mem, s, p, spare);
    if r.arr == |mem| { assert mem'[r.arr][..r.End()] == Show(mem, s) + [p]; }
  }

  /** An in-place write lands behind every other slice of the array that ends where the written one did, or before. */
  lemma PushedKeeps(mem: Memory, s: Slice, p: Point, spare: nat, t: Slice)
    requires InBounds(mem, s) && InBounds(mem, t)
    requires s.Slice? && t.Slice? && t.arr == s.arr ==> t.End() <= s.End()
    ensures var (mem', r) := Pushed(mem, s, p, spare);
            InBounds(mem', t) && Show(mem', t) == Show(mem, t)
  {
  }

  lemma TailShows(mem: Memory, s: Slice)
    requires InBounds(mem, s) && s.Slice?
    ensures InBounds(mem, Tail(s)) && Show(mem, Tail(s)) == LastPoints(Show(mem, s)) && Tail(s).End() == s.End()
  {
  }

  /** One series of one agent grows by a point. */
  function Grown(mem: Memory, ids: Snapshots, uid: Uid, k: Kind, p: Point, spare: nat): (Memory, Snapshots)
    requires InBounds(mem, PartAt(ids, uid, k))
  {
    var (mem', r) := Pushed(mem, PartAt(ids, uid, k), p, spare);
    (mem', ids[uid := (if uid in ids then ids[uid] else EMPTY).With(k, Tail(r))])
  }

  lemma GrownPart(mem: Memory, ids: Snapshots, uid: Uid, k: Kind, p: Point, spare: nat, u: Uid, l: Kind)
    requires InBounds(mem, PartAt(ids, uid, k))
    ensures PartAt(Grown(mem, ids, uid, k, p, spare).1, u, l) ==
            if u == uid && l == k then Tail(Pushed(mem, PartAt(ids, uid, k), p, spare).1) else PartAt(ids, u, l)
  {
  }

  lemma GrownShows(mem: Memory, ids: Snapshots, uid: Uid, k: Kind, p: Point, spare: nat, u: Uid, l: Kind)
    requires Bounded(mem, ids) && Apart(ids)
    ensures var (mem', ids') := Grown(mem, ids, uid, k, p, spare);
            && InBounds(mem', PartAt(ids', u, l))
            && Show(mem', PartAt(ids', u, l)) ==
               if u == uid && l == k then Append(Show(mem, PartAt(ids, u, l)), p, true)
               else Show(mem, PartAt(ids, u, l))
  {
    var s := PartAt(ids, uid, k);
    GrownPart(mem, ids, uid, k, p, spare, u, l);
    if u == uid && l == k {
      PushedShows(mem, s, p, spare);
      TailShows(Pushed(mem, s, p, spare).0, Pushed(mem, s, p, spare).1);
    } else {
      PushedKeeps(mem, s, p, spare, PartAt(ids, u, l));
    }
  }

  lemma GrownEnds(mem: Memory, ids: Snapshots, uid: Uid, k: Kind, p: Point, spare: nat)
    requires InBounds(mem, PartAt(ids, uid, k))
    ensures var s, r := PartAt(ids, uid, k), PartAt(Grown(mem, ids, uid, k, p, spare).1, uid, k);
            r.Slice? && ((s.Slice? && r.arr == s.arr && r.End() == s.End() + 1) || r.arr == |mem|)
  {
    GrownPart(mem, ids, uid, k, p, spare, uid, k);
    PushedShows(mem, PartAt(ids, uid, k), p, spare);
    TailShows(Pushed(mem, PartAt(ids, uid, k), p, spare).0, Pushed(mem, PartAt(ids, uid, k), p, spare).1);
  }

  lemma GrownKeepsHandout(mem: Memory, ids: Snapshots, uid: Uid, k: Kind, p: Point, spare: nat, h: Handout)
    requires Bounded(mem, ids) && Intact(mem, ids, h)
    ensures var (mem', ids') := Grown(mem, ids, uid, k, p, spare); Intact(mem', ids', h)
  {
    var (mem', ids') := Grown(mem, ids, uid, k, p, spare);
    PushedKeeps(mem, PartAt(ids, uid, k), p, spare, h.slice);
    GrownEnds(mem, ids, uid, k, p, spare);
    forall u, l | h.slice.Slice? && PartAt(ids', u, l).Slice? && PartAt(ids', u, l).arr == h.slice.arr
      ensures h.slice.End() <= PartAt(ids', u, l).End()
    {
      GrownPart(mem, ids, uid, k, p, spare, u, l);
    }
  }

  lemma GrownStaysApart(mem: Memory, ids: Snapshots, uid: Uid, k: Kind, p: Point, spare: nat)
    requires Bounded(mem, ids) && Apart(ids)
    ensures Apart(Grown(mem, ids, uid, k, p, spare).1)
  {
    var ids' := Grown(mem, ids, uid, k, p, spare).1;
    GrownEnds(mem, ids, uid, k, p, spare);
    forall u, l, v, m | (u, l) != (v, m) && PartAt(ids', u, l).Slice? && PartAt(ids', v, m).Slice?
      ensures PartAt(ids', u, l).arr != PartAt(ids', v, m).arr
    {
      GrownPart(mem, ids, uid, k, p, spare, u, l);
      GrownPart(mem, ids, uid, k, p, spare, v, m);
      assert InBounds(mem, PartAt(ids, u, l)) && InBounds(mem, PartAt(ids, v, m));
    }
  }

  /** Growing a series keeps the layout sound: no snapshot that was handed out is altered. */
  lemma GrownStaysSound(mem: Memory, ids: Snapshots, handed: set<Handout>, uid: Uid, k: Kind, p: Point, spare: nat)
    requires Sound(mem, ids, handed)
    ensures var (mem', ids') := Grown(mem, ids, uid, k, p, spare); Sound(mem', ids', handed)
  {
    var (mem', ids') := Grown(mem, ids, uid, k, p, spare);
    forall u, l ensures InBounds(mem', PartAt(ids', u, l)) { GrownShows(mem, ids, uid, k, p, spare, u, l); }
    GrownStaysApart(mem, ids, uid, k, p, spare);
    forall h | h in handed ensures Intact(mem', ids', h) { GrownKeepsHandout(mem, ids, uid, k, p, spare, h); }
  }

  // ---------------------------------------------------------------- the store

  /** What a reader sees of an agent. */
  function Seen(mem: Memory, snap: Snapshot): View
    requires forall k :: InBounds(mem, snap.Part(k))
  {
    View(snap.updatedAt, Show(mem, snap.Part(Cpu)), Show(mem, snap.Part(Memory)),
         Show(mem, snap.Part(Received)), Show(mem, snap.Part(Ratio)))
  }

  /** The four slices of a snapshot, each with what it shows. */
  ghost function Handouts(mem: Memory, snap: Snapshot): set<Handout>
    requires forall k :: InBounds(mem, snap.Part(k))
  {
    set k: Kind | true :: Handout(snap.Part(k), Show(mem, snap.Part(k)))
  }

  function PartOf(v: View, k: Kind): Series {
    match k case Cpu => v.cpu case Memory => v.memory case Received => v.received case Ratio => v.ratio
  }

  function WithPart(v: View, k: Kind, s: Series): View {
    match k
    case Cpu => v.(cpu := s)
    case Memory => v.(memory := s)
    case Received => v.(received := s)
    case Ratio => v.(ratio := s)
  }

  /** One more point in one series. */
  function WithPoint(v: View, k: Kind, p: Point): View {
    WithPart(v, k, Append(PartOf(v, k), p, true))
  }

  /** What readers see of every agent. */
  function AllSeen(mem: Memory, ids: Snapshots): Views
    requires Bounded(mem, ids)
  {
    map uid | uid in ids :: (assert forall k :: ids[uid].Part(k) == PartAt(ids, uid, k); Seen(mem, ids[uid]))
  }

  lemma SeenPart(mem: Memory, ids: Snapshots, uid: Uid, k: Kind)
    requires Bounded(mem, ids)
    ensures PartOf(ViewOf(AllSeen(mem, ids), uid), k) == Show(mem, PartAt(ids, uid, k))
  {
  }

  lemma GrownSeenPart(mem: Memory, ids: Snapshots, uid: Uid, k: Kind, p: Point, spare: nat,
                      u: Uid, l: Kind, mem': Memory, ids': Snapshots)
    requires Bounded(mem, ids) && Apart(ids) && (mem', ids') == Grown(mem, ids, uid, k, p, spare) && Bounded(mem', ids')
    ensures var v := PartOf(ViewOf(AllSeen(mem, ids), u), l);
            PartOf(ViewOf(AllSeen(mem', ids'), u), l) == if u == uid && l == k then Append(v, p, true) else v
  {
    GrownShows(mem, ids, uid, k, p, spare, u, l);
    SeenPart(mem', ids', u, l);
    SeenPart(mem, ids, u, l);
  }

  lemma GrownSeenAt(mem: Memory, ids: Snapshots, uid: Uid, k: Kind, p: Point, spare: nat,
                    u: Uid, mem': Memory, ids': Snapshots)
    requires Bounded(mem, ids) && Apart(ids) && (mem', ids') == Grown(mem, ids, uid, k, p, spare) && Bounded(mem', ids')
    ensures ViewOf(AllSeen(mem', ids'), u) ==
            if u == uid then WithPoint(ViewOf(AllSeen(mem, ids), uid), k, p) else ViewOf(AllSeen(mem, ids), u)
  {
    GrownSeenPart(mem, ids, uid, k, p, spare, u, Cpu, mem', ids');
    GrownSeenPart(mem, ids, uid, k, p, spare, u, Memory, mem', ids');
    GrownSeenPart(mem, ids, uid, k, p, spare, u, Received, mem', ids');
    GrownSeenPart(mem, ids, uid, k, p, spare, u, Ratio, mem', ids');
  }

  lemma UpdatedView(before: Views, after: Views, uid: Uid, v: View)
    requires forall u :: u in after <==> u in before || u == uid
    requires forall u :: ViewOf(after, u) == if u == uid then v else ViewOf(before, u)
    ensures after == before[uid := v]
  {
    assert forall u :: u in after ==> after[u] == ViewOf(after, u);
    assert forall u :: u in before ==> before[u] == ViewOf(before, u);
  }

  /** In terms of what readers see, growing a series appends one point to it and does nothing else. */
  lemma GrownSeen(mem: Memory, ids: Snapshots, uid: Uid, k: Kind, p: Point, spare: nat, mem': Memory, ids': Snapshots)
    requires Bounded(mem, ids) && Apart(ids) && (mem', ids') == Grown(mem, ids, uid, k, p, spare) && Bounded(mem', ids')
    ensures AllSeen(mem', ids') == AllSeen(mem, ids)[uid := WithPoint(ViewOf(AllSeen(mem, ids), uid), k, p)]
  {
    var before, after := AllSeen(mem, ids), AllSeen(mem', ids');
    forall u ensures ViewOf(after, u) == if u == uid then WithPoint(ViewOf(before, uid), k, p) else ViewOf(before, u) {
      GrownSeenAt(mem, ids, uid, k, p, spare, u, mem', ids');
    }
    UpdatedView(before, after, uid, WithPoint(ViewOf(before, uid), k, p));
  }

  /** The four appends of one scrape, in the order the scraper makes them. */
  lemma FourPoints(v: View, cur: Sample, prev: Sample)
    requires cur.at > prev.at
    ensures var seconds := Seconds(cur.at - prev.at);
            WithPoint(WithPoint(WithPoint(WithPoint(v.(updatedAt := cur.at),
              Cpu, Point(cur.at, Rate(cur.cpu, prev.cpu, seconds))),
              Memory, Point(cur.at, cur.memory)),
              Received, Point(cur.at, Rate(cur.received, prev.received, seconds))),
              Ratio, Point(cur.at, SuccessRatio(cur, prev)))
            == RatesRecorded(v, cur, prev, true)
  {
  }

  /** Successive updates of one entry amount to the last one. */
  lemma FiveUpdates(v0: Views, v1: Views, v2: Views, v3: Views, v4: Views, v5: Views, uid: Uid)
    requires uid in v1 && uid in v2 && uid in v3 && uid in v4 && uid in v5
    requires v1 == v0[uid := v1[uid]] && v2 == v1[uid := v2[uid]] && v3 == v2[uid := v3[uid]]
    requires v4 == v3[uid := v4[uid]] && v5 == v4[uid := v5[uid]]
    ensures v5 == v0[uid := v5[uid]]
  {
  }

  lemma SamePartsSound(mem: Memory, ids: Snapshots, ids': Snapshots, handed: set<Handout>)
    requires Sound(mem, ids, handed) && forall u, k :: PartAt(ids', u, k) == PartAt(ids, u, k)
    ensures Sound(mem, ids', handed)
  {
    forall h | h in handed ensures Intact(mem, ids', h) {
      assert Intact(mem, ids, h);
    }
  }

  lemma StampedSeen(mem: Memory, ids: Snapshots, uid: Uid, now: int)
    requires Bounded(mem, ids)
    ensures var ids' := ids[uid := (if uid in ids then ids[uid] else EMPTY).(updatedAt := now)];
            && (forall u, k :: PartAt(ids', u, k) == PartAt(ids, u, k))
            && Bounded(mem, ids')
            && AllSeen(mem, ids') == AllSeen(mem, ids)[uid := ViewOf(AllSeen(mem, ids), uid).(updatedAt := now)]
  {
    var ids' := ids[uid := (if uid in ids then ids[uid] else EMPTY).(updatedAt := now)];
    assert forall u, k :: PartAt(ids', u, k) == PartAt(ids, u, k);
    forall u | u in ids'
      ensures ViewOf(AllSeen(mem, ids'), u) ==
              if u == uid then ViewOf(AllSeen(mem, ids), u).(updatedAt := now) else ViewOf(AllSeen(mem, ids), u)
    {
    }
    assert forall u :: u in ids' ==> AllSeen(mem, ids')[u] == ViewOf(AllSeen(mem, ids'), u);
    assert forall u :: u in ids ==> AllSeen(mem, ids)[u] == ViewOf(AllSeen(mem, ids), u);
  }

  class Store {
    var memory: Memory
    var byId: Snapshots
    ghost var handed: set<Handout>

    ghost predicate Valid()
      reads this
    {
      Sound(memory, byId, handed)
    }

    ghost function Contents(): Views
      requires Valid()
      reads this
    {
      AllSeen(memory, byId)
    }

    constructor ()
      ensures Valid() && byId == map[] && handed == {}
    {
      memory, byId, handed := [], map[], {};
    }

    /** Go's `append` on a slice of the store's memory. */
    method Push(s: Slice, p: Point, spare: nat) returns (r: Slice)
      requires InBounds(memory, s)
      modifies this`memory
      ensures (memory, r) == Pushed(old(memory), s, p, spare)
    {
      if s.Slice? && s.End() < |memory[s.arr]| {
        memory := memory[s.arr := memory[s.arr][s.End() := p]];
        r := Slice(s.arr, s.off, s.len + 1);
      } else {
        r := Slice(|memory|, 0, s.Len() + 1);
        memory := memory + [Show(memory, s) + [p] + Zeros(spare)];
      }
    }

    /** Appends one point to one series of one agent, dropping the oldest beyond the cap. */
    method AppendCapped(uid: Uid, k: Kind, p: Point, spare: nat)
      requires Valid()
      modifies this
      ensures Valid() && handed == old(handed)
      ensures Contents() == old(Contents())[uid := WithPoint(ViewOf(old(Contents()), uid), k, p)]
    {
      var snap := if uid in byId then byId[uid] else EMPTY;
      assert snap.Part(k) == PartAt(byId, uid, k);
      GrownStaysSound(memory, byId, handed, uid, k, p, spare);
      var r := Push(snap.Part(k), p, spare);
      if r.len > MAX_POINTS {
        r := Slice(r.arr, r.off + r.len - MAX_POINTS, MAX_POINTS);
      }
      byId := byId[uid := snap.With(k, r)];
      GrownSeen(old(memory), old(byId), uid, k, p, spare, memory, byId);
    }

    /** Sets the time of the latest update. */
    method Stamp(uid: Uid, now: int)
      requires Valid()
      modifies this`byId
      ensures Valid() && handed == old(handed)
      ensures Contents() == old(Contents())[uid := ViewOf(old(Contents()), uid).(updatedAt := now)]
    {
      var snap := if uid in byId then byId[uid] else EMPTY;
      StampedSeen(memory, byId, uid, now);
      SamePartsSound(memory, byId, byId[uid := snap.(updatedAt := now)], handed);
      byId := byId[uid := snap.(updatedAt := now)];
    }

    /** The update after an agent's first scrape: the memory gauge alone. */
    method RecordFirst(uid: Uid, cur: Sample, spare: nat)
      requires Valid()
      modifies this
      ensures Valid() && handed == old(handed)
      ensures Contents() == old(Contents())[uid := FirstRecorded(ViewOf(old(Contents()), uid), cur, true)]
    {
      Stamp(uid, cur.at);
      AppendCapped(uid, Memory, Point(cur.at, cur.memory), spare);
    }

    /** The update after a later scrape: a point in every series. */
    method RecordRates(uid: Uid, cur: Sample, prev: Sample, spare: Kind -> nat)
      requires Valid() && cur.at > prev.at
      modifies this
      ensures Valid() && handed == old(handed)
      ensures Contents() == old(Contents())[uid := RatesRecorded(ViewOf(old(Contents()), uid), cur, prev, true)]
    {
      var seconds := Seconds(cur.at - prev.at);
      ghost var v0 := Contents();
      FourPoints(ViewOf(v0, uid), cur, prev);
      Stamp(uid, cur.at);
      ghost var v1 := Contents();
      AppendCapped(uid, Cpu, Point(cur.at, Rate(cur.cpu, prev.cpu, seconds)), spare(Cpu));
      ghost var v2 := Contents();
      AppendCapped(uid, Memory, Point(cur.at, cur.memory), spare(Memory));
      ghost var v3 := Contents();
      AppendCapped(uid, Received, Point(cur.at, Rate(cur.received, prev.received, seconds)), spare(Received));
      ghost var v4 := Contents();
      AppendCapped(uid, Ratio, Point(cur.at, SuccessRatio(cur, prev)), spare(Ratio));
      FiveUpdates(v0, v1, v2, v3, v4, Contents(), uid);
    }

    /** A reader's copy of a snapshot; from now on the reader holds its slices. */
    method Get(uid: Uid) returns (snap: Option<Snapshot>)
      requires Valid()
      modifies this`handed
      ensures Valid() && Contents() == old(Contents()) && handed >= old(handed)
      ensures snap == if uid in byId then Some(byId[uid]) else None
      ensures snap.Some? ==> forall k ::
                && InBounds(memory, snap.value.Part(k))
                && Handout(snap.value.Part(k), Show(memory, snap.value.Part(k))) in handed
    {
      if uid in byId {
        snap := Some(byId[uid]);
        assert forall k :: byId[uid].Part(k) == PartAt(byId, uid, k);
        handed := handed + Handouts(memory, byId[uid]);
      } else {
        snap := None;
      }
    }

    method Prune(live: set<Uid>)
      requires Valid()
      modifies this`byId
      ensures Valid() && Contents() == Pruned(old(Contents()), live)
      ensures forall uid :: uid in Contents() <==> uid in old(Contents()) && uid in live
      ensures forall uid :: uid in Contents() ==> Contents()[uid] == old(Contents())[uid]
    {
      var todo := byId.Keys;
      while todo != {}
        invariant todo <= byId.Keys <= old(byId).Keys
        invariant forall uid :: uid in old(byId) ==> (uid in byId <==> uid in todo || uid in live)
        invariant forall uid :: uid in byId ==> byId[uid] == old(byId)[uid]
        decreases todo
      {
        var uid :| uid in todo;
        if uid !in live {
          byId := byId - {uid};
        }
        todo := todo - {uid};
      }
      assert forall uid, k :: PartAt(byId, uid, k) == if uid in byId then PartAt(old(byId), uid, k) else NilSlice;
    }
  }

  // ---------------------------------------------------------------- the scraper

  /** A scrape target and what fetching it yields: a sample, or nothing when the fetch fails. */
  datatype Target = Target(uid: Uid, sample: Option<Sample>)

  /** The events of one round: every successful scrape in order, then the prune. */
  function RoundEvents(targets: seq<Target>): seq<Event> {
    if targets == [] then []
    else
      var last := targets[|targets| - 1];
      RoundEvents(targets[..|targets| - 1]) + if last.sample.Some? then [Scrape(last.uid, last.sample.value)] else []
  }

  function Uids(targets: seq<Target>): set<Uid> {
    set i | 0 <= i < |targets| :: targets[i].uid
  }

  function AfterAll(s: Scraped, events: seq<Event>): Scraped {
    if events == [] then s else After(AfterAll(s, events[..|events| - 1]), events[|events| - 1], true)
  }

  lemma RoundGrows(s: Scraped, targets: seq<Target>, i: nat)
    requires i < |targets|
    ensures var t, before := targets[i], AfterAll(s, RoundEvents(targets[..i]));
            AfterAll(s, RoundEvents(targets[..i + 1])) ==
            if t.sample.Some? then AfterScrape(before, t.uid, t.sample.value, true) else before
    ensures Uids(targets[..i + 1]) == Uids(targets[..i]) + {targets[i].uid}
  {
    var t, events := targets[i], RoundEvents(targets[..i]);
    assert targets[..i + 1][..i] == targets[..i];
    if t.sample.Some? {
      assert RoundEvents(targets[..i + 1]) == events + [Scrape(t.uid, t.sample.value)];
      assert (events + [Scrape(t.uid, t.sample.value)])[..|events|] == events;
    } else {
      assert RoundEvents(targets[..i + 1]) == events;
    }
    assert forall j :: 0 <= j < i ==> targets[..i + 1][j] == targets[..i][j];
    assert targets[..i + 1][i].uid == t.uid;
  }

  class Scraper {
    const store: Store
    var prevs: map<Uid, Sample>

    constructor (store: Store)
      ensures this.store == store && prevs == map[]
    {
      this.store, prevs := store, map[];
    }

    ghost function State(): Scraped
      requires store.Valid()
      reads this, store
    {
      Scraped(prevs, store.Contents())
    }

    method ScrapeOne(uid: Uid, cur: Sample, spare: Kind -> nat)
      requires store.Valid()
      modifies this, store
      ensures store.Valid() && store.handed == old(store.handed)
      ensures State() == AfterScrape(old(State()), uid, cur, true)
    {
      var hasPrev := uid in prevs;
      var prev := if hasPrev then prevs[uid] else cur;
      prevs := prevs[uid := cur];
      if !hasPrev {
        store.RecordFirst(uid, cur, spare(Memory));
        return;
      }
      if cur.at - prev.at <= 0 {
        return;
      }
      store.RecordRates(uid, cur, prev, spare);
    }

    /** One round: failed fetches change nothing, and agents that are no longer targets are dropped. */
    method ScrapeAll(targets: seq<Target>, spare: Kind -> nat)
      requires store.Valid()
      modifies this, store
      ensures store.Valid() && store.handed == old(store.handed)
      ensures State() == After(AfterAll(old(State()), RoundEvents(targets)), Event.Prune(Uids(targets)), true)
    {
      var live := {};
      for i := 0 to |targets|
        invariant store.Valid() && store.handed == old(store.handed)
        invariant live == Uids(targets[..i])
        invariant State() == AfterAll(old(State()), RoundEvents(targets[..i]))
      {
        var t := targets[i];
        RoundGrows(old(State()), targets, i);
        live := live + {t.uid};
        if t.sample.Some? {
          ScrapeOne(t.uid, t.sample.value, spare);
        }
      }
      assert targets[..|targets|] == targets;
      store.Prune(live);
    }
  }
}
