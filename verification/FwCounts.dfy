/** What the firewall counts over whole runs: packets, blocked flows and installed flows; the rate
    limit; and the verdict on a flow. */
module FwCounts {
  import opened FwTable
  import opened FwRate
  import opened FwDpi
  import opened FwModel
  import opened FwInv
  import opened FwRuns

  /** All that a packet-in changes outside the switches, sender tables and trust. */
  lemma PacketEffect(s: State, a: Step)
    requires a.PacketIn? && a.dpid in s.net
    ensures var r := Check(s, a.dpid, a.now, a.frame);
            && CheckEffect(s, a.dpid, a.now, a.frame, r)
            && Next(s, a).tracker == r.state.tracker && Next(s, a).patterns == s.patterns
            && Next(s, a).limit == s.limit && Next(s, a).window == s.window
            && Next(s, a).stats == (if r.verdict == Failed || r.verdict == Ignored then r.state.stats
                                    else Counted(r.state.stats.(total := r.state.stats.total + 1), r.verdict)
                                           .(trustInstalled := Next(s, a).stats.trustInstalled))
  {
    CheckDoes(s, a.dpid, a.now, a.frame);
    if Check(s, a.dpid, a.now, a.frame).verdict == Allowed {
      RouteDoes(Routing(s, a.dpid, a.now, a.frame), a.dpid, a.frame);
    }
  }

  // ---------- packets ----------

  /** Packets counted in total but under no outcome. */
  function Unexplained(t: Stats): int {
    t.total - (t.allowed + t.blocked + t.rateLimited + t.arpSpoof + t.scanDetected)
  }

  predicate DroppedByDpi(s: State, a: Step) {
    a.PacketIn? && a.dpid in s.net && Check(s, a.dpid, a.now, a.frame).verdict == DpiBlocked
  }

  /** The packets of the first `n` steps that inspection dropped. */
  function DpiDrops(ss: seq<State>, steps: seq<Step>, n: nat): nat
    requires n <= |steps| < |ss|
  {
    if n == 0 then 0 else DpiDrops(ss, steps, n - 1) + if DroppedByDpi(ss[n - 1], steps[n - 1]) then 1 else 0
  }

  lemma AccountStep(s: State, a: Step)
    ensures Unexplained(Next(s, a).stats) == Unexplained(s.stats) + if DroppedByDpi(s, a) then 1 else 0
  {
    if a.PacketIn? && a.dpid in s.net {
      PacketEffect(s, a);
    }
  }

  // ---------- blocked flows ----------

  /** Some flow became blocked. */
  ghost predicate BlocksFlow(s: State, s': State) {
    exists k :: FlowBlocked(s', k) && !FlowBlocked(s, k)
  }

  /** How often a flow became blocked in the first `n` steps. */
  ghost function Blockings(ss: seq<State>, n: nat): nat
    requires n < |ss|
  {
    if n == 0 then 0 else Blockings(ss, n - 1) + if BlocksFlow(ss[n - 1], ss[n]) then 1 else 0
  }

  /** Packet-ins block a flow exactly when the counter says so. */
  lemma PacketBlocks(s: State, a: Step)
    requires a.PacketIn? && a.dpid in s.net
    ensures Next(s, a).stats.dpiBlocked == s.stats.dpiBlocked + if BlocksFlow(s, Next(s, a)) then 1 else 0
  {
    var r := Check(s, a.dpid, a.now, a.frame);
    PacketEffect(s, a);
    if r.verdict == Allowed {
      RouteTrusts(Routing(s, a.dpid, a.now, a.frame), a.dpid, a.frame);
    }
    if r.verdict == DpiBlocked {
      var k := FrameKey(a.frame);
      assert FlowBlocked(Next(s, a), k);
      if EntryOf(s.trust, k).blocked {
        assert s.trust[k := EntryAfter(s, a.frame)] == s.trust;
      } else {
        assert !FlowBlocked(s, k);
      }
    }
  }

  lemma BlockingStep(s: State, a: Step)
    ensures Next(s, a).stats.dpiBlocked == s.stats.dpiBlocked + if BlocksFlow(s, Next(s, a)) then 1 else 0
  {
    if a.PacketIn? && a.dpid in s.net {
      PacketBlocks(s, a);
    }
  }

  // ---------- installed flows ----------

  /** The flows installed since the last full flush. */
  function InstallsSince(ss: seq<State>, steps: seq<Step>, n: nat): nat
    requires n <= |steps| < |ss|
  {
    if n == 0 || AddsPattern(ss[n - 1], steps[n - 1]) then 0
    else InstallsSince(ss, steps, n - 1) + if Installs(ss[n - 1], steps[n - 1]) then 1 else 0
  }

  lemma PacketInstalls(s: State, a: Step)
    requires a.PacketIn? && a.dpid in s.net
    ensures Next(s, a).stats.trustInstalled == s.stats.trustInstalled + if Installs(s, a) then 1 else 0
  {
    var r := Check(s, a.dpid, a.now, a.frame);
    PacketEffect(s, a);
    if r.verdict == Allowed {
      RouteTrusts(Routing(s, a.dpid, a.now, a.frame), a.dpid, a.frame);
    }
  }

  lemma InstallStep(s: State, a: Step)
    ensures Next(s, a).stats.trustInstalled ==
              if AddsPattern(s, a) then 0 else s.stats.trustInstalled + if Installs(s, a) then 1 else 0
  {
    if a.PacketIn? && a.dpid in s.net {
      PacketInstalls(s, a);
    }
  }

  /** After every run: each packet counted is explained by one outcome or was dropped by inspection;
      the inspection counter counts the flows that became blocked; and the trust counter counts the
      flows installed since the last full flush, which no fewer than are installed now. */
  lemma {:induction false} Accounting(ss: seq<State>, steps: seq<Step>, n: nat)
    requires IsRun(ss, steps) && n < |ss|
    ensures Unexplained(ss[n].stats) == DpiDrops(ss, steps, n)
    ensures ss[n].stats.dpiBlocked == Blockings(ss, n)
    ensures |InstalledKeys(ss[n].trust)| <= ss[n].stats.trustInstalled == InstallsSince(ss, steps, n)
  {
    AlwaysInv(ss, steps, n);
    if n > 0 {
      Accounting(ss, steps, n - 1);
      assert Taken(ss[n - 1], steps[n - 1], ss[n]);
      AccountStep(ss[n - 1], steps[n - 1]);
      BlockingStep(ss[n - 1], steps[n - 1]);
      InstallStep(ss[n - 1], steps[n - 1]);
    }
  }

  // ---------- the rate limit ----------

  predicate ArrivesFrom(s: State, a: Step, src: Ip) {
    a.PacketIn? && a.dpid in s.net && Arrives(s, a.frame) && a.frame.content.ip.src == src
  }

  /** The arrivals and the passed packets of a source, once step `a` is taken. */
  function Arrived(arrivals: seq<real>, s: State, a: Step, src: Ip): seq<real> {
    if ArrivesFrom(s, a, src) then arrivals + [a.now] else arrivals
  }

  function LetPass(passed: seq<real>, s: State, a: Step, src: Ip): seq<real> {
    if ArrivesFrom(s, a, src) && WithinRate(s, a.now, a.frame) then passed + [a.now] else passed
  }

  /** When packets of `src` came up for the rate check. */
  function Arrivals(ss: seq<State>, steps: seq<Step>, n: nat, src: Ip): seq<real>
    requires n <= |steps| < |ss|
  {
    if n == 0 then [] else Arrived(Arrivals(ss, steps, n - 1, src), ss[n - 1], steps[n - 1], src)
  }

  /** When packets of `src` passed it. */
  function Passed(ss: seq<State>, steps: seq<Step>, n: nat, src: Ip): seq<real>
    requires n <= |steps| < |ss|
  {
    if n == 0 then [] else LetPass(Passed(ss, steps, n - 1, src), ss[n - 1], steps[n - 1], src)
  }

  predicate RateIs(s: State, limit: int, window: real) { s.limit == limit && s.window == window }

  ghost predicate RateFixed(ss: seq<State>, n: nat, limit: int, window: real) {
    n < |ss| && forall j | 0 <= j <= n :: RateIs(ss[j], limit, window)
  }

  /** The clock never goes back. */
  ghost predicate ClockRuns(steps: seq<Step>) {
    forall i, j | 0 <= i < j < |steps| && steps[i].PacketIn? && steps[j].PacketIn? :: steps[i].now <= steps[j].now
  }

  lemma TrackerStep(s: State, a: Step, src: Ip)
    ensures TimesOf(Next(s, a).tracker, src) ==
              if ArrivesFrom(s, a, src) then Track(TimesOf(s.tracker, src), a.now, s.limit, s.window) else TimesOf(s.tracker, src)
  {
    if a.PacketIn? && a.dpid in s.net {
      PacketEffect(s, a);
    }
  }

  lemma OneMoreJudged(arrivals: seq<real>, passed: seq<real>, s: State, a: Step, src: Ip)
    requires TimesOf(s.tracker, src) == Tracked(arrivals, s.limit, s.window) && passed == History(arrivals, s.limit, s.window)
    ensures TimesOf(Next(s, a).tracker, src) == Tracked(Arrived(arrivals, s, a, src), s.limit, s.window)
    ensures LetPass(passed, s, a, src) == History(Arrived(arrivals, s, a, src), s.limit, s.window)
  {
    TrackerStep(s, a, src);
    if ArrivesFrom(s, a, src) {
      OneMoreArrival(arrivals, a.now, s.limit, s.window);
      assert passed + [] == passed;
    }
  }

  lemma TrackerRunStep(ss: seq<State>, steps: seq<Step>, n: nat, src: Ip, limit: int, window: real)
    requires IsRun(ss, steps) && 0 < n < |ss| && RateIs(ss[n - 1], limit, window)
    requires TimesOf(ss[n - 1].tracker, src) == Tracked(Arrivals(ss, steps, n - 1, src), limit, window)
    requires Passed(ss, steps, n - 1, src) == History(Arrivals(ss, steps, n - 1, src), limit, window)
    ensures TimesOf(ss[n].tracker, src) == Tracked(Arrivals(ss, steps, n, src), limit, window)
    ensures Passed(ss, steps, n, src) == History(Arrivals(ss, steps, n, src), limit, window)
  {
    OneMoreJudged(Arrivals(ss, steps, n - 1, src), Passed(ss, steps, n - 1, src), ss[n - 1], steps[n - 1], src);
    assert Taken(ss[n - 1], steps[n - 1], ss[n]);
  }

  /** Each source's tracker depends on its own packets only, and what passes is what the source's
      arrivals alone decide. */
  lemma {:induction false} TrackerFollowsRun(ss: seq<State>, steps: seq<Step>, n: nat, src: Ip, limit: int, window: real)
    requires IsRun(ss, steps) && RateFixed(ss, n, limit, window)
    ensures TimesOf(ss[n].tracker, src) == Tracked(Arrivals(ss, steps, n, src), limit, window)
    ensures Passed(ss, steps, n, src) == History(Arrivals(ss, steps, n, src), limit, window)
  {
    if n > 0 {
      TrackerFollowsRun(ss, steps, n - 1, src, limit, window);
      TrackerRunStep(ss, steps, n, src, limit, window);
    }
  }

  lemma {:induction false} ArrivalsOrdered(ss: seq<State>, steps: seq<Step>, n: nat, src: Ip)
    requires n <= |steps| < |ss| && ClockRuns(steps)
    ensures Ordered(Arrivals(ss, steps, n, src))
    ensures forall i, j | 0 <= i < |Arrivals(ss, steps, n, src)| && n <= j < |steps| && steps[j].PacketIn? ::
              Arrivals(ss, steps, n, src)[i] <= steps[j].now
  {
    if n > 0 {
      ArrivalsOrdered(ss, steps, n - 1, src);
    }
  }

  /** With a fixed limit and window, a packet passes iff fewer than the limit of its source's packets
      passed strictly within the last window, and no half-open interval as long as the window ever
      holds more than the limit of them. */
  lemma RateLimitHolds(ss: seq<State>, steps: seq<Step>, n: nat, src: Ip, limit: int, window: real, from: real)
    requires IsRun(ss, steps) && RateFixed(ss, n, limit, window) && ClockRuns(steps)
    ensures limit >= 0 ==> |Within(Passed(ss, steps, n, src), from, window)| <= limit
    ensures n < |steps| && ArrivesFrom(ss[n], steps[n], src) ==>
              (WithinRate(ss[n], steps[n].now, steps[n].frame) <==> |Recent(Passed(ss, steps, n, src), steps[n].now, window)| < limit)
  {
    var arrivals := Arrivals(ss, steps, n, src);
    assert RateIs(ss[n], limit, window);
    TrackerFollowsRun(ss, steps, n, src, limit, window);
    ArrivalsOrdered(ss, steps, n, src);
    if limit >= 0 {
      WindowLimit(arrivals, limit, window, from);
    }
    if n < |steps| && ArrivesFrom(ss[n], steps[n], src) {
      var more := arrivals + [steps[n].now];
      assert more[..|arrivals|] == arrivals && Ordered(more);
      RefusedIffWindowFull(more, |arrivals|, limit, window);
    }
  }

  // ---------- the verdict on a flow ----------

  predicate Inspects(s: State, a: Step, k: Key) {
    a.PacketIn? && a.dpid in s.net && ReachesDpi(s, a.now, a.frame) && FrameKey(a.frame) == k
  }

  function SegmentOf(a: Step, k: Key): Segment
    requires a.PacketIn? && CountsForTrust(a.frame)
  {
    var seg := a.frame.content.ip.l4.value;
    Segment(Source(a.frame.content.ip, seg) == k.a, seg.payload)
  }

  /** A segment of a flow comes from the endpoint its direction names, and goes to the other. */
  lemma DirectionsNeverMix(a: Step, k: Key)
    requires a.PacketIn? && CountsForTrust(a.frame) && FrameKey(a.frame) == k
    ensures var src, dst := Source(a.frame.content.ip, a.frame.content.ip.l4.value), Destination(a.frame.content.ip, a.frame.content.ip.l4.value);
            if SegmentOf(a, k).forward then src == k.a && dst == k.b else src == k.b && dst == k.a && k.a != k.b
  {
    var ip, seg := a.frame.content.ip, a.frame.content.ip.l4.value;
    KeyIsSymmetric(ip.proto, Source(ip, seg), Destination(ip, seg));
  }

  /** The segments of flow `k` inspected by the steps from `i` to before `n`. */
  function Segments(ss: seq<State>, steps: seq<Step>, i: nat, n: nat, k: Key): seq<Segment>
    requires i <= n <= |steps| < |ss|
    decreases n
  {
    if n == i then []
    else Segments(ss, steps, i, n - 1, k) + if Inspects(ss[n - 1], steps[n - 1], k) then [SegmentOf(steps[n - 1], k)] else []
  }

  /** What inspection knows of a flow. */
  function DpiPart(e: Entry): Entry { e.(count := 0, installed := false) }

  lemma InspectionOfPart(ps: seq<Pattern>, e: Entry, forward: bool, payload: Bytes)
    ensures DpiPart(Inspected(ps, e, forward, payload)) == Inspected(ps, DpiPart(e), forward, payload)
  {
  }

  /** The patterns stay the same, and the flow is not forgotten. */
  ghost predicate Undisturbed(ss: seq<State>, i: nat, n: nat, k: Key, ps: seq<Pattern>) {
    && i <= n < |ss|
    && (forall j {:trigger ss[j]} | i <= j <= n :: ss[j].patterns == ps)
    && forall j, l {:trigger ss[j], ss[l]} | i <= j < n && l == j + 1 && k in ss[j].trust :: k in ss[l].trust
  }

  lemma PacketInspects(s: State, a: Step, k: Key)
    requires a.PacketIn? && a.dpid in s.net
    ensures DpiPart(EntryOf(Next(s, a).trust, k)) ==
              if Inspects(s, a, k)
              then Inspected(s.patterns, DpiPart(EntryOf(s.trust, k)), SegmentOf(a, k).forward, SegmentOf(a, k).payload)
              else DpiPart(EntryOf(s.trust, k))
  {
    var r := Check(s, a.dpid, a.now, a.frame);
    PacketEffect(s, a);
    if r.verdict == Allowed {
      RouteTrusts(Routing(s, a.dpid, a.now, a.frame), a.dpid, a.frame);
    }
    if Inspects(s, a, k) {
      InspectionOfPart(s.patterns, EntryOf(s.trust, k), SegmentOf(a, k).forward, SegmentOf(a, k).payload);
    }
  }

  lemma FlowStep(s: State, a: Step, k: Key)
    requires k in s.trust ==> k in Next(s, a).trust
    ensures DpiPart(EntryOf(Next(s, a).trust, k)) ==
              if Inspects(s, a, k)
              then Inspected(s.patterns, DpiPart(EntryOf(s.trust, k)), SegmentOf(a, k).forward, SegmentOf(a, k).payload)
              else DpiPart(EntryOf(s.trust, k))
  {
    if a.PacketIn? && a.dpid in s.net {
      PacketInspects(s, a, k);
    }
  }

  lemma OneMoreInspected(ps: seq<Pattern>, segs: seq<Segment>, s: State, a: Step, k: Key, e: Entry, s': State)
    requires s' == Next(s, a) && (k in s.trust ==> k in s'.trust) && s.patterns == ps
    requires e == DpiPart(EntryOf(s.trust, k)) == AfterSegments(ps, NewEntry, segs)
    ensures DpiPart(EntryOf(s'.trust, k)) ==
              AfterSegments(ps, NewEntry, if Inspects(s, a, k) then segs + [SegmentOf(a, k)] else segs)
  {
    FlowStep(s, a, k);
    if Inspects(s, a, k) {
      AfterOneMore(ps, NewEntry, segs, SegmentOf(a, k));
    }
  }

  lemma FlowRunStep(ss: seq<State>, steps: seq<Step>, i: nat, n: nat, k: Key, ps: seq<Pattern>)
    requires IsRun(ss, steps) && i < n < |ss| && (k in ss[n - 1].trust ==> k in ss[n].trust) && ss[n - 1].patterns == ps
    requires DpiPart(EntryOf(ss[n - 1].trust, k)) == AfterSegments(ps, NewEntry, Segments(ss, steps, i, n - 1, k))
    ensures DpiPart(EntryOf(ss[n].trust, k)) == AfterSegments(ps, NewEntry, Segments(ss, steps, i, n, k))
  {
    var before := Segments(ss, steps, i, n - 1, k);
    assert before + [] == before;
    assert Taken(ss[n - 1], steps[n - 1], ss[n]);
    OneMoreInspected(ps, before, ss[n - 1], steps[n - 1], k, DpiPart(EntryOf(ss[n - 1].trust, k)), ss[n]);
  }

  lemma {:induction false} FlowFollowsSegments(ss: seq<State>, steps: seq<Step>, i: nat, n: nat, k: Key, ps: seq<Pattern>)
    requires IsRun(ss, steps) && Undisturbed(ss, i, n, k, ps) && k !in ss[i].trust
    ensures DpiPart(EntryOf(ss[n].trust, k)) == AfterSegments(ps, NewEntry, Segments(ss, steps, i, n, k))
    decreases n
  {
    if i < n {
      FlowFollowsSegments(ss, steps, i, n - 1, k, ps);
      FlowRunStep(ss, steps, i, n, k, ps);
    }
  }

  /** With fixed patterns that stay matched under extension, a flow is blocked iff the inspected head
      of what one endpoint sent matches, however it was cut into packets and interleaved. */
  lemma FlowVerdict(ss: seq<State>, steps: seq<Step>, i: nat, n: nat, k: Key, ps: seq<Pattern>)
    requires IsRun(ss, steps) && Undisturbed(ss, i, n, k, ps) && k !in ss[i].trust && ExtensionClosed(ps)
    ensures FlowBlocked(ss[n], k) <==> StreamFlagged(ps, Segments(ss, steps, i, n, k))
  {
    FlowFollowsSegments(ss, steps, i, n, k, ps);
    BufferedAfter(ps, Segments(ss, steps, i, n, k));
    assert EntryOf(ss[n].trust, k).blocked == DpiPart(EntryOf(ss[n].trust, k)).blocked;
  }
}
