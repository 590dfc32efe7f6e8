/** What a reset does to the traffic bound, shown on a scheduler with a single leaf. */
module HtbReset {
  import opened HtbLinks
  import opened HtbReach
  import opened HtbTraffic
  import opened HtbTokens
  import opened HtbBilling
  import opened HtbQueues
  import opened HtbChoice
  import opened HtbScheduler

  /** One class, a leaf, with both buckets of the given depth. */
  function OneLeaf(depth: nat, mbuffer: nat): Topology {
    map[1 := ClassInfo(0, 0, 0, 1, depth, depth, mbuffer)]
  }

  lemma OneLeafIsWellFormed(depth: nat, mbuffer: nat)
    requires mbuffer > 0
    ensures WellFormed(OneLeaf(depth, mbuffer))
  {
  }

  lemma LeafMustBeServed(t: Topology, k: Links, w: Timing, b: Books, hysteresis: bool, k': Links, q: Queues, limited: bool)
    requires LinkInv(t, k) && TimedInv(t, hysteresis, k.mode, w, b) && 1 in t && k.mode[1] == CanSend
    requires EventModes(t, hysteresis, k.mode, w, k'.mode, MAXDEPTH, limited) && 1 in q && q[1] != []
    ensures !NobodyServable(t, k', q)
  {
    SendersStay(t, hysteresis, k.mode, w, k'.mode, MAXDEPTH, limited, 1);
    LenderStep(t, k'.mode, 1);
  }

  /** The leaf paid for one packet at time 1. */
  ghost predicate OnePass(depth: nat, cost: nat, mbuffer: nat, w: Timing, b: Books, w': Timing, b': Books) {
    && 1 in w.ctokens && 1 in w.since && 1 in b.ceil && 1 in w'.ctokens && 1 in w'.since && 1 in b'.ceil
    && w.now == 1 && w'.now == 1 && w'.since[1] == 1
    && var diff := Elapsed(1, w.since[1], mbuffer);
       && w'.ctokens[1] == Account(w.ctokens[1], depth, cost, mbuffer, diff)
       && b'.ceil[1] == b.ceil[1] + [Pays(1, w.ctokens[1], depth, cost, mbuffer, diff, 1 in b.pardoned, false)]
  }

  lemma BilledIsOnePass(depth: nat, cost: nat, mbuffer: nat, w: Timing, b: Books, w': Timing, b': Books, level: nat,
                        ceilCost: (Id, nat) -> nat, rateCost: (Id, nat) -> nat)
    requires Billed(OneLeaf(depth, mbuffer), w, w', b, b', 1, 0, level, ceilCost, rateCost) && w.now == 1 && ceilCost(1, 0) == cost
    ensures OnePass(depth, cost, mbuffer, w, b, w', b')
  {
    var t := OneLeaf(depth, mbuffer);
    assert 1 in PathUp(t, 1);
    assert ClassBooked(t, w, b, b', 1, true, level, ceilCost(1, 0), rateCost(1, 0));
  }

  /** Offers a packet to the leaf of a scheduler that holds no packets, and takes it out again. */
  method PassOne(s: Scheduler, depth: nat, cost: nat, mbuffer: nat)
    requires s.Valid() && s.t == OneLeaf(depth, mbuffer) && !s.hysteresis && s.timing.now == 1 && s.ceilCost(1, 0) == cost
    requires s.queue == map[1 := []] && s.direct == [] && s.qlen == 0 && 1 in s.links.mode && s.links.mode[1] == CanSend
    modifies s
    ensures s.Valid() && OnePass(depth, cost, mbuffer, old(s.timing), old(s.books), s.timing, s.books)
  {
    hide LinkInv, LeavesInv, TimedInv, Billed, Chosen, NobodyServable, NobodySolvent, EventModes, Tried, CountInv, OnePass, Accounted;
    var _ := s.Enqueue(Packet(1, 0), Leaf(1), true);
    ghost var k, w, b := s.links, s.timing, s.books;
    ghost var turn;
    var r, wake, c;
    r, wake, c, turn := s.Dequeue(1, false, [0, 0, 0, 0, 0, 0, 0, 0], 0, Refused, false);
    if r.None? {
      LeafMustBeServed(s.t, k, w, b, s.hysteresis, s.links, s.queue, false);
    }
    assert w.(now := 1) == w;
    BilledIsOnePass(depth, cost, mbuffer, w, b, s.timing, s.books, turn.level, s.ceilCost, s.rateCost);
  }

  lemma TwoPasses(depth: nat, cost: nat, mbuffer: nat, w: Timing, b: Books, w1: Timing, b1: Books, w2: Timing, b2: Books)
    requires cost < mbuffer && w == FullBuckets(OneLeaf(depth, mbuffer), 1) && b == EmptyBooks(OneLeaf(depth, mbuffer))
    requires OnePass(depth, cost, mbuffer, w, b, w1, b1)
    requires OnePass(depth, cost, mbuffer, NobodyWaits(w1), b1.(pardoned := {1}), w2, b2)
    ensures 1 in b2.ceil && |b2.ceil[1]| == 2
    ensures forall k | 0 <= k < 2 :: b2.ceil[1][k].time == 1 && b2.ceil[1][k].cost == cost && b2.ceil[1][k].level == depth - k * cost
    ensures CostOf(b2.ceil[1], 0, 1) == 2 * cost
  {
    assert b2.ceil[1][0].level == depth && b2.ceil[1][1].level == depth - cost;
  }

  /** One packet before a reset and one right after it, each of the same cost.  The leaf starts with a full
      bucket, nothing spills and no debt is cut off, so the two keep the bound exactly if the leaf is out of
      debt at its first packet after the reset, that is, if the cost is at most the depth: above it, the
      reset breaks the bound. */
  method ResetBreaksBound(depth: nat, cost: nat, mbuffer: nat) returns (s: Scheduler)
    requires cost < mbuffer
    ensures fresh(s) && s.Valid() && !s.hysteresis && s.t == OneLeaf(depth, mbuffer)
    ensures 1 in s.books.ceil && |s.books.ceil[1]| == 2
    ensures forall k | 0 <= k < 2 :: s.books.ceil[1][k].time == 1 && s.books.ceil[1][k].cost == cost
    ensures WithinBound(s.books.ceil[1], depth, 0, 1) <==> s.books.ceil[1][1].level >= 0
    ensures WithinBound(s.books.ceil[1], depth, 0, 1) <==> cost <= depth
  {
    hide LinkInv, LeavesInv, TimedInv, CountInv, Accounted, OnePass, FullBuckets, NobodyWaits, EmptyBooks, IdleLinks, NoDrops, NoDeficits;
    OneLeafIsWellFormed(depth, mbuffer);
    s := new Scheduler(OneLeaf(depth, mbuffer), false, (c, bytes) => cost, (c, bytes) => cost, 2, 1, 1);
    StartsIdle(depth, mbuffer);
    ghost var w, b := s.timing, s.books;
    PassOne(s, depth, cost, mbuffer);
    ghost var w1, b1 := s.timing, s.books;
    s.Reset();
    StillAtOne(depth, cost, mbuffer, w, b, w1, b1);
    assert s.t.Keys == {1};
    PassOne(s, depth, cost, mbuffer);
    TwoPasses(depth, cost, mbuffer, w, b, w1, b1, s.timing, s.books);
  }

  lemma StartsIdle(depth: nat, mbuffer: nat)
    ensures FullBuckets(OneLeaf(depth, mbuffer), 1).now == 1 && NoPackets(OneLeaf(depth, mbuffer)) == map[1 := []]
    ensures 1 in IdleLinks(OneLeaf(depth, mbuffer)).mode && IdleLinks(OneLeaf(depth, mbuffer)).mode[1] == CanSend
  {
  }

  lemma StillAtOne(depth: nat, cost: nat, mbuffer: nat, w: Timing, b: Books, w1: Timing, b1: Books)
    requires OnePass(depth, cost, mbuffer, w, b, w1, b1)
    ensures NobodyWaits(w1).now == 1
  {
  }
}
