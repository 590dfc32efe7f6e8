/** The scheduler itself.  The fields of the kernel's class and scheduler structures are kept
    as maps keyed by class identifier, level or tree, and every routine updates them in place. */
module HtbScheduler {
  import opened Options
  import opened HtbLinks
  import opened HtbReach
  import opened HtbSweep
  import opened HtbTraffic
  import opened HtbTokens
  import opened HtbBilling
  import opened HtbQueues
  import opened HtbChoice
  import opened HtbFair

  /** The levels below `l` were tried in vain: their rows are empty; `wake` is the earliest of their next
      events and `cap`, no later than any class's event; and, unless the handler was cut short, none of
      their classes is due and their events are ahead. */
  ghost predicate Tried(t: Topology, k: Links, w: Timing, l: nat, wake: int, cap: int, step: nat, limited: bool) {
    && LowRowsEmpty(k.mask, l)
    && TimingShaped(t, w) && WakesInTime(t, w, l, wake) && Earliest(w, l, wake, cap) && Ahead(w, l, step, limited)
    && (!limited ==> NoneDue(t, w, l))
  }

  /** No leaf that has packets finds a class on its way up whose buckets let it send. */
  ghost predicate NobodySolvent(t: Topology, w: Timing, q: Queues) {
    WellFormed(t) && TimingShaped(t, w) && forall c | c in t && c in q && q[c] != [] :: Lender(t, BucketModes(t, w), c) == 0
  }

  lemma NobodySolventNow(t: Topology, mode0: map<Id, Mode>, k: Links, w0: Timing, w: Timing, b: Books, q: Queues)
    requires NobodyServable(t, k, q) && TimedInv(t, false, k.mode, w, b) && NoneDue(t, w, MAXDEPTH)
    requires EventModes(t, false, mode0, w0, k.mode, MAXDEPTH, false) && SameBuckets(w0, w)
    ensures NobodySolvent(t, w0, q)
  {
    hide TreesMatch, MasksMatch, ActivityMatches, PointersInside, LedgersInv, WaitsMatch, CacheSound, NoneDue;
    SameBucketsSameModes(t, w0, w);
    forall c | c in t && c in q && q[c] != [] ensures Lender(t, BucketModes(t, w0), c) == 0 {
      NoLenderByBuckets(t, k.mode, w, b, c);
    }
  }

  /** No leaf that has packets finds a class on its way up that can send. */
  ghost predicate NobodyServable(t: Topology, k: Links, q: Queues) {
    LinkInv(t, k) && forall c | c in t && c in q && q[c] != [] :: Lender(t, k.mode, c) == 0
  }

  lemma NobodyLeft(t: Topology, k: Links, w: Timing, drops: map<nat, seq<Id>>, q: Queues, deficit: map<Id, seq<int>>, wake: int, cap: int, step: nat, limited: bool)
    requires LinkInv(t, k) && LeavesInv(t, k.act, drops, q, deficit) && Tried(t, k, w, MAXDEPTH, wake, cap, step, limited)
    ensures NobodyServable(t, k, q)
  {
    forall c | c in t && c in q && q[c] != [] ensures Lender(t, k.mode, c) == 0 {
      var p :| p in k.act[c];
      EmptyRowsNoLender(t, k, c, p);
    }
  }

  /** A leaf that has packets is on the drop list of its priority. */
  lemma ListedForDrop(t: Topology, k: Links, drops: map<nat, seq<Id>>, q: Queues, deficit: map<Id, seq<int>>, c: Id)
    requires LinkInv(t, k) && LeavesInv(t, k.act, drops, q, deficit) && c in t && q[c] != []
    ensures t[c].prio < NUMPRIO && c in drops[t[c].prio]
  {
    assert t[c].level == 0 && k.act[c] == {t[c].prio};
  }

  lemma BeginLevels(t: Topology, hysteresis: bool, k: Links, w: Timing, b: Books, q: Queues, cap: int, step: nat, limited: bool)
    requires LinkInv(t, k) && TimedInv(t, hysteresis, k.mode, w, b)
    ensures Handled(t, hysteresis, k.mode, w, k.mode, w, 0, limited) && Pruned(t, k.act, k.act, q)
    ensures Tried(t, k, w, 0, cap, cap, step, limited)
  {
    HandledBegins(t, hysteresis, k.mode, w, limited);
  }

  lemma SameIsPruned(t: Topology, act: map<Id, set<nat>>, q: Queues)
    requires act.Keys == t.Keys
    ensures Pruned(t, act, act, q)
  {
  }

  lemma MasksAreKept(mask: map<nat, set<nat>>, l: nat, prios: set<nat>)
    ensures MasksKeptBut(mask, mask, l, prios)
  {
  }

  lemma AllKept(t: Topology, k: Links)
    requires LinkInv(t, k)
    ensures LeafActivityKept(t, k.act, k.act)
  {
  }

  lemma InvStaysCalm(t: Topology, k: Links, stirred: set<Slot>)
    requires LinkInv(t, k)
    ensures Calmed(k, k, stirred, stirred)
  {
  }

  lemma RowsKept(mask: map<nat, set<nat>>, mask': map<nat, set<nat>>, l: nat)
    requires LowRowsEmpty(mask, l) && LowMasksKept(mask, mask', l)
    ensures LowRowsEmpty(mask', l)
  {
  }

  predicate RanEmpty(q: Queues, c: Id) { c in q && q[c] == [] }

  /** No active leaf has run empty. */
  ghost predicate NoneEmpty(t: Topology, act: map<Id, set<nat>>, q: Queues) {
    forall c | c in t && c in act && c in q && t[c].level == 0 && act[c] != {} :: q[c] != []
  }

  /** No class has an event due and no active leaf has run empty: a dequeue can change the members of a
      tree only by the packet it serves. */
  ghost predicate Rests(t: Topology, act: map<Id, set<nat>>, w: Timing, q: Queues) {
    NoneDue(t, w, MAXDEPTH) && NoneEmpty(t, act, q)
  }

  predicate Undisturbed(k: Links, s: set<Slot>, k': Links, s': set<Slot>) {
    k'.mode == k.mode && k'.act == k.act && s' == s
  }

  lemma Untouched(k: Links, s: set<Slot>)
    ensures Undisturbed(k, s, k, s)
  {
  }

  lemma UndisturbedTrans(k: Links, s: set<Slot>, k1: Links, s1: set<Slot>, k2: Links, s2: set<Slot>)
    requires Undisturbed(k, s, k1, s1)
    ensures k1.act == k.act && k1.mode == k.mode && s1 == s
    ensures Undisturbed(k1, s1, k2, s2) ==> Undisturbed(k, s, k2, s2)
  {
  }

  /** Nothing was due on this level either, and still no active leaf has run empty. */
  lemma RestsAt(t: Topology, hysteresis: bool, k0: Links, s0: set<Slot>, k: Links, s: set<Slot>, w0: Timing, w: Timing, b: Books, q: Queues, l: nat, limited: bool)
    requires TimedInv(t, hysteresis, k0.mode, w0, b) && TimedInv(t, hysteresis, k.mode, w, b) && l < MAXDEPTH
    requires Handled(t, hysteresis, k0.mode, w0, k.mode, w, l, limited)
    ensures Rests(t, k0.act, w0, q) && Undisturbed(k0, s0, k, s) ==> Due(w, l) == {} && NoneEmpty(t, k.act, q)
  {
    SameDue(t, k0.mode, w0, k.mode, w, l);
  }

  predicate ModesKept(mode: map<Id, Mode>, mode': map<Id, Mode>, who: set<Id>) {
    forall d | d in who && d in mode :: d in mode' && mode'[d] == mode[d]
  }

  lemma NotEmptyAt(t: Topology, act: map<Id, set<nat>>, q: Queues, c: Id)
    requires c in t && c in act && c in q && t[c].level == 0 && act[c] != {}
    ensures NoneEmpty(t, act, q) ==> q[c] != []
  {
  }

  lemma AllModesKept(mode: map<Id, Mode>, who: set<Id>)
    ensures ModesKept(mode, mode, who)
  {
  }

  lemma ModesBack(mode0: map<Id, Mode>, mode1: map<Id, Mode>, mode: map<Id, Mode>, c: Id)
    requires c in mode0 && c in mode1 && mode1 == mode0[c := mode1[c]] && ModesKept(mode1, mode, {c})
    ensures mode == mode0 ==> mode1 == mode0
  {
    assert c in {c};
  }

  lemma OneModeChanged(mode0: map<Id, Mode>, mode1: map<Id, Mode>, mode: map<Id, Mode>, who: set<Id>, who': set<Id>, c: Id)
    requires mode0.Keys == mode1.Keys && c in mode1 && c in mode && mode == mode1[c := mode[c]]
    requires ModesKept(mode0, mode1, who) && who' <= who && c !in who'
    ensures ModesKept(mode0, mode, who')
    ensures mode == mode0 && c in who ==> mode1 == mode0
  {
    if mode == mode0 && c in who {
      assert mode1[c] == mode0[c];
      assert forall d | d in mode1 :: mode1[d] == mode0[d];
    }
  }

  function NoPackets(t: Topology): Queues { map c | c in t :: [] }

  function NoDeficits(t: Topology): map<Id, seq<int>> { map c | c in t :: [0, 0, 0, 0, 0, 0, 0, 0] }

  lemma BornInOrder(t: Topology, hysteresis: bool, created: nat)
    requires WellFormed(t)
    ensures LinkInv(t, IdleLinks(t)) && TimedInv(t, hysteresis, IdleLinks(t).mode, FullBuckets(t, created), EmptyBooks(t))
    ensures LeavesInv(t, IdleLinks(t).act, NoDrops(), NoPackets(t), NoDeficits(t)) && CountInv(NoPackets(t), [], [], 0, 0)
  {
    IdleIsLinked(t, IdleLinks(t));
    FullBucketsTimed(t, hysteresis, IdleLinks(t).mode, created);
    EmptyLeavesInOrder(t, IdleLinks(t).act, NoPackets(t), NoDeficits(t));
  }

  lemma AllEmptyIsNoPackets(t: Topology, q: Queues)
    requires AllEmpty(t, q, t.Keys)
    ensures q == NoPackets(t)
  {
  }

  /** Every class is inactive and can send. */
  ghost predicate IdleModes(t: Topology, k: Links) {
    forall c | c in t :: c in k.mode && k.mode[c] == CanSend && c in k.act && k.act[c] == {}
  }

  lemma ResetInOrder(t: Topology, hysteresis: bool, k0: Links, w: Timing, b: Books, drops: map<nat, seq<Id>>, q0: Queues,
                     deficit: map<Id, seq<int>>, k: Links, q: Queues)
    requires LinkInv(t, k0) && TimedInv(t, hysteresis, k0.mode, w, b) && LeavesInv(t, k0.act, drops, q0, deficit)
    requires IdleSoFar(t, k, t.Keys) && AllEmpty(t, q, t.Keys)
    ensures LinkInv(t, RowsIdle(k)) && TimedInv(t, hysteresis, RowsIdle(k).mode, NobodyWaits(w), b.(pardoned := t.Keys))
    ensures LeavesInv(t, RowsIdle(k).act, NoDrops(), q, deficit) && CountInv(q, [], [], 0, 0)
    ensures IdleModes(t, RowsIdle(k))
  {
    AllIdle(t, k);
    assert forall c | c in t :: k.act[c] == {};
    ResetTimed(t, hysteresis, k0.mode, w, b, k.mode);
    EmptyLeavesInOrder(t, k.act, q, deficit);
  }

  lemma PathPaidNow(t: Topology, w: Timing, w': Timing, path: set<Id>, level: nat, bytes: nat, ceilCost: (Id, nat) -> nat, rateCost: (Id, nat) -> nat)
    requires PathPaid(t, w, w', path, level, bytes, ceilCost, rateCost)
    ensures w'.now == w.now
  {
  }

  /** Leaf `c` and its ancestors, and nobody else, paid for a packet of the given length served at `level`,
      from buckets as they were in `w`, and booked it. */
  ghost predicate Billed(t: Topology, w: Timing, w': Timing, b: Books, b': Books,
                         c: Id, bytes: nat, level: nat, ceilCost: (Id, nat) -> nat, rateCost: (Id, nat) -> nat)
  {
    && WellFormed(t) && c in t && t[c].level == 0
    && PathPaid(t, w, w', PathUp(t, c), level, bytes, ceilCost, rateCost)
    && PathBooked(t, w, b, b', PathUp(t, c), level, bytes, ceilCost, rateCost)
  }

  lemma BilledAccounts(t: Topology, outs: seq<Out>, w: Timing, w': Timing, b: Books, b': Books, c: Id, bytes: nat, level: nat,
                       ceilCost: (Id, nat) -> nat, rateCost: (Id, nat) -> nat)
    requires Accounted(t, outs, b, ceilCost, rateCost) && Billed(t, w, w', b, b', c, bytes, level, ceilCost, rateCost)
    ensures Accounted(t, outs + [Out(w.now, c, bytes, level)], b', ceilCost, rateCost)
  {
    ServingAccounts(t, outs, w, b, b', c, level, bytes, ceilCost, rateCost);
  }

  /** Packet `pkt` was the head of leaf `c`'s queue, left it, and was paid for. */
  ghost predicate Served(t: Topology, w: Timing, w': Timing, q: Queues, b: Books, q': Queues, b': Books,
                         c: Id, pkt: Packet, level: nat, ceilCost: (Id, nat) -> nat, rateCost: (Id, nat) -> nat)
  {
    HeadLeft(q, q', c, pkt) && Billed(t, w, w', b, b', c, pkt.bytes, level, ceilCost, rateCost)
  }

  lemma BilledAgrees(t: Topology, w: Timing, w1: Timing, w': Timing, b: Books, b': Books,
                     c: Id, bytes: nat, level: nat, ceilCost: (Id, nat) -> nat, rateCost: (Id, nat) -> nat)
    requires Billed(t, w1, w', b, b', c, bytes, level, ceilCost, rateCost) && SameBuckets(w, w1) && TimingShaped(t, w)
    ensures Billed(t, w, w', b, b', c, bytes, level, ceilCost, rateCost)
  {
    PathPaidAgrees(t, w, w1, w', PathUp(t, c), level, bytes, ceilCost, rateCost);
    PathBookedAgrees(t, w, w1, b, b', PathUp(t, c), level, bytes, ceilCost, rateCost);
  }

  class Scheduler {
    const t: Topology
    const hysteresis: bool
    /** The time a packet of a given length takes at a class's rate and at its ceiling. */
    const rateCost: (Id, nat) -> nat
    const ceilCost: (Id, nat) -> nat

    // the linkage, and the token buckets with their wait queues
    var links: Links
    var timing: Timing

    // packet queues: the leaves', the direct queue and the overflow buffer
    var queue: Queues
    var deficit: map<Id, seq<int>>
    var drops: map<nat, seq<Id>>
    const directLimit: nat
    var direct: seq<Packet>
    var ofbuf: seq<Packet>
    var ofbufQueued: int
    var qlen: int
    // packets that left without being counted down
    ghost var lost: nat

    ghost var books: Books
    // every packet that left a leaf
    ghost var served: seq<Out>
    // the trees whose members have changed at some time
    ghost var stirred: set<Slot>

    ghost predicate Timed()
      reads this
    {
      TimedInv(t, hysteresis, links.mode, timing, books)
    }

    ghost predicate LeavesInOrder()
      reads this
    {
      LeavesInv(t, links.act, drops, queue, deficit)
    }

    // ---------- activation ----------

    /** Adds `c` to feed `q` at the given priorities; `up` are those where the feed was empty. */
    method LinkIntoFeed(c: Id, q: Id, prios: set<nat>) returns (up: set<nat>)
      requires Keyed(links)
      requires forall p | p in prios :: Feed(q, p) in links.tree && c !in links.tree[Feed(q, p)]
      modifies `links, `stirred
      ensures links == old(links).(tree := FeedWith(old(links).tree, q, prios, c))
      ensures up == EmptyFeeds(old(links).tree, q, prios)
      ensures Calmed(old(links), links, old(stirred), stirred)
    {
      var m := prios;
      up := prios;
      ghost var done: set<nat> := {};
      assert FeedWith(links.tree, q, {}, c) == links.tree;
      while m != {}
        invariant m <= prios && done == prios - m
        invariant links == old(links).(tree := FeedWith(old(links).tree, q, done, c))
        invariant up == m + EmptyFeeds(old(links).tree, q, done)
        invariant old(stirred) <= stirred && forall p | p in done :: Feed(q, p) in stirred
        decreases m
      {
        var prio := Least(m);
        OneMoreDone(prios, m, prio);
        m := m - {prio};
        FeedWithMore(old(links).tree, q, done, prio, c);
        EmptyFeedsMore(old(links).tree, q, done, prio, old(links).tree[Feed(q, prio)]);
        assert old(links).tree[Feed(q, prio) := old(links).tree[Feed(q, prio)]] == old(links).tree;
        if links.tree[Feed(q, prio)] != {} {
          up := up - {prio};
        }
        links := links.(tree := links.tree[Feed(q, prio) := links.tree[Feed(q, prio)] + {c}]);
        stirred := stirred + {Feed(q, prio)};
        done := done + {prio};
      }
      assert done == prios;
    }

    method AddToRow(c: Id, l: nat, prios: set<nat>)
      requires Keyed(links)
      requires l in links.mask && forall p | p in prios :: Row(l, p) in links.tree && c !in links.tree[Row(l, p)]
      modifies `links, `stirred
      ensures RowLinked(old(links), links, l, c, prios)
      ensures Calmed(old(links), links, old(stirred), stirred)
    {
      links := links.(mask := links.mask[l := links.mask[l] + prios]);
      var m := prios;
      ghost var done: set<nat> := {};
      assert RowWith(links.tree, l, {}, c) == links.tree;
      while m != {}
        invariant m <= prios && done == prios - m
        invariant links == old(links).(mask := old(links).mask[l := old(links).mask[l] + prios],
                                       tree := RowWith(old(links).tree, l, done, c))
        invariant old(stirred) <= stirred && forall p | p in done :: Row(l, p) in stirred
        decreases m
      {
        var prio := Least(m);
        OneMoreDone(prios, m, prio);
        m := m - {prio};
        RowWithMore(old(links).tree, l, done, prio, c);
        links := links.(tree := links.tree[Row(l, prio) := links.tree[Row(l, prio)] + {c}]);
        stirred := stirred + {Row(l, prio)};
        done := done + {prio};
      }
      assert done == prios;
    }

    /** One level of activation: `c` enters feed `p`, and `p` becomes active where it was not. */
    method ActivateAt(c: Id, p: Id, m: set<nat>) returns (up: set<nat>)
      requires Keyed(links)
      requires forall x | x in m :: Feed(p, x) in links.tree && c !in links.tree[Feed(p, x)]
      requires p in links.act
      modifies `links, `stirred
      ensures FeedLinked(old(links), links, p, c, m) && up == EmptyFeeds(old(links).tree, p, m)
      ensures Calmed(old(links), links, old(stirred), stirred)
    {
      up := LinkIntoFeed(c, p, m);
      ghost var k1 := links;
      links := links.(act := links.act[p := links.act[p] + up]);
      CalmedSame(old(links), k1, links, old(stirred), stirred);
    }

    method EnterRow(c: Id, m: set<nat>, ghost k0: Links)
      requires Linking(t, k0, links, c, m) && links.mode[c] == CanSend
      modifies `links, `stirred
      ensures LinkInv(t, links) && links == old(links).(tree := links.tree, mask := links.mask)
      ensures MasksKeptBut(old(links).mask, links.mask, t[c].level, m)
      ensures Calmed(old(links), links, old(stirred), stirred)
    {
      ghost var before := links;
      NotInRow(t, before, links.act[c := links.act[c] - m], c, m);
      AddToRow(c, t[c].level, m);
      ActivateRow(t, before, c, m, links);
    }

    /** The climb of an activation ended at `c`: its row, if it can send, completes the linkage. */
    method FinishActivation(c: Id, m: set<nat>, ghost k0: Links)
      requires Linking(t, k0, links, c, m) && (links.mode[c] != MayBorrow || t[c].parent == 0 || m == {})
      modifies `links, `stirred
      ensures LinkInv(t, links) && links == old(links).(tree := links.tree, mask := links.mask)
      ensures MasksKeptBut(old(links).mask, links.mask, t[c].level, m)
      ensures links.mode[c] != CanSend ==> links.mask == old(links).mask
      ensures Calmed(old(links), links, old(stirred), stirred)
    {
      if links.mode[c] == CanSend && m != {} {
        EnterRow(c, m, k0);
      } else {
        StaysCalm(links, links, stirred);
        PutBack(links.act, c, links.act[c] - m);
        NothingToLink(t, links, links.act[c := links.act[c] - m], c, links.act[c]);
      }
    }

    /** Links a class that is active but not linked, and its ancestors as far as needed. */
    method ActivatePrios(c0: Id) returns (ghost top: Id)
      requires c0 in t && links.act.Keys == t.Keys
      requires LinkedAs(t, links, links.act[c0 := {}])
      modifies `links, `stirred
      ensures LinkInv(t, links) && links == old(links).(act := links.act, tree := links.tree, mask := links.mask)
      ensures LeafActivityKept(t, old(links).act, links.act)
      ensures top in t && MasksKeptBut(old(links).mask, links.mask, t[top].level, old(links).act[c0])
      ensures links.mode[top] != CanSend ==> links.mask == old(links).mask
      ensures Lender(t, links.mode, top) == Lender(t, links.mode, c0)
      ensures Calmed(old(links), links, old(stirred), stirred)
    {
      var c := c0;
      var p := t[c].parent;
      var m := links.act[c];
      assert links.act[c] - m == {};
      StaysCalm(links, links, stirred);
      while links.mode[c] == MayBorrow && p != 0 && m != {}
        invariant Linking(t, old(links), links, c, m) && p == t[c].parent
        invariant links == old(links).(act := links.act, tree := links.tree) && m <= old(links).act[c0]
        invariant Lender(t, links.mode, c) == Lender(t, links.mode, c0)
        invariant Calmed(old(links), links, old(stirred), stirred)
        decreases MAXDEPTH - t[c].level
      {
        ghost var before, s0 := links, stirred;
        LenderStep(t, links.mode, c);
        NotInFeed(t, before, links.act[c := links.act[c] - m], c, m);
        var up := ActivateAt(c, p, m);
        LinkingStep(t, old(links), before, c, m, up, links);
        CalmedTrans(old(links), before, links, old(stirred), s0, stirred);
        m := up;
        c := p;
        p := t[c].parent;
      }
      top := c;
      ghost var k1, s1 := links, stirred;
      FinishActivation(c, m, old(links));
      CalmedTrans(old(links), k1, links, old(stirred), s1, stirred);
    }

    // ---------- deactivation ----------

    /** Erases `c` from one feed, forgetting a pointer to it but remembering the class. */
    method EraseFromFeed(s: Slot, c: Id)
      requires Keyed(links)
      requires s in links.tree && s in links.ptr && s in links.last && c in links.tree[s]
      modifies `links, `stirred
      ensures FeedNodeErased(old(links), links, s, c)
      ensures Calmed(old(links), links, old(stirred), stirred)
    {
      stirred := stirred + {s};
      if links.ptr[s] == c {
        links := links.(last := links.last[s := c]);
        links := links.(ptr := links.ptr[s := 0]);
      }
      links := links.(tree := links.tree[s := links.tree[s] - {c}]);
    }

    /** Erases `c` from feed `q`; `down` are the priorities at which the feed became empty. */
    method UnlinkFromFeed(c: Id, q: Id, prios: set<nat>) returns (down: set<nat>)
      requires links.tree.Keys == links.ptr.Keys == links.last.Keys
      requires forall p | p in prios :: Feed(q, p) in links.tree && c in links.tree[Feed(q, p)]
      modifies `links, `stirred
      ensures FeedErased(old(links), links, q, c, prios)
      ensures down == EmptyFeeds(links.tree, q, prios)
      ensures Calmed(old(links), links, old(stirred), stirred)
    {
      var m := prios;
      down := {};
      ghost var done: set<nat> := {};
      StaysCalm(links, links, stirred);
      while m != {}
        invariant m <= prios && done == prios - m
        invariant FeedErased(old(links), links, q, c, done)
        invariant down == EmptyFeeds(links.tree, q, done) && Calmed(old(links), links, old(stirred), stirred)
        decreases m
      {
        var prio := Least(m);
        OneMoreDone(prios, m, prio);
        m := m - {prio};
        ghost var before, s0 := links, stirred;
        EraseFromFeed(Feed(q, prio), c);
        CalmedTrans(old(links), before, links, old(stirred), s0, stirred);
        FeedErasedMore(old(links), before, links, q, c, done, prio);
        if links.tree[Feed(q, prio)] == {} {
          down := down + {prio};
        }
        done := done + {prio};
      }
      assert done == prios;
    }

    /** Erases `c` from one row, moving a pointer to it on to the next class. */
    method EraseFromRow(s: Slot, c: Id)
      requires Keyed(links)
      requires s in links.tree && s in links.ptr && c in links.tree[s]
      modifies `links, `stirred
      ensures RowNodeErased(old(links), links, s, c)
      ensures Calmed(old(links), links, old(stirred), stirred)
    {
      stirred := stirred + {s};
      if links.ptr[s] == c {
        links := links.(ptr := links.ptr[s := NextAbove(links.tree[s], links.ptr[s])]);
      }
      links := links.(tree := links.tree[s := links.tree[s] - {c}]);
    }

    method RemoveFromRow(c: Id, l: nat, prios: set<nat>)
      requires Keyed(links) && l in links.mask
      requires forall p | p in prios :: Row(l, p) in links.tree && c in links.tree[Row(l, p)]
      modifies `links, `stirred
      ensures RowUnlinked(old(links), links, l, c, prios)
      ensures Calmed(old(links), links, old(stirred), stirred)
    {
      var emptied: set<nat> := {};
      var m := prios;
      ghost var done: set<nat> := {};
      StaysCalm(links, links, stirred);
      while m != {}
        invariant m <= prios && done == prios - m && links.mask == old(links).mask
        invariant RowErased(old(links), links, l, c, done)
        invariant emptied == EmptyRows(links.tree, l, done) && Calmed(old(links), links, old(stirred), stirred)
        decreases m
      {
        var prio := Least(m);
        OneMoreDone(prios, m, prio);
        m := m - {prio};
        ghost var before, s0 := links, stirred;
        EraseFromRow(Row(l, prio), c);
        CalmedTrans(old(links), before, links, old(stirred), s0, stirred);
        RowErasedMore(old(links), before, links, l, c, done, prio);
        if links.tree[Row(l, prio)] == {} {
          emptied := emptied + {prio};
        }
        done := done + {prio};
      }
      assert done == prios;
      ghost var k1 := links;
      links := links.(mask := links.mask[l := links.mask[l] - emptied]);
      CalmedSame(old(links), k1, links, old(stirred), stirred);
    }

    /** One level of deactivation: `c` leaves feed `p`, and `p` becomes inactive where that empties it. */
    method DeactivateAt(c: Id, p: Id, m: set<nat>) returns (down: set<nat>)
      requires links.tree.Keys == links.ptr.Keys == links.last.Keys && p in links.act
      requires forall x | x in m :: Feed(p, x) in links.tree && c in links.tree[Feed(p, x)]
      modifies `links, `stirred
      ensures FeedUnlinked(old(links), links, p, c, m) && down == EmptyFeeds(links.tree, p, m)
      ensures Calmed(old(links), links, old(stirred), stirred)
    {
      down := UnlinkFromFeed(c, p, m);
      ghost var k1 := links;
      links := links.(act := links.act[p := links.act[p] - down]);
      CalmedSame(old(links), k1, links, old(stirred), stirred);
    }

    /** The climb of a deactivation ended at `c`: it leaves its row if it was in one. */
    method FinishDeactivation(c: Id, m: set<nat>, ghost c0: Id, ghost k0: Links, ghost linked: map<Id, set<nat>>)
      requires Unlinking(t, k0, links, linked, c0, c, m) && (links.mode[c] != MayBorrow || t[c].parent == 0 || m == {})
      requires Shrunk(k0, links) && forall s | s in k0.tree :: k0.ptr[s] == 0 || k0.ptr[s] in k0.tree[s]
      modifies `links, `stirred
      ensures links.mode == old(links).mode && links.act == old(links).act
      ensures LinkedAs(t, links, links.act[c0 := {}])
      ensures MasksKeptBut(old(links).mask, links.mask, t[c].level, m)
      ensures links.mode[c] != CanSend ==> links.mask == old(links).mask
      ensures PointersFollow(k0, links)
      ensures Calmed(old(links), links, old(stirred), stirred)
    {
      if links.mode[c] == CanSend && m != {} {
        ghost var before := links;
        InRowOf(t, before, linked, c, m);
        RemoveFromRow(c, t[c].level, m);
        UnlinkingEnds(t, k0, before, linked, c0, c, m, links);
      } else {
        StaysCalm(links, links, stirred);
        NothingToLink(t, links, linked, c, linked[c] - m);
      }
    }

    /** Unlinks an active class everywhere, and ancestors that thereby become inactive. */
    method DeactivatePrios(c0: Id) returns (ghost top: Id)
      requires c0 in t && LinkInv(t, links)
      modifies `links, `stirred
      ensures links.mode == old(links).mode
      ensures links.act.Keys == t.Keys && LinkedAs(t, links, links.act[c0 := {}])
      ensures LeafActivityKept(t, old(links).act, links.act) && links.act[c0] == old(links).act[c0]
      ensures top in t && MasksKeptBut(old(links).mask, links.mask, t[top].level, links.act[c0])
      ensures links.mode[top] != CanSend ==> links.mask == old(links).mask
      ensures Lender(t, links.mode, top) == Lender(t, links.mode, c0)
      ensures PointersFollow(old(links), links)
      ensures Calmed(old(links), links, old(stirred), stirred)
    {
      var c := c0;
      var p := t[c].parent;
      var m := links.act[c];
      ghost var linked: map<Id, set<nat>> := links.act;
      assert linked[c] - m == {};
      StaysCalm(links, links, stirred);
      while links.mode[c] == MayBorrow && p != 0 && m != {}
        invariant Unlinking(t, old(links), links, linked, c0, c, m) && p == t[c].parent
        invariant Shrunk(old(links), links) && Calmed(old(links), links, old(stirred), stirred)
        invariant links.mode == old(links).mode && links.mask == old(links).mask && m <= old(links).act[c0]
        invariant Lender(t, links.mode, c) == Lender(t, links.mode, c0)
        decreases MAXDEPTH - t[c].level
      {
        ghost var before, s0 := links, stirred;
        LenderStep(t, links.mode, c);
        InFeed(t, before, linked, c, m);
        var down := DeactivateAt(c, p, m);
        UnlinkingStep(t, old(links), before, linked, c0, c, m, links);
        ShrunkStep(old(links), before, links, p, m, c);
        linked := linked[c := linked[c] - m];
        CalmedTrans(old(links), before, links, old(stirred), s0, stirred);
        m := down;
        c := p;
        p := t[c].parent;
      }
      top := c;
      ghost var k1, s1 := links, stirred;
      FinishDeactivation(c, m, c0, old(links), linked);
      CalmedTrans(old(links), k1, links, old(stirred), s1, stirred);
    }

    // ---------- mode changes ----------

    /** Gives `c` the mode its buckets call for `diff` after its checkpoint, relinking it; the
        verdict also tells the time to its next mode change unless it can send. */
    method ChangeClassMode(c: Id, diff: int) returns (v: Verdict)
      requires c in t && LinkInv(t, links) && c in timing.tokens && c in timing.ctokens
      modifies `links, `stirred
      ensures v == ClassMode(hysteresis, t[c], old(links).mode[c], timing.tokens[c], timing.ctokens[c], diff)
      ensures links.mode == old(links).mode[c := v.mode] 
      ensures LinkInv(t, links)
      ensures LeafActivityKept(t, old(links).act, links.act)
      ensures LowMasksKept(old(links).mask, links.mask, t[c].level)
      ensures Calmed(old(links), links, old(stirred), stirred)
      ensures v.mode == old(links).mode[c] ==> links == old(links) && stirred == old(stirred)
    {
      v := ClassMode(hysteresis, t[c], links.mode[c], timing.tokens[c], timing.ctokens[c], diff);
      if v.mode == links.mode[c] {
        StaysCalm(links, links, stirred);
        PutSame(links.mode, c);
        return;
      }
      SetMode(c, v.mode);
    }

    /** Changes the mode of `c` and relinks it if it is active. */
    method SetMode(c: Id, m: Mode)
      requires c in t && LinkInv(t, links)
      modifies `links, `stirred
      ensures links.mode == old(links).mode[c := m]
      ensures LinkInv(t, links)
      ensures LeafActivityKept(t, old(links).act, links.act)
      ensures LowMasksKept(old(links).mask, links.mask, t[c].level)
      ensures Calmed(old(links), links, old(stirred), stirred)
    {
      if links.act[c] != {} {
        Unlink(c);
        UnlinkedModeIsFree(t, links, links.act[c := {}], c, m);
        ghost var k1, s1 := links, stirred;
        links := links.(mode := links.mode[c := m]);
        CalmedSame(old(links), k1, links, old(stirred), stirred);
        ghost var k2 := links;
        Relink(c);
        CalmedTrans(old(links), k2, links, old(stirred), s1, stirred);
      } else {
        InactiveModeIsFree(t, links, c, m);
        links := links.(mode := links.mode[c := m]);
        StaysCalm(old(links), links, stirred);
      }
    }

    /** Takes an active class out of the linkage before its mode changes. */
    method Unlink(c: Id)
      requires c in t && LinkInv(t, links)
      modifies `links, `stirred
      ensures links.mode == old(links).mode
      ensures links.act.Keys == t.Keys && LinkedAs(t, links, links.act[c := {}])
      ensures LeafActivityKept(t, old(links).act, links.act)
      ensures LowMasksKept(old(links).mask, links.mask, t[c].level)
      ensures Calmed(old(links), links, old(stirred), stirred)
    {
      if links.mode[c] != CantSend {
        ghost var top := DeactivatePrios(c);
        ClimbedRowsAreHigh(t, links.mode, c, top);
      } else {
        StaysCalm(links, links, stirred);
        NothingToLink(t, links, links.act, c, {});
      }
    }

    /** Puts it back where its new mode calls for. */
    method Relink(c: Id)
      requires c in t && links.act.Keys == t.Keys && LinkedAs(t, links, links.act[c := {}])
      modifies `links, `stirred
      ensures LinkInv(t, links) && links.mode == old(links).mode
      ensures LeafActivityKept(t, old(links).act, links.act)
      ensures LowMasksKept(old(links).mask, links.mask, t[c].level)
      ensures Calmed(old(links), links, old(stirred), stirred)
    {
      if links.mode[c] != CantSend {
        ghost var top := ActivatePrios(c);
        ClimbedRowsAreHigh(t, links.mode, c, top);
      } else {
        StaysCalm(links, links, stirred);
        NothingToLink(t, links, links.act[c := {}], c, links.act[c]);
        PutBack(links.act, c, {});
      }
    }

    // ---------- leaves ----------

    /** Activates an inactive leaf; does nothing for an active one. */
    method ActivateLinks(c: Id)
      requires c in t && t[c].level == 0 && LinkInv(t, links) && links.act[c] == {}
      modifies `links, `stirred
      ensures LinkInv(t, links) && links == old(links).(act := links.act, tree := links.tree, mask := links.mask)
      ensures links.act.Keys == t.Keys && links.act[c] == {t[c].prio}
      ensures forall d | d in t && t[d].level == 0 && d != c :: links.act[d] == old(links).act[d]
      ensures Calmed(old(links), links, old(stirred), stirred)
    {
      PutSame(links.act, c);
      PutTwice(links.act, c, {t[c].prio}, {});
      LeafPrioIsFree(t, links, c, {t[c].prio});
      links := links.(act := links.act[c := {t[c].prio}]);
      ghost var k1 := links;
      StaysCalm(old(links), links, stirred);
      ghost var top := ActivatePrios(c);
      CalmedTrans(old(links), k1, links, old(stirred), old(stirred), stirred);
    }

    /** Deactivates an active leaf. */
    method DeactivateLinks(c: Id)
      requires c in t && t[c].level == 0 && LinkInv(t, links) && links.act[c] != {}
      modifies `links, `stirred
      ensures LinkInv(t, links) && links.mode == old(links).mode
      ensures links.act.Keys == t.Keys && links.act[c] == {}
      ensures forall d | d in t && t[d].level == 0 && d != c :: links.act[d] == old(links).act[d]
      ensures PointersFollow(old(links), links)
      ensures Lender(t, links.mode, c) != 0 ==> MasksKeptBut(old(links).mask, links.mask, t[Lender(t, links.mode, c)].level, {t[c].prio})
      ensures Lender(t, links.mode, c) == 0 ==> links.mask == old(links).mask
      ensures Calmed(old(links), links, old(stirred), stirred)
    {
      ghost var top := DeactivatePrios(c);
      LenderStep(t, links.mode, top);
      LeafPrioIsFree(t, links, c, {});
      ghost var k1 := links;
      links := links.(act := links.act[c := {}]);
      CalmedSame(old(links), k1, links, old(stirred), stirred);
    }

    // ---------- finding the next leaf ----------

    /** Makes the pointer of tree `s` valid again if its class was remembered. */
    method Recover(s: Slot)
      requires s in links.tree && s in links.ptr && s in links.last
      modifies `links
      ensures links.ptr == old(links).ptr[s := Cursor(old(links).tree[s], old(links).ptr[s], old(links).last[s])]
      ensures links.last == old(links).last[s := 0] && PointersMoved(old(links), links)
    {
      if links.ptr[s] == 0 && links.last[s] != 0 {
        links := links.(ptr := links.ptr[s := NextFrom(links.tree[s], links.last[s])]);
      }
      links := links.(last := links.last[s := 0]);
    }

    /** The next leaf in round-robin order below the row of `level` at `prio`. */
    method LookupLeaf(level: nat, prio: nat) returns (c: Id)
      requires LinkInv(t, links) && level < MAXDEPTH && prio < NUMPRIO && links.tree[Row(level, prio)] != {}
      modifies `links
      ensures LinkInv(t, links) && Serving(t, links, level, prio, c) && PointersMoved(old(links), links)
      ensures Layered(t, links.tree) && CursorsInside(links.tree, CursorMap(links.tree, old(links).ptr, old(links).last))
      ensures exists n: nat :: FoundAfter(t, links.tree, CursorMap(links.tree, old(links).ptr, old(links).last), Row(level, prio), n,
                                          Found(c, CursorMap(links.tree, links.ptr, links.last)))
      ensures OnlySkips(t, links.tree, CursorMap(links.tree, old(links).ptr, old(links).last), CursorMap(links.tree, links.ptr, links.last))
    {
      ghost var trace;
      InvWalks(t, links, Row(level, prio));
      c, trace := Search(level, prio);
      ghost var x := Config(links.ptr, links.last, trace[|trace| - 1].stk);
      RecoveredWalks(t, links.tree, trace[|trace| - 1]);
      PointersAreFree(t, old(links), links);
      StackServes(t, links, x.stk, c);
      TraceFinds(t, links.tree, Row(level, prio), trace, x);
      TraceSkips(t, links.tree, trace);
    }

    /** The search with its explicit stack, which never holds more than MAXDEPTH trees. */
    method Search(level: nat, prio: nat) returns (c: Id, ghost trace: seq<Config>)
      requires level < MAXDEPTH && Walks(t, links.tree, Config(links.ptr, links.last, [Row(level, prio)]))
      modifies `links
      ensures PointersMoved(old(links), links)
      ensures IsTrace(t, links.tree, trace) && trace[0] == Config(old(links).ptr, old(links).last, [Row(level, prio)])
      ensures |trace[|trace| - 1].stk| > 0 && trace[|trace| - 1].stk[0] == Row(level, prio)
      ensures Config(links.ptr, links.last, trace[|trace| - 1].stk) == Recovered(t, links.tree, trace[|trace| - 1])
      ensures c == Here(t, links.tree, trace[|trace| - 1]) && c != 0 && t[c].level == 0
    {
      hide Calmed, Left, Walking, IsTrace;
      var stk := [Row(level, prio)];
      ghost var x := Config(links.ptr, links.last, stk);
      OneStepTrace(t, links.tree, x);
      trace := [x];
      while true
        invariant PointersMoved(old(links), links) && x == Config(links.ptr, links.last, stk)
        invariant |trace| > 0 && IsTrace(t, links.tree, trace) && trace[0] == Config(old(links).ptr, old(links).last, [Row(level, prio)])
        invariant trace[|trace| - 1] == x && |stk| > 0 && stk[0] == Row(level, prio) && Walks(t, links.tree, x)
        decreases Left(t, links.tree, x, 1), Left(t, links.tree, x, 2), Left(t, links.tree, x, 3), Left(t, links.tree, x, 4),
                  Left(t, links.tree, x, 5), Left(t, links.tree, x, 6), Left(t, links.tree, x, 7), Left(t, links.tree, x, 8),
                  TopHeight(t, x)
      {
        c, stk, trace := Round(stk, trace);
        if c != 0 {
          return;
        }
        x := Config(links.ptr, links.last, stk);
      }
    }

    /** One round of the search: the leaf it ends at, or 0 after a step to the next tree. */
    method Round(stk: seq<Slot>, ghost trace: seq<Config>) returns (c: Id, stk': seq<Slot>, ghost trace': seq<Config>)
      requires |trace| > 0 && |stk| > 0 && IsTrace(t, links.tree, trace) && trace[|trace| - 1] == Config(links.ptr, links.last, stk)
      requires Height(t, stk[0]) <= MAXDEPTH
      modifies `links
      ensures PointersMoved(old(links), links)
      ensures c != 0 ==>
                && trace' == trace && Config(links.ptr, links.last, stk) == Recovered(t, links.tree, trace[|trace| - 1])
                && c == Here(t, links.tree, trace[|trace| - 1]) && t[c].level == 0
      ensures c == 0 ==>
                && IsTrace(t, links.tree, trace') && trace'[0] == trace[0] && trace'[|trace'| - 1] == Config(links.ptr, links.last, stk')
                && stk'[0] == stk[0] && Closer(t, links.tree, trace[|trace| - 1], Config(links.ptr, links.last, stk'))
                && |trace'| > 0 && |stk'| > 0 && Walks(t, links.tree, Config(links.ptr, links.last, stk'))
    {
      hide IsTrace, Closer, IsStep, Walks;
      TraceEnds(t, links.tree, trace);
      assert |stk| <= MAXDEPTH;
      var s := stk[|stk| - 1];
      stk', trace' := stk, trace;
      Recover(s);
      if links.ptr[s] != 0 && t[links.ptr[s]].level == 0 {
        c := links.ptr[s];
        return;
      }
      c := 0;
      stk' := Move(stk, trace[|trace| - 1]);
      TraceStep(t, links.tree, trace, Config(links.ptr, links.last, stk'));
      trace' := trace + [Config(links.ptr, links.last, stk')];
    }

    /** Past the end of the top tree: rewind it and move on above.  Otherwise: descend. */
    method Move(stk: seq<Slot>, ghost x: Config) returns (stk': seq<Slot>)
      requires Walks(t, links.tree, x) && stk == x.stk
      requires Config(links.ptr, links.last, stk) == Recovered(t, links.tree, x)
      requires links.ptr[stk[|stk| - 1]] == 0 || t[links.ptr[stk[|stk| - 1]]].level > 0
      modifies `links
      ensures PointersMoved(old(links), links) && links.last == old(links).last
      ensures IsStep(t, links.tree, x, Config(links.ptr, links.last, stk'))
    {
      hide Calmed, LinkInv;
      RecoveredWalks(t, links.tree, x);
      var s := stk[|stk| - 1];
      if links.ptr[s] == 0 {
        links := links.(ptr := links.ptr[s := Least(links.tree[s])]);
        if |stk| > 1 {
          StackIsDistinct(t, links.tree, stk, |stk| - 2);
          stk' := stk[..|stk| - 1];
          var u := stk'[|stk'| - 1];
          assert links.ptr[u] != 0;
          links := links.(ptr := links.ptr[u := NextAbove(links.tree[u], links.ptr[u])]);
        } else {
          stk' := stk;
        }
      } else {
        stk' := stk + [Feed(links.ptr[s], s.prio)];
      }
    }

    // ---------- wait queues ----------

    method RemoveFromWait(c: Id)
      requires c in t && t[c].level in timing.wait && c in timing.wait[t[c].level]
      modifies `timing
      ensures timing == OffWait(t, old(timing), c)
    {
      timing := timing.(wait := timing.wait[t[c].level := timing.wait[t[c].level] - {c}]);
    }

    method AddToWait(c: Id, delay: int)
      requires c in t && t[c].level in timing.wait && t[c].level in timing.nearest && c !in timing.wait[t[c].level]
      modifies `timing
      ensures timing == ToWait(t, old(timing), c, delay)
    {
      var l := t[c].level;
      timing := timing.(key := timing.key[c := timing.now + delay]);
      if timing.key[c] == timing.now {
        timing := timing.(key := timing.key[c := timing.key[c] + 1]);
      }
      if timing.nearest[l] > timing.key[c] {
        timing := timing.(nearest := timing.nearest[l := timing.key[c]]);
      }
      timing := timing.(wait := timing.wait[l := timing.wait[l] + {c}]);
    }

    // ---------- charging ----------

    /** Pays for a packet out of the buckets of one class. */
    method Pay(c: Id, level: nat, bytes: nat)
      requires c in t && c in timing.tokens && c in timing.ctokens && c in timing.since
      modifies `timing
      ensures timing == Paid(t, old(timing), c, level, ceilCost(c, bytes), rateCost(c, bytes))
    {
      var diff := Elapsed(timing.now, timing.since[c], t[c].mbuffer);
      if t[c].level >= level {
        timing := timing.(tokens := timing.tokens[c := Account(timing.tokens[c], t[c].buffer, rateCost(c, bytes), t[c].mbuffer, diff)]);
      } else {
        timing := timing.(tokens := timing.tokens[c := timing.tokens[c] + diff]);
      }
      timing := timing.(ctokens := timing.ctokens[c := Account(timing.ctokens[c], t[c].cbuffer, ceilCost(c, bytes), t[c].mbuffer, diff)]);
      timing := timing.(since := timing.since[c := timing.now]);
    }

    /** Records the payments about to be made. */
    ghost method LogPayments(c: Id, level: nat, bytes: nat)
      requires c in t && c in timing.tokens && c in timing.ctokens && c in timing.since && c in books.ceil && c in books.rate
      modifies `books
      ensures books == BooksAfter(t, old(timing), old(books), c, level, ceilCost(c, bytes), rateCost(c, bytes))
    {
      books := BooksAfter(t, timing, books, c, level, ceilCost(c, bytes), rateCost(c, bytes));
    }

    /** Puts `c` where its new mode calls for after a charge. */
    method Requeue(c: Id, was: Mode, v: Verdict)
      requires c in t && t[c].level in timing.wait && t[c].level in timing.nearest
      requires was != CanSend <==> c in timing.wait[t[c].level]
      modifies `timing
      ensures timing == AfterCharge(t, old(timing), c, was, v)
    {
      if was != v.mode {
        if was != CanSend {
          RemoveFromWait(c);
        }
        if v.mode != CanSend {
          AddToWait(c, v.diff);
        }
      }
    }

    /** Charges one class and lets its mode follow. */
    method ChargeOne(c: Id, level: nat, bytes: nat)
      requires c in t && LinkInv(t, links) && c in timing.tokens && c in timing.ctokens && c in timing.since
      requires t[c].level in timing.wait && t[c].level in timing.nearest && (links.mode[c] != CanSend <==> c in timing.wait[t[c].level])
      requires c in books.ceil && c in books.rate
      modifies `timing, `books, `links, `stirred
      ensures LinkInv(t, links) && LeafActivityKept(t, old(links).act, links.act)
      ensures Charged(t, hysteresis, old(links).mode, old(timing), c, level, ceilCost(c, bytes), rateCost(c, bytes), links.mode, timing)
      ensures books == BooksAfter(t, old(timing), old(books), c, level, ceilCost(c, bytes), rateCost(c, bytes))
      ensures Calmed(old(links), links, old(stirred), stirred)
      ensures links.mode == old(links).mode ==> stirred == old(stirred)
    {
      LogPayments(c, level, bytes);
      Pay(c, level, bytes);
      var was := links.mode[c];
      var v := ChangeClassMode(c, 0);
      Requeue(c, was, v);
    }

    /** Charges a leaf and all its ancestors for a packet served at `level`. */
    method ChargeClass(c: Id, level: nat, bytes: nat)
      requires c in t && t[c].level == 0 && LinkInv(t, links) && Timed() && MayAsk(t, links.mode, c, level)
      modifies `timing, `books, `links, `stirred
      ensures LinkInv(t, links) && Timed() && timing.now == old(timing).now
      ensures LeafActivityKept(t, old(links).act, links.act)
      ensures PathPaid(t, old(timing), timing, PathUp(t, c), level, bytes, ceilCost, rateCost)
      ensures PathBooked(t, old(timing), old(books), books, PathUp(t, c), level, bytes, ceilCost, rateCost)
      ensures Calmed(old(links), links, old(stirred), stirred)
      ensures links.mode == old(links).mode ==> stirred == old(stirred)
    {
      hide Calmed, PathPaid, PathBooked, LedgersInv, TimingInv, TreesMatch, MasksMatch, ActivityMatches, PointersInside;
      ClimbBegins(t, c);
      BeginCharge(t, hysteresis, links.mode, timing, books, level, bytes, ceilCost, rateCost);
      ChargeStep(c, level, bytes, timing, books, {});
      ghost var k1, s1 := links, stirred;
      ghost var paid := ChargeAncestors(t[c].parent, level, bytes, old(timing), old(books), {} + {c});
      CalmedTrans(old(links), k1, links, old(stirred), s1, stirred);
      ModesBack(old(links).mode, k1.mode, links.mode, c);
      PathPaidNow(t, old(timing), timing, paid, level, bytes, ceilCost, rateCost);
      ClimbEnds(t, t[c].parent, {} + {c}, paid);
    }

    method ChargeAncestors(c0: Id, level: nat, bytes: nat, ghost w: Timing, ghost b: Books, ghost paid0: set<Id>) returns (ghost paid: set<Id>)
      requires LinkInv(t, links) && Timed() && Climbing(t, c0, paid0, c0, paid0) && MayAsk(t, links.mode, c0, level)
      requires PathPaid(t, w, timing, paid0, level, bytes, ceilCost, rateCost)
      requires PathBooked(t, w, b, books, paid0, level, bytes, ceilCost, rateCost)
      modifies `timing, `books, `links, `stirred
      ensures LinkInv(t, links) && Timed()
      ensures LeafActivityKept(t, old(links).act, links.act)
      ensures Climbing(t, c0, paid0, 0, paid) && PathPaid(t, w, timing, paid, level, bytes, ceilCost, rateCost)
      ensures PathBooked(t, w, b, books, paid, level, bytes, ceilCost, rateCost)
      ensures Calmed(old(links), links, old(stirred), stirred)
      ensures ModesKept(old(links).mode, links.mode, paid0) && (links.mode == old(links).mode ==> stirred == old(stirred))
    {
      hide ModesKept, Calmed, PathPaid, PathBooked, LedgersInv, TimingInv, TreesMatch, MasksMatch, ActivityMatches, PointersInside;
      var c := c0;
      paid := paid0;
      AllModesKept(links.mode, paid0);
      AllModesKept(links.mode, t.Keys - paid);
      InvStaysCalm(t, links, stirred);
      while c != 0
        invariant LinkInv(t, links) && Timed() && Climbing(t, c0, paid0, c, paid) && MayAsk(t, links.mode, c, level)
        invariant LeafActivityKept(t, old(links).act, links.act) && Calmed(old(links), links, old(stirred), stirred)
        invariant paid0 <= paid && ModesKept(old(links).mode, links.mode, paid0) && ModesKept(old(links).mode, links.mode, t.Keys - paid)
        invariant links.mode == old(links).mode ==> stirred == old(stirred)
        invariant PathPaid(t, w, timing, paid, level, bytes, ceilCost, rateCost)
        invariant PathBooked(t, w, b, books, paid, level, bytes, ceilCost, rateCost)
        decreases if c == 0 then 0 else MAXDEPTH - t[c].level
      {
        ClimbStep(t, c0, paid0, c, paid);
        ghost var k1, s1 := links, stirred;
        ChargeStep(c, level, bytes, w, b, paid);
        CalmedTrans(old(links), k1, links, old(stirred), s1, stirred);
        OneModeChanged(old(links).mode, k1.mode, links.mode, t.Keys - paid, t.Keys - (paid + {c}), c);
        OneModeChanged(old(links).mode, k1.mode, links.mode, paid0, paid0, c);
        paid := paid + {c};
        c := t[c].parent;
      }
    }

    method ChargeStep(c: Id, level: nat, bytes: nat, ghost w: Timing, ghost b: Books, ghost paid: set<Id>)
      requires c in t && c !in paid && LinkInv(t, links) && Timed() && MayAsk(t, links.mode, c, level)
      requires PathPaid(t, w, timing, paid, level, bytes, ceilCost, rateCost)
      requires PathBooked(t, w, b, books, paid, level, bytes, ceilCost, rateCost)
      modifies `timing, `books, `links, `stirred
      ensures LinkInv(t, links) && Timed()
      ensures LeafActivityKept(t, old(links).act, links.act) && MayAsk(t, links.mode, t[c].parent, level)
      ensures PathPaid(t, w, timing, paid + {c}, level, bytes, ceilCost, rateCost)
      ensures PathBooked(t, w, b, books, paid + {c}, level, bytes, ceilCost, rateCost)
      ensures Calmed(old(links), links, old(stirred), stirred)
      ensures links.mode == old(links).mode[c := links.mode[c]] && (links.mode == old(links).mode ==> stirred == old(stirred))
    {
      hide Calmed, PathPaid, PathBooked, LedgersInv, TreesMatch, MasksMatch, ActivityMatches, PointersInside;
      ReadyToCharge(t, hysteresis, links.mode, timing, books, c);
      ChargeOne(c, level, bytes);
      ChargeKeepsAll(t, hysteresis, old(links).mode, old(timing), old(books), c, level,
                     ceilCost(c, bytes), rateCost(c, bytes), links.mode, timing);
      PathPaidMore(t, hysteresis, old(links).mode, w, old(timing), paid, level, bytes, ceilCost, rateCost, c, links.mode, timing);
      PathBookedMore(t, w, b, old(timing), old(books), paid, level, bytes, ceilCost, rateCost, c);
      AskedKept(t, old(links).mode, t[c].parent, level, c, links.mode[c]);
    }

    // ---------- events ----------

    /** Applies the event of a waiting class: it takes the mode its buckets now call for and, unless
        it can send, waits for its next change. */
    method HandleEvent(c: Id) returns (v: Verdict)
      requires c in t && LinkInv(t, links) && c in timing.tokens && c in timing.ctokens && c in timing.since
      requires t[c].level in timing.wait && t[c].level in timing.nearest && c in timing.wait[t[c].level]
      modifies `links, `stirred, `timing
      ensures LinkInv(t, links) && LeafActivityKept(t, old(links).act, links.act)
      ensures LowMasksKept(old(links).mask, links.mask, t[c].level)
      ensures v == EventVerdict(t, hysteresis, old(links).mode, old(timing), c)
      ensures links.mode == old(links).mode[c := v.mode] && timing == AfterEvent(t, old(timing), c, v)
      ensures Calmed(old(links), links, old(stirred), stirred)
    {
      RemoveFromWait(c);
      v := ChangeClassMode(c, Elapsed(timing.now, timing.since[c], t[c].mbuffer));
      if v.mode != CanSend {
        AddToWait(c, v.diff);
      }
    }

    method EventStep(c: Id, ghost mode0: map<Id, Mode>, ghost w0: Timing, ghost done: set<Id>)
      requires c in t && LinkInv(t, links) && Timed() && c in Due(timing, t[c].level)
      requires EventsApplied(t, hysteresis, mode0, w0, links.mode, timing, done) && c !in done
      requires OtherLevelsKept(t, w0, timing, t[c].level)
      modifies `links, `stirred, `timing
      ensures LinkInv(t, links) && Timed() && LeafActivityKept(t, old(links).act, links.act)
      ensures LowMasksKept(old(links).mask, links.mask, t[c].level)
      ensures EventsApplied(t, hysteresis, mode0, w0, links.mode, timing, done + {c})
      ensures OtherLevelsKept(t, w0, timing, t[c].level)
      ensures Due(timing, t[c].level) == old(Due(timing, t[c].level)) - {c}
      ensures |Due(timing, t[c].level)| < old(|Due(timing, t[c].level)|)
      ensures Calmed(old(links), links, old(stirred), stirred)
    {
      hide Calmed, LedgersInv, TimingInv, EventsApplied, TreesMatch, MasksMatch, ActivityMatches, PointersInside, OtherLevelsKept;
      ReadyToCharge(t, hysteresis, links.mode, timing, books, c);
      var v := HandleEvent(c);
      EventKeepsAll(t, hysteresis, mode0, w0, old(links).mode, old(timing), done, books, c, v, timing);
    }

    /** The waiting class of a level whose event comes first. */
    method FirstWaiting(level: nat) returns (c: Id)
      requires level < MAXDEPTH && Timed() && timing.wait[level] != {}
      ensures c in t && t[c].level == level && c in timing.wait[level]
      ensures forall d | d in timing.wait[level] :: d in timing.key && timing.key[c] <= timing.key[d]
    {
      assert forall d | d in timing.wait[level] :: d in timing.key;
      FirstExists(timing.wait[level], timing.key);
      c :| c in timing.wait[level] && forall d | d in timing.wait[level] :: timing.key[c] <= timing.key[d];
    }

    /** Applies the due events of a level.  `limited` tells that the time limit strikes after
        `rounds` rounds.  The result is 0 if no class waits any more, the time of the next event,
        or the current time if the limit struck first. */
    method DoEvents(level: nat, limited: bool, rounds: nat) returns (event: int)
      requires level < MAXDEPTH && LinkInv(t, links) && Timed() && 0 < timing.now
      modifies `links, `stirred, `timing
      ensures LinkInv(t, links) && Timed() && LeafActivityKept(t, old(links).act, links.act)
      ensures LowMasksKept(old(links).mask, links.mask, level)
      ensures Due(timing, level) <= old(Due(timing, level))
      ensures EventsApplied(t, hysteresis, old(links).mode, old(timing), links.mode, timing, old(Due(timing, level)) - Due(timing, level))
      ensures OtherLevelsKept(t, old(timing), timing, level)
      ensures NextEvent(t, timing, level, limited, event)
      ensures !limited ==> Due(timing, level) == {}
      ensures Calmed(old(links), links, old(stirred), stirred)
      ensures old(Due(timing, level)) == {} ==> Undisturbed(old(links), old(stirred), links, stirred)
    {
      hide Calmed, TreesMatch, MasksMatch, PointersInside, ActivityMatches, LedgersInv, NextKey, WaitsMatch, CacheSound;
      ghost var due0 := Due(timing, level);
      ghost var done := due0 - Due(timing, level);
      var i := 0;
      InvStaysCalm(t, links, stirred);
      while !limited || i < rounds
        invariant LinkInv(t, links) && Timed() && LeafActivityKept(t, old(links).act, links.act)
        invariant LowMasksKept(old(links).mask, links.mask, level) && Calmed(old(links), links, old(stirred), stirred)
        invariant due0 == {} ==> Undisturbed(old(links), old(stirred), links, stirred)
        invariant Due(timing, level) <= due0 && done == due0 - Due(timing, level)
        invariant EventsApplied(t, hysteresis, old(links).mode, old(timing), links.mode, timing, done)
        invariant OtherLevelsKept(t, old(timing), timing, level)
        decreases |Due(timing, level)|
      {
        if timing.wait[level] == {} {
          return 0;
        }
        var c := FirstWaiting(level);
        FirstIsNext(t, links.mode, timing, level, c);
        if timing.key[c] > timing.now {
          return timing.key[c];
        }
        SetStep(due0, Due(timing, level), c);
        ghost var k1, s1 := links, stirred;
        EventStep(c, old(links).mode, old(timing), done);
        CalmedTrans(old(links), k1, links, old(stirred), s1, stirred);
        done := done + {c};
        i := i + 1;
      }
      return timing.now;
    }

    // ---------- serving a row ----------

    /** Activates a leaf that got a packet, unless it is active already. */
    method Activate(c: Id)
      requires c in t && t[c].level == 0 && LinkInv(t, links) && DropsMatch(t, links.act, drops)
      modifies `links, `stirred, `drops
      ensures LinkInv(t, links) && DropsMatch(t, links.act, drops) && links.mode == old(links).mode
      ensures links.act[c] == {t[c].prio}
      ensures old(links).act[c] != {} ==> links == old(links) && drops == old(drops)
      ensures old(links).act[c] == {} ==> t[c].prio in old(drops) && drops == old(drops)[t[c].prio := old(drops)[t[c].prio] + [c]]
      ensures forall d | d in t && t[d].level == 0 && d != c :: links.act[d] == old(links).act[d]
      ensures Calmed(old(links), links, old(stirred), stirred)
      ensures old(links).act[c] != {} ==> stirred == old(stirred)
    {
      InvStaysCalm(t, links, stirred);
      if links.act[c] == {} {
        ghost var act0 := links.act;
        ActivateLinks(c);
        DropsGrow(t, act0, links.act, drops, c);
        drops := drops[t[c].prio := drops[t[c].prio] + [c]];
      }
    }

    method Deactivate(c: Id)
      requires c in t && t[c].level == 0 && LinkInv(t, links) && DropsMatch(t, links.act, drops) && links.act[c] != {}
      modifies `links, `stirred, `drops
      ensures LinkInv(t, links) && DropsMatch(t, links.act, drops) && links.mode == old(links).mode
      ensures links.act[c] == {}
      ensures forall d | d in t && t[d].level == 0 && d != c :: links.act[d] == old(links).act[d]
      ensures PointersFollow(old(links), links)
      ensures Lender(t, links.mode, c) != 0 ==> MasksKeptBut(old(links).mask, links.mask, t[Lender(t, links.mode, c)].level, {t[c].prio})
      ensures Lender(t, links.mode, c) == 0 ==> links.mask == old(links).mask
      ensures Calmed(old(links), links, old(stirred), stirred)
    {
      ghost var act0 := links.act;
      DeactivateLinks(c);
      DropsFollow(t, act0, links.act, drops, c);
      drops := drops[t[c].prio := Without(drops[t[c].prio], c)];
    }

    method NextLeaf(level: nat, prio: nat) returns (c: Id)
      requires LinkInv(t, links) && level < MAXDEPTH && prio in links.mask[level]
      modifies `links
      ensures LinkInv(t, links) && Serving(t, links, level, prio, c) && PointersMoved(old(links), links)
      ensures NextInTurn(t, old(links), level, prio, c)
      ensures Drifted(t, old(links), links, stirred, stirred)
    {
      assert prio in links.mask[level] <==> links.tree[Row(level, prio)] != {};
      c := LookupLeaf(level, prio);
      SearchDrifts(t, old(links), links, stirred);
    }

    method DropEmptyLeaf(c: Id, level: nat, prio: nat)
      requires LinkInv(t, links) && LeavesInOrder() && Serving(t, links, level, prio, c) && queue[c] == []
      modifies `links, `stirred, `drops
      ensures LinkInv(t, links) && LeavesInOrder() && links.mode == old(links).mode
      ensures MasksKeptBut(old(links).mask, links.mask, level, {prio})
      ensures |ActiveLeaves(t, links.act)| < |ActiveLeaves(t, old(links).act)|
      ensures Pruned(t, old(links).act, links.act, queue)
      ensures Calmed(old(links), links, old(stirred), stirred)
    {
      hide Calmed, Pruned, ActiveLeaves, DropsMatch, TreesMatch, MasksMatch, PointersInside, PointersFollow;
      Deactivate(c);
      FewerActive(t, old(links).act, links.act, c);
      EmptyLeafGone(t, old(links).act, links.act, queue, c);
      DroppedIsPruned(t, old(links).act, links.act, queue, c);
    }

    /** The next leaf of a row that has packets; leaves found empty are deactivated on the way.
        0 if that empties the row.  `k1` is the linkage in which the leaf was found. */
    method PickLeaf(level: nat, prio: nat) returns (c: Id, ghost k1: Links)
      requires LinkInv(t, links) && level < MAXDEPTH && prio in links.mask[level] && LeavesInOrder()
      modifies `links, `stirred, `drops
      ensures LinkInv(t, links) && LeavesInOrder() && links.mode == old(links).mode
      ensures MasksKeptBut(old(links).mask, links.mask, level, {prio}) && Pruned(t, old(links).act, links.act, queue)
      ensures c == 0 ==> prio !in links.mask[level]
      ensures c != 0 ==> Serving(t, links, level, prio, c) && queue[c] != [] && Picked(t, old(links), queue, k1, level, prio, c)
      ensures Drifted(t, old(links), links, old(stirred), stirred)
      ensures NoneEmpty(t, old(links).act, queue) ==> c != 0 && stirred == old(stirred)
    {
      hide PointersFollow, MasksBounded, Shaped, NoneEmpty, Calmed, Drifted, Picked, Pruned, NextInTurn, MasksKeptBut, TreesMatch, MasksMatch, ActivityMatches, PointersInside, DropsMatch, ActiveLeaves;
      k1 := links;
      SameIsPruned(t, links.act, queue);
      MasksAreKept(links.mask, level, {prio});
      c := NextLeaf(level, prio);
      PickedNow(t, old(links), queue, k1, level, prio, c);
      NotEmptyAt(t, links.act, queue, c);
      while queue[c] == []
        invariant LinkInv(t, links) && LeavesInOrder() && links.mode == old(links).mode
        invariant MasksKeptBut(old(links).mask, links.mask, level, {prio}) && Pruned(t, old(links).act, links.act, queue)
        invariant Drifted(t, old(links), links, old(stirred), stirred)
        invariant Serving(t, links, level, prio, c) && Picked(t, old(links), queue, k1, level, prio, c)
        invariant NoneEmpty(t, old(links).act, queue) ==> queue[c] != [] && stirred == old(stirred)
        decreases |ActiveLeaves(t, links.act)|
      {
        ghost var before, s0 := links, stirred;
        DropEmptyLeaf(c, level, prio);
        CalmedDrifted(t, before, links, s0, stirred);
        DriftedTrans(t, old(links), before, links, old(stirred), s0, stirred);
        PrunedTrans(t, old(links).act, before.act, links.act, queue);
        MasksKeptTrans(old(links).mask, before.mask, links.mask, level, {prio});
        if prio !in links.mask[level] {
          c := 0;
          return;
        }
        k1 := links;
        c := NextLeaf(level, prio);
        DriftedTrans(t, old(links), k1, links, old(stirred), stirred, stirred);
        PickedNow(t, old(links), queue, k1, level, prio, c);
      }
    }

    /** Takes the head packet of a leaf. */
    method TakeHead(c: Id) returns (pkt: Packet)
      requires c in t && LeavesInOrder() && queue[c] != []
      modifies `queue
      ensures LeavesInOrder()
      ensures pkt == old(queue)[c][0] && queue == old(queue)[c := old(queue)[c][1..]]
    {
      pkt := queue[c][0];
      HeadTaken(t, links.act, queue, c);
      queue := queue[c := queue[c][1..]];
    }

    /** Ends the turn of the selected leaf when its deficit is used up. */
    method TakeTurn(c: Id, level: nat, prio: nat, bytes: nat)
      requires LinkInv(t, links) && LeavesInOrder() && c in t && t[c].level == 0 && level < MAXDEPTH
      requires Home(t, c, level, prio) in links.tree && links.ptr[Home(t, c, level, prio)] == c
      modifies `deficit, `links
      ensures LinkInv(t, links) && LeavesInOrder() && PointersMoved(old(links), links)
      ensures deficit == old(deficit)[c := old(deficit)[c][level := DeficitAfter(old(deficit)[c][level], bytes, t[c].quantum)]]
      ensures links.last == old(links).last && links.ptr == if old(deficit)[c][level] < bytes
                     then old(links).ptr[Home(t, c, level, prio) := NextAbove(links.tree[Home(t, c, level, prio)], c)] else old(links).ptr
      ensures Beats(t, links.tree[Home(t, c, level, prio)], c, OnLevel(old(deficit), level), Send(bytes),
                    Place(links.tree[Home(t, c, level, prio)], links.ptr[Home(t, c, level, prio)]), OnLevel(deficit, level))
    {
      hide Calmed, Beats, OnLevel, Place;
      MoveOn(c, level, prio, bytes);
      TurnIsBeat(t, links.tree[Home(t, c, level, prio)], old(deficit), level, c, bytes, links.ptr[Home(t, c, level, prio)], deficit);
    }

    method MoveOn(c: Id, level: nat, prio: nat, bytes: nat)
      requires LinkInv(t, links) && LeavesInOrder() && c in t && level < MAXDEPTH
      requires Home(t, c, level, prio) in links.tree && links.ptr[Home(t, c, level, prio)] == c
      modifies `deficit, `links
      ensures LinkInv(t, links) && LeavesInOrder() && PointersMoved(old(links), links)
      ensures deficit == old(deficit)[c := old(deficit)[c][level := DeficitAfter(old(deficit)[c][level], bytes, t[c].quantum)]]
      ensures links.last == old(links).last && links.ptr == if old(deficit)[c][level] < bytes
                     then old(links).ptr[Home(t, c, level, prio) := NextAbove(links.tree[Home(t, c, level, prio)], c)] else old(links).ptr
    {
      hide Calmed, DropsMatch, QueuesMatch;
      var d := deficit[c][level] - bytes;
      if d < 0 {
        d := d + t[c].quantum;
        var s := Home(t, c, level, prio);
        AdvanceIsFree(t, links, s);
        links := links.(ptr := links.ptr[s := NextAbove(links.tree[s], links.ptr[s])]);
      }
      assert d == DeficitAfter(deficit[c][level], bytes, t[c].quantum);
      DeficitKept(t, links.act, drops, queue, deficit, c, level, d);
      deficit := deficit[c := deficit[c][level := d]];
    }

    /** A leaf whose queue ran empty is no longer active. */
    method Settle(c: Id)
      requires c in t && t[c].level == 0 && LinkInv(t, links) && LeavesInOrder() && links.act[c] != {}
      modifies `links, `stirred, `drops
      ensures LinkInv(t, links) && LeavesInOrder() && links.mode == old(links).mode
      ensures links.act[c] == if queue[c] == [] then {} else old(links).act[c]
      ensures forall d | d in t && t[d].level == 0 && d != c :: links.act[d] == old(links).act[d]
      ensures Calmed(old(links), links, old(stirred), stirred)
      ensures stirred == old(stirred) || RanEmpty(queue, c)
    {
      hide Shaped, WellFormed, Calmed, TreesMatch, MasksMatch, PointersInside, PointersFollow, MasksKeptBut;
      InvStaysCalm(t, links, stirred);
      if queue[c] == [] {
        Deactivate(c);
        EmptyLeafGone(t, old(links).act, links.act, queue, c);
      }
    }

    /** Serves the head packet of the selected leaf. */
    method Serve(c: Id, level: nat, prio: nat) returns (pkt: Packet)
      requires LinkInv(t, links) && Timed() && LeavesInOrder() && level < MAXDEPTH
      requires Selected(t, links, level, prio, c) && queue[c] != [] && MayAsk(t, links.mode, c, level)
      modifies `timing, `books, `links, `stirred, `queue, `deficit, `drops
      ensures LinkInv(t, links) && Timed() && LeavesInOrder() && timing.now == old(timing).now
      ensures Served(t, old(timing), timing, old(queue), old(books), queue, books, c, pkt, level, ceilCost, rateCost)
      ensures Advanced(t, old(links), old(deficit), links, deficit, old(stirred), stirred, Home(t, c, level, prio), c, level, pkt.bytes)
      ensures links.mode == old(links).mode ==> stirred == old(stirred) || RanEmpty(queue, c)
    {
      hide Calmed, Drifted, Advanced, TimedInv, LinkInv, DropsMatch, Billed;
      pkt := Dislodge(c, level, prio);
      ghost var k1, s1 := links, stirred;
      ChargeLeaf(c, level, pkt.bytes);
      AdvanceThenCalm(t, old(links), old(deficit), k1, deficit, links, old(stirred), s1, stirred, Home(t, c, level, prio), c, level, pkt.bytes);
    }

    method ChargeLeaf(c: Id, level: nat, bytes: nat)
      requires c in t && t[c].level == 0 && LinkInv(t, links) && Timed() && LeavesInOrder() && MayAsk(t, links.mode, c, level)
      modifies `timing, `books, `links, `stirred
      ensures LinkInv(t, links) && Timed() && LeavesInOrder() && timing.now == old(timing).now
      ensures Billed(t, old(timing), timing, old(books), books, c, bytes, level, ceilCost, rateCost)
      ensures Calmed(old(links), links, old(stirred), stirred)
      ensures links.mode == old(links).mode ==> stirred == old(stirred)
    {
      hide Calmed, DropsMatch, QueuesMatch, TimingInv, LedgersInv, TreesMatch, MasksMatch, ActivityMatches, PointersInside, PathPaid, PathBooked;
      ReadyToCharge(t, hysteresis, links.mode, timing, books, c);
      ChargeClass(c, level, bytes);
      LeavesKept(t, old(links).act, links.act, drops, queue, deficit);
    }

    /** Takes the packet out, before it is paid for. */
    method Dislodge(c: Id, level: nat, prio: nat) returns (pkt: Packet)
      requires LinkInv(t, links) && LeavesInOrder() && level < MAXDEPTH
      requires Selected(t, links, level, prio, c) && queue[c] != []
      modifies `links, `stirred, `queue, `deficit, `drops
      ensures LinkInv(t, links) && LeavesInOrder() && links.mode == old(links).mode
      ensures pkt == old(queue)[c][0] && queue == old(queue)[c := old(queue)[c][1..]]
      ensures Advanced(t, old(links), old(deficit), links, deficit, old(stirred), stirred, Home(t, c, level, prio), c, level, pkt.bytes)
      ensures stirred == old(stirred) || RanEmpty(queue, c)
    {
      hide Calmed, Drifted, Advanced, DropsMatch, LinkInv;
      pkt := TakeHead(c);
      FinishTurn(c, level, prio, pkt.bytes);
    }

    /** Ends the turn of a leaf if its deficit is used up, and its activity if its queue ran empty. */
    method FinishTurn(c: Id, level: nat, prio: nat, bytes: nat)
      requires LinkInv(t, links) && LeavesInOrder() && level < MAXDEPTH && Selected(t, links, level, prio, c)
      modifies `links, `stirred, `deficit, `drops
      ensures LinkInv(t, links) && LeavesInOrder() && links.mode == old(links).mode
      ensures Advanced(t, old(links), old(deficit), links, deficit, old(stirred), stirred, Home(t, c, level, prio), c, level, bytes)
      ensures stirred == old(stirred) || RanEmpty(queue, c)
    {
      hide Calmed, DropsMatch, QueuesMatch, TreesMatch, MasksMatch, MasksBounded, ActivityMatches, PointersInside, WellFormed, DeficitAfter, Beats, OnLevel, Place;
      TakeTurn(c, level, prio, bytes);
      ghost var k1 := links;
      TurnAdvances(t, old(links), old(deficit), links, deficit, stirred, Home(t, c, level, prio), c, level, bytes);
      Settle(c);
      AdvanceThenCalm(t, old(links), old(deficit), k1, deficit, links, old(stirred), old(stirred), stirred, Home(t, c, level, prio), c, level, bytes);
    }

    /** Serves one packet from the row of `level` at `prio`; `c` is the leaf it came from, 0 if the
        row turned out to hold no packets. */
    method DequeueTree(level: nat, prio: nat) returns (c: Id, pkt: Packet, ghost k1: Links)
      requires LinkInv(t, links) && Timed() && LeavesInOrder() && level < MAXDEPTH && prio in links.mask[level]
      modifies `timing, `books, `links, `stirred, `queue, `deficit, `drops
      ensures LinkInv(t, links) && Timed() && LeavesInOrder() && timing.now == old(timing).now
      ensures c == 0 ==>
                && timing == old(timing) && links.mode == old(links).mode && queue == old(queue) && books == old(books)
                && Pruned(t, old(links).act, links.act, queue)
                && MasksKeptBut(old(links).mask, links.mask, level, {prio}) && prio !in links.mask[level]
      ensures c != 0 ==>
                && Served(t, old(timing), timing, old(queue), old(books), queue, books, c, pkt, level, ceilCost, rateCost)
                && c in t && t[c].prio == prio && Lender(t, old(links).mode, c) != 0 && t[Lender(t, old(links).mode, c)].level == level
                && Picked(t, old(links), old(queue), k1, level, prio, c)
      ensures c == 0 ==> Drifted(t, old(links), links, old(stirred), stirred) && deficit == old(deficit)
      ensures c != 0 ==> c in t && Advanced(t, old(links), old(deficit), links, deficit, old(stirred), stirred, Home(t, c, level, prio), c, level, pkt.bytes)
      ensures NoneEmpty(t, old(links).act, old(queue)) ==> c != 0 && (links.mode == old(links).mode ==> stirred == old(stirred) || RanEmpty(queue, c))
    {
      hide NoneEmpty, Rests, Calmed, Drifted, Advanced, DropsMatch, TimedInv, Picked, Billed;
      c, k1 := PickLeaf(level, prio);
      pkt := Packet(0, 0);
      if c != 0 {
        ServingIsSelected(t, links, level, prio, c);
        LenderMayAsk(t, links.mode, c);
        ghost var k2, s2 := links, stirred;
        pkt := Serve(c, level, prio);
        DriftThenAdvance(t, old(links), old(deficit), k2, links, deficit, old(stirred), s2, stirred, Home(t, c, level, prio), c, level, pkt.bytes);
      }
    }

    // ---------- serving a level ----------

    const ticksPerSecond: nat

    /** Handles the due events of a level unless the cached next event is still ahead, and returns
        the time of the level's next event; `done` are the classes that had theirs. */
    method Catchup(level: nat, limited: bool, rounds: nat) returns (event: int, ghost done: set<Id>)
      requires level < MAXDEPTH && LinkInv(t, links) && Timed() && 0 < timing.now
      modifies `links, `stirred, `timing
      ensures LinkInv(t, links) && Timed() && LeafActivityKept(t, old(links).act, links.act)
      ensures LowMasksKept(old(links).mask, links.mask, level)
      ensures LevelDone(t, hysteresis, old(links).mode, old(timing), links.mode, timing, done, level, limited)
      ensures LevelReport(t, timing, level, event) && level in timing.nearest && timing.nearest[level] == event
      ensures !limited ==> Due(timing, level) == {}
      ensures !limited && ticksPerSecond > 0 ==> timing.now < event
      ensures Calmed(old(links), links, old(stirred), stirred)
      ensures old(Due(timing, level)) == {} ==> Undisturbed(old(links), old(stirred), links, stirred)
    {
      hide Undisturbed, Calmed, LinkInv, LedgersInv, NextEvent, EventsApplied, OtherLevelsKept, WaitsMatch, CacheSound, LeafActivityKept, NextKey;
      AllKept(t, links);
      Untouched(links, stirred);
      InvStaysCalm(t, links, stirred);
      if timing.now >= timing.nearest[level] {
        var e := DoEvents(level, limited, rounds);
        done := Due(old(timing), level) - Due(timing, level);
        ghost var w1 := timing;
        event := RecordEvent(level, limited, e);
        LevelDoneCached(t, hysteresis, old(links).mode, old(timing), links.mode, w1, done, level, limited, event);
      } else {
        SkippedLevel(t, links.mode, timing, level);
        NothingDone(t, hysteresis, links.mode, timing, level, limited);
        done := {};
        event := timing.nearest[level];
      }
    }

    /** Caches what the event handler reported. */
    method RecordEvent(level: nat, limited: bool, e: int) returns (event: int)
      requires level < MAXDEPTH && Timed() && NextEvent(t, timing, level, limited, e)
      modifies `timing
      ensures Timed() && timing == old(timing).(nearest := old(timing).nearest[level := event])
      ensures LevelReport(t, timing, level, event) && Due(timing, level) == Due(old(timing), level)
      ensures !limited && ticksPerSecond > 0 ==> timing.now < event
    {
      event := if e == 0 then timing.now + ticksPerSecond else e;
      CacheReport(t, hysteresis, links.mode, timing, books, level, limited, e, event);
      ReportedLevel(t, links.mode, timing, level, limited, e, event);
      timing := timing.(nearest := timing.nearest[level := event]);
    }

    /** Tries the active priorities of a level in order; `c` is the leaf served, 0 if none had
        a packet. */
    method ServeLevel(level: nat) returns (c: Id, pkt: Packet, ghost prio: nat, ghost k1: Links)
      requires LinkInv(t, links) && Timed() && LeavesInOrder() && level < MAXDEPTH
      modifies `timing, `books, `links, `stirred, `queue, `deficit, `drops
      ensures LinkInv(t, links) && Timed() && LeavesInOrder() && timing.now == old(timing).now
      ensures c == 0 ==>
                && timing == old(timing) && links.mode == old(links).mode && queue == old(queue) && books == old(books)
                && Pruned(t, old(links).act, links.act, queue)
                && LowMasksKept(old(links).mask, links.mask, level) && level in links.mask && links.mask[level] == {}
      ensures c != 0 ==>
                && Served(t, old(timing), timing, old(queue), old(books), queue, books, c, pkt, level, ceilCost, rateCost)
                && Leveled(t, old(links), old(queue), k1, level, prio, c)
      ensures c == 0 ==> Drifted(t, old(links), links, old(stirred), stirred) && deficit == old(deficit)
      ensures c != 0 ==> c in t && Advanced(t, old(links), old(deficit), links, deficit, old(stirred), stirred, Home(t, c, level, prio), c, level, pkt.bytes)
      ensures NoneEmpty(t, old(links).act, old(queue)) ==> if c == 0 then Undisturbed(old(links), old(stirred), links, stirred)
                     else links.mode == old(links).mode ==> stirred == old(stirred) || RanEmpty(queue, c)
    {
      hide NoneEmpty, Rests, Calmed, Drifted, Advanced, DropsMatch, TimedInv, Picked, Served, Leveled, Pruned, TreesMatch, MasksMatch, PointersInside;
      c, pkt, prio, k1 := 0, Packet(0, 0), 0, links;
      var m := links.mask[level];
      SameIsPruned(t, links.act, queue);
      InvStaysCalm(t, links, stirred);
      CalmedDrifted(t, links, links, stirred, stirred);
      while m != {}
        invariant LinkInv(t, links) && Timed() && LeavesInOrder()
        invariant timing == old(timing) && links.mode == old(links).mode && queue == old(queue) && books == old(books)
        invariant Pruned(t, old(links).act, links.act, queue)
        invariant NoneEmpty(t, old(links).act, queue) ==> Undisturbed(old(links), old(stirred), links, stirred)
        invariant Drifted(t, old(links), links, old(stirred), stirred) && deficit == old(deficit)
        invariant LowMasksKept(old(links).mask, links.mask, level) && links.mask[level] == m && c == 0
        decreases m
      {
        ghost var before, s0 := links, stirred;
        prio := Least(m);
        c, pkt, k1 := DequeueTree(level, Least(m));
        if c != 0 {
          DriftThenAdvance(t, old(links), old(deficit), before, links, deficit, old(stirred), s0, stirred, Home(t, c, level, prio), c, level, pkt.bytes);
          PickedIsLeveled(t, old(links), before, old(queue), k1, level, prio, c);
          return;
        }
        DriftedTrans(t, old(links), before, links, old(stirred), s0, stirred);
        OnePrioDone(before.mask, links.mask, level, prio);
        PrunedTrans(t, old(links).act, before.act, links.act, queue);
        m := m - {Least(m)};
      }
    }

    /** Serves the lowest level that has something to serve at time `time`.  When nothing can be
        served (`c == 0`), `wake` is when to try again. */
    method DequeueShaped(time: int, limited: bool, rounds: seq<nat>) returns (c: Id, pkt: Packet, wake: int, ghost turn: Turn)
      requires LinkInv(t, links) && Timed() && LeavesInOrder()
      requires timing.now <= time && 0 < time && |rounds| == MAXDEPTH
      modifies `timing, `books, `links, `stirred, `queue, `deficit, `drops
      ensures LinkInv(t, links) && Timed() && LeavesInOrder() && timing.now == time
      ensures c == 0 ==>
                && queue == old(queue) && books == old(books)
                && EventModes(t, hysteresis, old(links).mode, old(timing).(now := time), links.mode, MAXDEPTH, limited)
                && Tried(t, links, timing, MAXDEPTH, wake, time + 5 * ticksPerSecond, ticksPerSecond, limited) && SameBuckets(old(timing).(now := time), timing)
      ensures c != 0 ==>
                && Served(t, old(timing).(now := time), timing, old(queue), old(books), queue, books,
                          c, pkt, turn.level, ceilCost, rateCost)
                && Chosen(t, hysteresis, old(links), old(timing).(now := time), old(queue), turn, c, limited)
      ensures c == 0 ==> Drifted(t, old(links), links, old(stirred), stirred) && deficit == old(deficit)
      ensures c != 0 ==> c in t && Advanced(t, old(links), old(deficit), links, deficit, old(stirred), stirred, Home(t, c, turn.level, turn.prio), c, turn.level, pkt.bytes)
      ensures Rests(t, old(links).act, old(timing).(now := time), old(queue)) ==> if c == 0 then Undisturbed(old(links), old(stirred), links, stirred)
                     else links.mode == old(links).mode ==> stirred == old(stirred) || RanEmpty(queue, c)
    {
      hide RanEmpty, NoneEmpty, Rests, Calmed, Drifted, Advanced, LinkInv, LeavesInv, Served, Chosen, Tried, EventModes, TimingInv, LedgersInv;
      TimePassesAll(t, hysteresis, links.mode, timing, books, time);
      timing := timing.(now := time);
      c, pkt, wake, turn := DequeueLevels(limited, rounds);
    }

    method DequeueLevels(limited: bool, rounds: seq<nat>) returns (c: Id, pkt: Packet, wake: int, ghost turn: Turn)
      requires LinkInv(t, links) && Timed() && LeavesInOrder() && 0 < timing.now && |rounds| == MAXDEPTH
      modifies `timing, `books, `links, `stirred, `queue, `deficit, `drops
      ensures LinkInv(t, links) && Timed() && LeavesInOrder() && timing.now == old(timing).now
      ensures c == 0 ==>
                && queue == old(queue) && books == old(books)
                && EventModes(t, hysteresis, old(links).mode, old(timing), links.mode, MAXDEPTH, limited)
                && Tried(t, links, timing, MAXDEPTH, wake, timing.now + 5 * ticksPerSecond, ticksPerSecond, limited) && SameBuckets(old(timing), timing)
      ensures c != 0 ==>
                && Served(t, old(timing), timing, old(queue), old(books), queue, books, c, pkt, turn.level, ceilCost, rateCost)
                && Chosen(t, hysteresis, old(links), old(timing), old(queue), turn, c, limited)
      ensures c == 0 ==> Drifted(t, old(links), links, old(stirred), stirred) && deficit == old(deficit)
      ensures c != 0 ==> c in t && Advanced(t, old(links), old(deficit), links, deficit, old(stirred), stirred, Home(t, c, turn.level, turn.prio), c, turn.level, pkt.bytes)
      ensures Rests(t, old(links).act, old(timing), old(queue)) ==> if c == 0 then Undisturbed(old(links), old(stirred), links, stirred)
                     else links.mode == old(links).mode ==> stirred == old(stirred) || RanEmpty(queue, c)
    {
      hide RanEmpty, NoneEmpty, Rests, Calmed, Drifted, Advanced, LinkInv, LeavesInv, TimedInv, Served, Chosen, Pruned, EventModes, TimingShaped;
      wake := timing.now + 5 * ticksPerSecond;
      ghost var cap := wake;
      BeginLevels(t, hysteresis, links, timing, books, queue, cap, ticksPerSecond, limited);
      InvStaysCalm(t, links, stirred);
      CalmedDrifted(t, links, links, stirred, stirred);
      c, pkt, turn := 0, Packet(0, 0), Turn(links, 0, 0);
      var level := 0;
      while level < MAXDEPTH
        invariant level <= MAXDEPTH && c == 0
        invariant LinkInv(t, links) && Timed() && LeavesInOrder()
        invariant queue == old(queue) && books == old(books) && timing.now == old(timing).now
        invariant Handled(t, hysteresis, old(links).mode, old(timing), links.mode, timing, level, limited)
        invariant Pruned(t, old(links).act, links.act, queue)
        invariant Rests(t, old(links).act, old(timing), queue) ==> Undisturbed(old(links), old(stirred), links, stirred)
        invariant Drifted(t, old(links), links, old(stirred), stirred) && deficit == old(deficit)
        invariant Tried(t, links, timing, level, wake, cap, ticksPerSecond, limited)
      {
        c, pkt, wake, turn := TryLevel(level, wake, limited, rounds[level], old(links), old(timing), cap, old(stirred));
        if c != 0 {
          return;
        }
        level := level + 1;
      }
    }

    /** Catches up with the events of one level and serves a packet from it if it can. */
    method TryLevel(l: nat, wake0: int, limited: bool, rounds: nat, ghost k0: Links, ghost w0: Timing, ghost cap: int, ghost s0: set<Slot>)
      returns (c: Id, pkt: Packet, wake: int, ghost turn: Turn)
      requires LinkInv(t, links) && Timed() && LeavesInOrder() && l < MAXDEPTH && 0 < timing.now
      requires TimedInv(t, hysteresis, k0.mode, w0, books) && Pruned(t, k0.act, links.act, queue)
      requires Handled(t, hysteresis, k0.mode, w0, links.mode, timing, l, limited)
      requires Tried(t, links, timing, l, wake0, cap, ticksPerSecond, limited)
      requires Drifted(t, k0, links, s0, stirred)
      requires Rests(t, k0.act, w0, queue) ==> Undisturbed(k0, s0, links, stirred)
      modifies `timing, `books, `links, `stirred, `queue, `deficit, `drops
      ensures LinkInv(t, links) && Timed() && LeavesInOrder() && wake <= wake0 && timing.now == old(timing).now
      ensures c == 0 ==>
                && queue == old(queue) && books == old(books) && timing.now == old(timing).now
                && Pruned(t, k0.act, links.act, queue) && Handled(t, hysteresis, k0.mode, w0, links.mode, timing, l + 1, limited)
                && Tried(t, links, timing, l + 1, wake, cap, ticksPerSecond, limited)
      ensures c != 0 ==>
                && turn.level == l && Served(t, w0, timing, old(queue), old(books), queue, books, c, pkt, l, ceilCost, rateCost)
                && Chosen(t, hysteresis, k0, w0, old(queue), turn, c, limited)
      ensures Rests(t, k0.act, w0, old(queue)) ==> if c == 0 then Undisturbed(k0, s0, links, stirred)
                     else links.mode == k0.mode ==> stirred == s0 || RanEmpty(queue, c)
      ensures c == 0 ==> Drifted(t, k0, links, s0, stirred) && deficit == old(deficit)
      ensures c != 0 ==> c in t && Advanced(t, k0, old(deficit), links, deficit, s0, stirred, Home(t, c, l, turn.prio), c, l, pkt.bytes)
    {
      hide Undisturbed, RanEmpty, NoneEmpty, Rests, Calmed, Drifted, Advanced, TimingInv, LedgersInv, LeavesInv, Pruned, EventModes, Leveled, Chosen, Billed,
           LinkInv, WakesInTime, NoneDue, Earliest, Ahead;
      wake := CatchupLevel(l, wake0, limited, rounds, k0, w0, cap, s0);
      ghost var k1, w1, s1 := links, timing, stirred;
      ghost var prio, k2;
      c, pkt, prio, k2 := ServeLevel(l);
      turn := Turn(k2, l, prio);
      if Rests(t, k0.act, w0, old(queue)) {
        UndisturbedTrans(k0, s0, k1, s1, links, stirred);
      }
      if c == 0 {
        RowsStayEmpty(old(links).mask, k1.mask, links.mask, l);
        PrunedTrans(t, k0.act, k1.act, links.act, queue);
        DriftedTrans(t, k0, k1, links, s0, s1, stirred);
      } else {
        DriftThenAdvance(t, k0, old(deficit), k1, links, deficit, s0, s1, stirred, Home(t, c, l, prio), c, l, pkt.bytes);
        RowsKept(old(links).mask, k1.mask, l);
        LeveledIsChosen(t, hysteresis, k0, w0, old(queue), k1, k2, l, prio, c, limited);
        BilledAgrees(t, w0, w1, timing, old(books), books, c, pkt.bytes, l, ceilCost, rateCost);
      }
    }

    method CatchupLevel(l: nat, wake0: int, limited: bool, rounds: nat, ghost k0: Links, ghost w0: Timing, ghost cap: int, ghost s0: set<Slot>)
      returns (wake: int)
      requires LinkInv(t, links) && Timed() && LeavesInOrder() && l < MAXDEPTH && 0 < timing.now
      requires TimedInv(t, hysteresis, k0.mode, w0, books) && Pruned(t, k0.act, links.act, queue)
      requires Handled(t, hysteresis, k0.mode, w0, links.mode, timing, l, limited)
      requires Tried(t, links, timing, l, wake0, cap, ticksPerSecond, limited)
      requires Drifted(t, k0, links, s0, stirred)
      requires Rests(t, k0.act, w0, queue) ==> Undisturbed(k0, s0, links, stirred)
      modifies `timing, `links, `stirred
      ensures LinkInv(t, links) && Timed() && LeavesInOrder() && wake <= wake0
      ensures Handled(t, hysteresis, k0.mode, w0, links.mode, timing, l + 1, limited)
      ensures Pruned(t, k0.act, links.act, queue) && timing.now == old(timing).now
      ensures LowMasksKept(old(links).mask, links.mask, l)
      ensures TimingShaped(t, timing) && WakesInTime(t, timing, l + 1, wake) && (!limited ==> NoneDue(t, timing, l + 1))
      ensures Earliest(timing, l + 1, wake, cap) && Ahead(timing, l + 1, ticksPerSecond, limited)
      ensures Drifted(t, k0, links, s0, stirred)
      ensures Rests(t, k0.act, w0, queue) ==> Undisturbed(k0, s0, links, stirred) && NoneEmpty(t, links.act, queue)
    {
      hide Undisturbed, Drifted, Rests, NoneEmpty, Calmed, LinkInv, LedgersInv, DropsMatch, QueuesMatch, Pruned, EventModes, LaterKept, WaitsMatch, CacheSound;
      ghost var done;
      var event;
      RestsAt(t, hysteresis, k0, s0, links, stirred, w0, timing, books, queue, l, limited);
      event, done := Catchup(l, limited, rounds);
      CalmedDrifted(t, old(links), links, old(stirred), stirred);
      DriftedTrans(t, k0, old(links), links, s0, old(stirred), stirred);
      if Rests(t, k0.act, w0, queue) {
        UndisturbedTrans(k0, s0, old(links), old(stirred), links, stirred);
      }
      HandledStep(t, hysteresis, k0.mode, w0, old(links).mode, old(timing), links.mode, timing, done, l, limited);
      CaughtUp(t, old(links).mode, old(timing), timing, l, wake0, event, limited);
      LeavesKept(t, old(links).act, links.act, drops, queue, deficit);
      KeptIsPruned(t, old(links).act, links.act, queue);
      PrunedTrans(t, k0.act, old(links).act, links.act, queue);
      EarliestStep(t, old(timing), timing, l, wake0, cap, event, ticksPerSecond, limited);
      wake := Min(wake0, event);
    }

    // ---------- the whole queue ----------

    ghost predicate Counted()
      reads this
    {
      CountInv(queue, direct, ofbuf, qlen, lost)
    }

    /** The invariant of the scheduler. */
    ghost predicate Valid()
      reads this
    {
      Sound() && ofbufQueued == |ofbuf|
    }

    /** The invariant but for the length of the overflow buffer, which is reset only at the end of
        a drain. */
    ghost predicate Sound()
      reads this
    {
      LinkInv(t, links) && Timed() && LeavesInOrder() && Counted() && Booked()
    }

    /** Every class paid exactly what it owes for the packets served. */
    ghost predicate Booked()
      reads this
    {
      Accounted(t, served, books, ceilCost, rateCost)
    }

    /** A packet accepted by a leaf joins its queue and activates it. */
    method AcceptPacket(c: Id, pkt: Packet)
      requires c in t && t[c].level == 0 && LinkInv(t, links) && LeavesInOrder()
      modifies `links, `stirred, `queue, `drops
      ensures LinkInv(t, links) && LeavesInOrder() && links.mode == old(links).mode
      ensures queue == old(queue)[c := old(queue)[c] + [pkt]]
      ensures Calmed(old(links), links, old(stirred), stirred)
      ensures old(links).act[c] != {} ==> stirred == old(stirred)
    {
      hide Calmed, TreesMatch, MasksMatch, PointersInside, DropsMatch;
      Activate(c);
      PacketAdded(t, old(links).act, links.act, queue, c, pkt);
      queue := queue[c := queue[c] + [pkt]];
    }

    method PutDirect(pkt: Packet)
      requires Counted()
      modifies `direct, `qlen
      ensures Counted() && direct == old(direct) + [pkt] && qlen == old(qlen) + 1
    {
      direct := direct + [pkt];
      qlen := qlen + 1;
    }

    method PutOverflow(pkt: Packet)
      requires Counted()
      modifies `ofbuf, `ofbufQueued, `qlen
      ensures Counted() && ofbuf == old(ofbuf) + [pkt] && ofbufQueued == old(ofbufQueued) + 1 && qlen == old(qlen) + 1
    {
      ofbuf := ofbuf + [pkt];
      ofbufQueued := ofbufQueued + 1;
      qlen := qlen + 1;
    }

    method PutLeaf(c: Id, pkt: Packet)
      requires Sound() && c in t && t[c].level == 0
      modifies `links, `stirred, `queue, `drops, `qlen
      ensures Sound() && queue == old(queue)[c := old(queue)[c] + [pkt]] && qlen == old(qlen) + 1 && links.mode == old(links).mode
      ensures Calmed(old(links), links, old(stirred), stirred)
      ensures old(links).act[c] != {} ==> stirred == old(stirred)
    {
      hide Calmed, TimingInv, LedgersInv, LinkInv, DropsMatch, Accounted;
      BacklogUpdate(queue, c, queue[c] + [pkt]);
      AcceptPacket(c, pkt);
      qlen := qlen + 1;
    }

    /** Takes in a packet that the classifier sent to `target`; `accepts` is the verdict of the leaf's
        own queue.  A packet the leaf refuses goes to the overflow buffer. */
    method Enqueue(pkt: Packet, target: Target, accepts: bool) returns (taken: bool)
      requires Sound() && (target.Leaf? ==> target.cls in t && t[target.cls].level == 0)
      modifies `links, `stirred, `queue, `drops, `direct, `ofbuf, `ofbufQueued, `qlen
      ensures Sound() && ofbufQueued - |ofbuf| == old(ofbufQueued) - |old(ofbuf)| && links.mode == old(links).mode
      ensures taken <==> target.Leaf? || (target.Direct? && |old(direct)| < directLimit)
      ensures Offered(pkt, target, accepts, directLimit, old(queue), old(direct), old(qlen), queue, direct, qlen)
      ensures ofbuf == if target.Leaf? && !accepts then old(ofbuf) + [pkt] else old(ofbuf)
      ensures Calmed(old(links), links, old(stirred), stirred)
      ensures (target.Leaf? && accepts ==> old(links).act[target.cls] != {}) ==> stirred == old(stirred)
    {
      hide CountInv, DropsMatch, QueuesMatch, Calmed, TimedInv, LinkInv, Accounted;
      InvStaysCalm(t, links, stirred);
      match target {
        case Direct =>
          taken := |direct| < directLimit;
          if taken {
            PutDirect(pkt);
          }
        case Refused =>
          taken := false;
        case Leaf(c) =>
          taken := true;
          if accepts {
            PutLeaf(c, pkt);
          } else {
            PutOverflow(pkt);
          }
      }
    }

    /** Takes the oldest packet out of the overflow buffer. */
    method TakeOverflow() returns (pkt: Packet)
      requires Counted() && ofbuf != []
      modifies `ofbuf, `lost
      ensures Counted() && pkt == old(ofbuf)[0] && ofbuf == old(ofbuf)[1..]
    {
      pkt := ofbuf[0];
      ofbuf := ofbuf[1..];
      lost := lost + 1;
    }

    /** After a packet left: the overflow buffer is emptied, and the packet drawn by `random` is
        offered once more. */
    method Drain(random: nat, target: Target, accepts: bool)
      requires Valid() && (target.Leaf? ==> target.cls in t && t[target.cls].level == 0)
      modifies `links, `stirred, `queue, `drops, `direct, `ofbuf, `ofbufQueued, `qlen, `lost
      ensures Valid() && ofbuf == [] && ofbufQueued == 0
      ensures old(ofbuf) == [] ==> queue == old(queue) && direct == old(direct) && qlen == old(qlen)
      ensures old(ofbuf) != [] ==>
                Offered(old(ofbuf)[random % |old(ofbuf)|], target, accepts, directLimit,
                        old(queue), old(direct), old(qlen), queue, direct, qlen)
      ensures Calmed(old(links), links, old(stirred), stirred)
      ensures old(ofbuf) == [] ==> links == old(links) && stirred == old(stirred)
    {
      hide Calmed, TimedInv, LinkInv, LeavesInv, Accounted;
      InvStaysCalm(t, links, stirred);
      if ofbufQueued > 0 {
        Reoffer(random % ofbufQueued, target, accepts);
        ofbufQueued := 0;
      }
    }

    /** Empties the overflow buffer, offering its packet `r` on the way; that packet may come back to
        the buffer, but only to be discarded. */
    method Reoffer(r: nat, target: Target, accepts: bool)
      requires Sound() && r < |ofbuf| && (target.Leaf? ==> target.cls in t && t[target.cls].level == 0)
      modifies `links, `stirred, `queue, `drops, `direct, `ofbuf, `ofbufQueued, `qlen, `lost
      ensures Sound() && ofbuf == []
      ensures Offered(old(ofbuf)[r], target, accepts, directLimit, old(queue), old(direct), old(qlen), queue, direct, qlen)
      ensures Calmed(old(links), links, old(stirred), stirred)
    {
      hide Calmed, TimedInv, LinkInv, LeavesInv, Offered, Accounted;
      var i := 0;
      InvStaysCalm(t, links, stirred);
      while ofbuf != []
        invariant Sound() && Calmed(old(links), links, old(stirred), stirred)
        invariant Draining(old(ofbuf), r, target, accepts, directLimit, old(queue), old(direct), old(qlen), i, ofbuf, queue, direct, qlen)
        decreases i <= r, |ofbuf|
      {
        ghost var rest := ofbuf;
        var pkt := TakeOverflow();
        DrainStep(old(ofbuf), r, rest, i);
        if i == r {
          ghost var k1, s1 := links, stirred;
          var _ := Enqueue(pkt, target, accepts);
          CalmedTrans(old(links), k1, links, old(stirred), s1, stirred);
        }
        i := i + 1;
      }
    }

    /** Counts a packet out and drains the overflow buffer. */
    method Depart(random: nat, target: Target, accepts: bool)
      requires LinkInv(t, links) && Timed() && LeavesInOrder() && Booked() && ofbufQueued == |ofbuf|
      requires CountInv(queue, direct, ofbuf, qlen - 1, lost)
      requires target.Leaf? ==> target.cls in t && t[target.cls].level == 0
      modifies `links, `stirred, `queue, `drops, `direct, `ofbuf, `ofbufQueued, `qlen, `lost
      ensures Valid()
      ensures Departed(old(queue), old(direct), old(ofbuf), old(qlen), random, target, accepts, directLimit, queue, direct, ofbuf, qlen)
      ensures Calmed(old(links), links, old(stirred), stirred)
      ensures old(ofbuf) == [] ==> links == old(links) && stirred == old(stirred) && queue == old(queue)
    {
      hide Calmed, TimedInv, LinkInv, LeavesInv, CountInv, Offered, Accounted;
      qlen := qlen - 1;
      Drain(random, target, accepts);
    }

    /** Serves the packet whose turn it is at time `time`.  `limited` and `rounds` say whether and when
        the event handlers run out of time; `random`, `target` and `accepts` decide the fate of the
        overflow buffer.
        - The head of the direct queue goes first.  Otherwise the packet is the head of the queue of leaf
          `c`, chosen as `turn` says, and is paid for by the leaf and its ancestors.  It leaves its queue
          and is counted out, and then one overflow packet is offered again.
        - No packet is returned only if none is held, or if no leaf that has packets finds a class on its
          way up that can send; then nothing changes but modes, waiting and the activity of empty leaves. */
    method Dequeue(time: int, limited: bool, rounds: seq<nat>, random: nat, target: Target, accepts: bool)
      returns (r: Option<Packet>, wake: int, c: Id, ghost turn: Turn)
      requires Valid() && timing.now <= time && 0 < time && |rounds| == MAXDEPTH
      requires target.Leaf? ==> target.cls in t && t[target.cls].level == 0
      modifies `timing, `books, `served, `links, `stirred, `queue, `deficit, `drops, `direct, `ofbuf, `ofbufQueued, `qlen, `lost
      ensures Valid() && timing.now == if old(direct) != [] || old(qlen) == 0 then old(timing).now else time
      ensures served == old(served) + if old(direct) == [] && r.Some? then [Out(time, c, r.value.bytes, turn.level)] else []
      ensures old(direct) != [] ==>
                && r == Some(old(direct)[0]) && books == old(books) && timing == old(timing)
                && Departed(old(queue), old(direct)[1..], old(ofbuf), old(qlen), random, target, accepts, directLimit, queue, direct, ofbuf, qlen)
      ensures old(direct) == [] && r.Some? ==>
                && c in old(queue) && old(queue)[c] != [] && r.value == old(queue)[c][0]
                && Chosen(t, hysteresis, old(links), old(timing).(now := time), old(queue), turn, c, limited)
                && Billed(t, old(timing).(now := time), timing, old(books), books, c, r.value.bytes, turn.level, ceilCost, rateCost)
                && Departed(old(queue)[c := old(queue)[c][1..]], [], old(ofbuf), old(qlen), random, target, accepts, directLimit, queue, direct, ofbuf, qlen)
      ensures r.None? ==> queue == old(queue) && direct == [] && ofbuf == old(ofbuf) && qlen == old(qlen) && books == old(books)
      ensures r.None? && qlen == 0 ==> forall c | c in t :: c in queue && queue[c] == []
      ensures r.None? && qlen != 0 ==>
                && EventModes(t, hysteresis, old(links).mode, old(timing).(now := time), links.mode, MAXDEPTH, limited)
                && Tried(t, links, timing, MAXDEPTH, wake, time + 5 * ticksPerSecond, ticksPerSecond, limited)
                && NobodyServable(t, links, queue)
                && (!limited && ticksPerSecond > 0 ==> time < wake)
                && (!limited && !hysteresis ==> NobodySolvent(t, old(timing).(now := time), queue))
      ensures r.None? || old(direct) != [] ==> Drifted(t, old(links), links, old(stirred), stirred) && deficit == old(deficit)
      ensures old(direct) == [] && r.Some? ==>
                && c in t && Advanced(t, old(links), old(deficit), links, deficit, old(stirred), stirred, Home(t, c, turn.level, turn.prio), c, turn.level, r.value.bytes)
      ensures Rests(t, old(links).act, old(timing).(now := time), old(queue)) && links.mode == old(links).mode && old(ofbuf) == [] ==>
                stirred == old(stirred) || (old(direct) == [] && r.Some? && RanEmpty(queue, c))
    {
      hide NoneEmpty, Rests, Calmed, Drifted, Advanced, TimedInv, LinkInv, LeavesInv, Tried, NobodyServable, NobodySolvent, Offered, Billed, Chosen, EventModes, Departed, Accounted;
      wake, c, turn := 0, 0, Turn(links, 0, 0);
      InvStaysCalm(t, links, stirred);
      CalmedDrifted(t, links, links, stirred, stirred);
      if direct != [] {
        r := Some(direct[0]);
        direct := direct[1..];
        Depart(random, target, accepts);
        CalmedDrifted(t, old(links), links, old(stirred), stirred);
      } else if qlen == 0 {
        r := None;
        NoneQueued();
      } else {
        r, wake, c, turn := LeaveLeaf(time, limited, rounds);
        if r.Some? {
          ghost var k1, s1 := links, stirred;
          Depart(random, target, accepts);
          AdvanceThenCalm(t, old(links), old(deficit), k1, deficit, links, old(stirred), s1, stirred, Home(t, c, turn.level, turn.prio), c, turn.level, r.value.bytes);
        }
      }
    }

    lemma NoneQueued()
      requires LeavesInOrder() && Counted() && qlen == 0
      ensures direct == [] && ofbuf == [] && forall c | c in t :: c in queue && queue[c] == []
    {
      NothingHeld(queue, direct, ofbuf, qlen, lost);
    }

    /** Takes a packet out of a leaf, without counting it out. */
    method LeaveLeaf(time: int, limited: bool, rounds: seq<nat>) returns (r: Option<Packet>, wake: int, c: Id, ghost turn: Turn)
      requires Sound() && timing.now <= time && 0 < time && |rounds| == MAXDEPTH
      modifies `timing, `books, `served, `links, `stirred, `queue, `deficit, `drops
      ensures LinkInv(t, links) && Timed() && LeavesInOrder() && Booked() && timing.now == time
      ensures served == old(served) + if r.Some? then [Out(time, c, r.value.bytes, turn.level)] else []
      ensures r.Some? ==>
                && CountInv(queue, direct, ofbuf, qlen - 1, lost)
                && HeadLeft(old(queue), queue, c, r.value)
                && Chosen(t, hysteresis, old(links), old(timing).(now := time), old(queue), turn, c, limited)
                && Billed(t, old(timing).(now := time), timing, old(books), books, c, r.value.bytes, turn.level, ceilCost, rateCost)
      ensures r.None? ==>
                && queue == old(queue) && books == old(books) && Counted()
                && EventModes(t, hysteresis, old(links).mode, old(timing).(now := time), links.mode, MAXDEPTH, limited)
                && Tried(t, links, timing, MAXDEPTH, wake, time + 5 * ticksPerSecond, ticksPerSecond, limited)
                && NobodyServable(t, links, queue)
                && (!limited && ticksPerSecond > 0 ==> time < wake)
                && (!limited && !hysteresis ==> NobodySolvent(t, old(timing).(now := time), queue))
      ensures r.None? ==> Drifted(t, old(links), links, old(stirred), stirred) && deficit == old(deficit)
      ensures r.Some? ==> c in t && Advanced(t, old(links), old(deficit), links, deficit, old(stirred), stirred, Home(t, c, turn.level, turn.prio), c, turn.level, r.value.bytes)
      ensures Rests(t, old(links).act, old(timing).(now := time), old(queue)) && links.mode == old(links).mode ==>
                stirred == old(stirred) || (r.Some? && RanEmpty(queue, c))
    {
      hide NoneEmpty, Rests, Calmed, Drifted, Advanced, TimedInv, LinkInv, LeavesInv, NobodyServable, NobodySolvent, Billed, Chosen, EventModes, Accounted, WakesInTime, TimingShaped;
      var pkt;
      c, pkt, wake, turn := DequeueShaped(time, limited, rounds);
      r := None;
      if c != 0 {
        BacklogUpdate(old(queue), c, old(queue)[c][1..]);
        BilledAccounts(t, served, old(timing).(now := time), timing, old(books), books, c, pkt.bytes, turn.level, ceilCost, rateCost);
        served := served + [Out(time, c, pkt.bytes, turn.level)];
        r := Some(pkt);
      } else {
        NobodyLeft(t, links, timing, drops, queue, deficit, wake, time + 5 * ticksPerSecond, ticksPerSecond, limited);
        if !limited && !hysteresis {
          NobodySolventNow(t, old(links).mode, links, old(timing).(now := time), timing, books, queue);
        }
      }
    }

    // ---------- losing packets ----------

    /** A leaf's own queue discards packets without telling the scheduler. */
    method LeafSheds(c: Id, rest: seq<Packet>)
      requires Valid() && c in t && c in queue && |rest| <= |queue[c]|
      modifies `queue, `lost
      ensures Valid() && queue == old(queue)[c := rest] && qlen == old(qlen)
    {
      hide Calmed, TimedInv, LinkInv, DropsMatch, QueuesMatch, Accounted;
      BacklogUpdate(queue, c, rest);
      TailKeepsLeaves(t, links.act, drops, queue, deficit, c, rest);
      lost := lost + |queue[c]| - |rest|;
      queue := queue[c := rest];
    }

    /** The first leaf, least urgent priority first, that is willing to drop and has a packet; 0 if
        there is none. */
    method PickVictim(willing: set<Id>) returns (c: Id)
      requires LinkInv(t, links) && LeavesInOrder()
      ensures c == 0 ==> forall d | d in t && d in willing :: queue[d] == []
      ensures c != 0 ==> c in t && t[c].level == 0 && c in willing && queue[c] != []
      ensures c != 0 ==> forall d | d in t && d in willing && queue[d] != [] :: t[d].prio <= t[c].prio
    {
      var prio := NUMPRIO;
      c := 0;
      while prio > 0
        invariant prio <= NUMPRIO
        invariant forall d | d in t && d in willing && queue[d] != [] :: t[d].prio < prio
      {
        prio := prio - 1;
        c := VictimAt(prio, willing);
        if c != 0 {
          return;
        }
      }
    }

    method VictimAt(prio: nat, willing: set<Id>) returns (c: Id)
      requires LinkInv(t, links) && LeavesInOrder() && prio < NUMPRIO
      ensures c == 0 ==> forall d | d in t && d in willing && queue[d] != [] :: t[d].prio != prio
      ensures c != 0 ==> c in t && t[c].level == 0 && c in willing && queue[c] != [] && t[c].prio == prio
    {
      var list := drops[prio];
      for i := 0 to |list|
        invariant forall j | 0 <= j < i :: Spared(queue, willing, list[j])
      {
        assert list[i] in drops[prio];
        if list[i] in willing && queue[list[i]] != [] {
          return list[i];
        }
      }
      c := 0;
      forall d | d in t && d in willing && queue[d] != [] ensures t[d].prio != prio {
        assert !Spared(queue, willing, d);
        ListedForDrop(t, links, drops, queue, deficit, d);
      }
    }

    /** Drops one packet from the tail of a leaf. */
    method Drop(willing: set<Id>) returns (r: Option<Packet>, c: Id)
      requires Valid()
      modifies `links, `stirred, `queue, `drops, `qlen
      ensures Valid()
      ensures r.None? <==> forall d | d in t && d in willing :: d in old(queue) && old(queue)[d] == []
      ensures r.None? ==> queue == old(queue) && qlen == old(qlen) && links == old(links)
      ensures r.Some? ==>
                && c in t && c in willing && c in old(queue) && |old(queue)[c]| > 0 && r.value == old(queue)[c][|old(queue)[c]| - 1]
                && queue == old(queue)[c := old(queue)[c][..|old(queue)[c]| - 1]] && qlen == old(qlen) - 1
                && forall d | d in t && d in willing && d in old(queue) && old(queue)[d] != [] :: t[d].prio <= t[c].prio
      ensures Calmed(old(links), links, old(stirred), stirred)
      ensures stirred == old(stirred) || (r.Some? && RanEmpty(queue, c))
    {
      hide Calmed, TimedInv, LinkInv, DropsMatch, Accounted;
      r := None;
      InvStaysCalm(t, links, stirred);
      c := PickVictim(willing);
      if c != 0 {
        r := Some(queue[c][|queue[c]| - 1]);
        DropTail(c);
      }
    }

    method DropTail(c: Id)
      requires Sound() && c in t && t[c].level == 0 && queue[c] != []
      modifies `links, `stirred, `queue, `drops, `qlen
      ensures Sound() && queue == old(queue)[c := old(queue)[c][..|old(queue)[c]| - 1]] && qlen == old(qlen) - 1
      ensures Calmed(old(links), links, old(stirred), stirred)
      ensures stirred == old(stirred) || RanEmpty(queue, c)
    {
      hide Calmed, TimedInv, LinkInv, DropsMatch, QueuesMatch, Accounted;
      BacklogUpdate(queue, c, queue[c][..|queue[c]| - 1]);
      TailKeepsLeaves(t, links.act, drops, queue, deficit, c, queue[c][..|queue[c]| - 1]);
      queue := queue[c := queue[c][..|queue[c]| - 1]];
      qlen := qlen - 1;
      Settle(c);
    }

    // ---------- beginning and reset ----------

    /** A scheduler whose classes were all created at `created`, with full buckets. */
    constructor (topology: Topology, hysteresis: bool, rateCost: (Id, nat) -> nat, ceilCost: (Id, nat) -> nat,
                 directLimit: nat, ticksPerSecond: nat, created: nat)
      requires WellFormed(topology)
      ensures Valid() && t == topology && this.hysteresis == hysteresis
      ensures this.rateCost == rateCost && this.ceilCost == ceilCost
      ensures this.directLimit == directLimit && this.ticksPerSecond == ticksPerSecond
      ensures links == IdleLinks(topology) && timing == FullBuckets(topology, created) && books == EmptyBooks(topology)
      ensures queue == NoPackets(topology) && deficit == NoDeficits(topology) && drops == NoDrops()
      ensures direct == [] && ofbuf == [] && qlen == 0 && served == [] && stirred == {}
    {
      hide Calmed, TimedInv, LinkInv, LeavesInv, CountInv, IdleLinks, FullBuckets, NoPackets, NoDeficits, EmptyBooks, Accounted;
      t := topology;
      this.hysteresis, this.rateCost, this.ceilCost := hysteresis, rateCost, ceilCost;
      this.directLimit, this.ticksPerSecond := directLimit, ticksPerSecond;
      links := IdleLinks(topology);
      timing := FullBuckets(topology, created);
      queue := NoPackets(topology);
      deficit := NoDeficits(topology);
      drops := NoDrops();
      direct, ofbuf, ofbufQueued, qlen, lost := [], [], 0, 0, 0;
      books := EmptyBooks(topology);
      served := [];
      stirred := {};
      NothingAccounted(topology, ceilCost, rateCost);
      BornInOrder(topology, hysteresis, created);
    }

    /** Makes every class idle and discards all packets; the buckets stay as they are. */
    method Reset()
      requires Valid()
      modifies `timing, `books, `links, `stirred, `queue, `drops, `direct, `ofbuf, `ofbufQueued, `qlen, `lost
      ensures Valid() && qlen == 0 && direct == [] && ofbuf == [] && queue == NoPackets(t)
      ensures timing == NobodyWaits(old(timing)) && books == old(books).(pardoned := t.Keys)
      ensures IdleModes(t, links)
      ensures deficit == old(deficit) && drops == NoDrops()
      ensures stirred == old(stirred) + old(links).tree.Keys
    {
      hide TimedInv, LinkInv, LeavesInv, CountInv, NobodyWaits, NoDrops, NoPackets, IdleModes, Accounted;
      ResetLinks();
      Pardon();
      PurgeQueues();
    }

    /** The part of a reset that concerns the classes and their queues. */
    method ResetLinks()
      requires LinkInv(t, links) && Timed() && LeavesInOrder()
      modifies `timing, `links, `stirred, `queue
      ensures LinkInv(t, links) && TimedInv(t, hysteresis, links.mode, timing, books.(pardoned := t.Keys))
      ensures LeavesInv(t, links.act, NoDrops(), queue, deficit) && CountInv(queue, [], [], 0, 0)
      ensures timing == NobodyWaits(old(timing)) && IdleModes(t, links) && queue == NoPackets(t)
      ensures stirred == old(stirred) + old(links).tree.Keys
    {
      hide TimedInv, LinkInv, LeavesInv, CountInv, IdleSoFar, AllEmpty, NobodyWaits, RowsIdle, WellFormed, NoDrops, NoPackets, IdleModes;
      stirred := stirred + links.tree.Keys;
      ResetClasses();
      ResetInOrder(t, hysteresis, old(links), timing, books, drops, old(queue), deficit, links, queue);
      timing := NobodyWaits(timing);
      links := RowsIdle(links);
    }

    /** All classes are forgiven a debt they may have while they count as able to send. */
    ghost method Pardon()
      requires Booked()
      modifies `books
      ensures Booked() && books == old(books).(pardoned := t.Keys)
    {
      PardonAccounts(t, served, books, ceilCost, rateCost);
      books := books.(pardoned := t.Keys);
    }

    method PurgeQueues()
      modifies `drops, `direct, `ofbuf, `ofbufQueued, `qlen, `lost
      ensures drops == NoDrops() && direct == [] && ofbuf == [] && ofbufQueued == 0 && qlen == 0 && lost == 0
    {
      direct := [];
      qlen := 0;
      ofbuf := [];
      ofbufQueued := 0;
      drops := NoDrops();
      lost := 0;
    }

    method ResetClasses()
      requires LinkInv(t, links) && LeavesInOrder()
      modifies `links, `queue
      ensures WellFormed(t) && IdleSoFar(t, links, t.Keys) && AllEmpty(t, queue, t.Keys) && queue == NoPackets(t)
    {
      hide NoPackets, Calmed, TreesMatch, MasksMatch, ActivityMatches, PointersInside, Shaped;
      var todo := t.Keys;
      while todo != {}
        invariant WellFormed(t) && todo <= t.Keys && IdleSoFar(t, links, t.Keys - todo)
        invariant AllEmpty(t, queue, t.Keys - todo) && OnlyLeavesQueue(t, queue)
      {
        var c :| c in todo;
        ResetClass(c, t.Keys - todo);
        assert t.Keys - (todo - {c}) == t.Keys - todo + {c};
        todo := todo - {c};
      }
      assert t.Keys - todo == t.Keys;
      AllEmptyIsNoPackets(t, queue);
    }

    method ResetClass(c: Id, ghost done: set<Id>)
      requires WellFormed(t) && c in t && IdleSoFar(t, links, done) && AllEmpty(t, queue, done) && OnlyLeavesQueue(t, queue)
      modifies `links, `queue
      ensures IdleSoFar(t, links, done + {c}) && AllEmpty(t, queue, done + {c}) && OnlyLeavesQueue(t, queue)
    {
      OneMoreIdle(t, links, done, c);
      links := ClassIdle(t, links, c);
      if t[c].level == 0 {
        queue := queue[c := []];
      }
    }
  }
}
