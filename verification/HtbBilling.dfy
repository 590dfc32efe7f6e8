/** Who pays for a packet: from the sequence of served packets alone, what every class was charged. */
module HtbBilling {
  import opened HtbLinks
  import opened HtbReach
  import opened HtbTraffic
  import opened HtbTokens

  // ---------- one packet ----------

  /** Class `d` booked a packet served at `level` if it was asked to, and nothing otherwise. */
  predicate ClassBooked(t: Topology, w: Timing, b: Books, b': Books, d: Id, asked: bool, level: nat, ceilCost: nat, rateCost: nat)
    requires d in t && d in w.tokens && d in w.ctokens && d in w.since && d in b.ceil && d in b.rate && d in b'.ceil && d in b'.rate
  {
    && (d in b'.pardoned <==> d in b.pardoned && !asked)
    && b'.ceil[d] == b.ceil[d] + (if asked then [CeilPayment(t, w, b, d, level, ceilCost)] else [])
    && b'.rate[d] == b.rate[d] + (if asked && level <= t[d].level then [RatePayment(t, w, b, d, level, rateCost)] else [])
  }

  /** From `b` to `b'` exactly the classes of `path` booked a packet served at `level`. */
  ghost predicate PathBooked(t: Topology, w: Timing, b: Books, b': Books, path: set<Id>, level: nat, bytes: nat,
                             ceilCost: (Id, nat) -> nat, rateCost: (Id, nat) -> nat)
  {
    && TimingShaped(t, w) && b.ceil.Keys == t.Keys && b.rate.Keys == t.Keys && b'.ceil.Keys == t.Keys && b'.rate.Keys == t.Keys
    && forall d {:trigger ceilCost(d, bytes)} {:trigger b'.ceil[d]} | d in t :: ClassBooked(t, w, b, b', d, d in path, level, ceilCost(d, bytes), rateCost(d, bytes))
  }

  lemma NothingBooked(t: Topology, w: Timing, b: Books, level: nat, bytes: nat, ceilCost: (Id, nat) -> nat, rateCost: (Id, nat) -> nat)
    requires TimingShaped(t, w) && b.ceil.Keys == t.Keys && b.rate.Keys == t.Keys
    ensures PathBooked(t, w, b, b, {}, level, bytes, ceilCost, rateCost)
  {
    assert forall d | d in t :: b.ceil[d] == b.ceil[d] + [] && b.rate[d] == b.rate[d] + [];
  }

  lemma BookedNow(t: Topology, w: Timing, b: Books, w1: Timing, b1: Books, c: Id, level: nat, ceilCost: nat, rateCost: nat)
    requires TimingShaped(t, w) && TimingShaped(t, w1) && c in t && c in b.ceil && c in b.rate && c in b1.ceil && c in b1.rate
    requires ClassBooked(t, w, b, b1, c, false, level, ceilCost, rateCost) && w1.now == w.now
    requires w1.tokens[c] == w.tokens[c] && w1.ctokens[c] == w.ctokens[c] && w1.since[c] == w.since[c]
    ensures ClassBooked(t, w, b, BooksAfter(t, w1, b1, c, level, ceilCost, rateCost), c, true, level, ceilCost, rateCost)
  {
    assert b.ceil[c] + [] == b.ceil[c] && b.rate[c] + [] == b.rate[c];
  }

  lemma PathBookedMore(t: Topology, w: Timing, b: Books, w1: Timing, b1: Books, path: set<Id>, level: nat, bytes: nat,
                       ceilCost: (Id, nat) -> nat, rateCost: (Id, nat) -> nat, c: Id)
    requires PathBooked(t, w, b, b1, path, level, bytes, ceilCost, rateCost) && c in t && c !in path
    requires PathPaid(t, w, w1, path, level, bytes, ceilCost, rateCost)
    ensures PathBooked(t, w, b, BooksAfter(t, w1, b1, c, level, ceilCost(c, bytes), rateCost(c, bytes)), path + {c}, level, bytes, ceilCost, rateCost)
  {
    var b' := BooksAfter(t, w1, b1, c, level, ceilCost(c, bytes), rateCost(c, bytes));
    BooksAreLocal(t, w1, b1, c, level, ceilCost(c, bytes), rateCost(c, bytes), b');
    forall d | d in t ensures ClassBooked(t, w, b, b', d, d in path + {c}, level, ceilCost(d, bytes), rateCost(d, bytes)) {
      assert ClassBooked(t, w, b, b1, d, d in path, level, ceilCost(d, bytes), rateCost(d, bytes));
      if d == c {
        BookedNow(t, w, b, w1, b1, c, level, ceilCost(c, bytes), rateCost(c, bytes));
      }
    }
  }

  // ---------- who may be asked ----------

  /** Every class from `c` up may be asked to pay for a packet served at `level`. */
  ghost predicate MayAsk(t: Topology, mode: map<Id, Mode>, c: Id, level: nat)
    requires WellFormed(t) && mode.Keys == t.Keys && (c == 0 || c in t)
    decreases if c == 0 then 0 else MAXDEPTH + 1 - t[c].level
  {
    c == 0 || (MayPay(t[c], mode[c], level) && MayAsk(t, mode, t[c].parent, level))
  }

  /** Above the level served from, nobody is asked. */
  lemma {:induction false} AboveMayAsk(t: Topology, mode: map<Id, Mode>, c: Id, level: nat)
    requires WellFormed(t) && mode.Keys == t.Keys && (c == 0 || (c in t && t[c].level > level))
    ensures MayAsk(t, mode, c, level)
    decreases if c == 0 then 0 else MAXDEPTH + 1 - t[c].level
  {
    if c != 0 {
      AboveMayAsk(t, mode, t[c].parent, level);
    }
  }

  /** On the way to the lender classes may borrow, and the lender can send. */
  lemma {:induction false} LenderMayAsk(t: Topology, mode: map<Id, Mode>, c: Id)
    requires WellFormed(t) && mode.Keys == t.Keys && c in t && Lender(t, mode, c) != 0
    ensures MayAsk(t, mode, c, t[Lender(t, mode, c)].level)
    decreases MAXDEPTH - t[c].level
  {
    LenderStep(t, mode, c);
    LenderIsAbove(t, mode, c);
    if mode[c] == CanSend {
      AboveMayAsk(t, mode, t[c].parent, t[c].level);
    } else {
      LenderMayAsk(t, mode, t[c].parent);
    }
  }

  /** A lower class changing its mode does not matter above it. */
  lemma {:induction false} AskedKept(t: Topology, mode: map<Id, Mode>, c: Id, level: nat, d: Id, m: Mode)
    requires WellFormed(t) && mode.Keys == t.Keys && (c == 0 || c in t) && d in t && MayAsk(t, mode, c, level)
    requires c != 0 ==> t[d].level < t[c].level
    ensures MayAsk(t, mode[d := m], c, level)
    decreases if c == 0 then 0 else MAXDEPTH + 1 - t[c].level
  {
    if c != 0 {
      AskedKept(t, mode, t[c].parent, level, d, m);
    }
  }

  // ---------- all packets ----------

  /** A packet that left a leaf: when, whose, how long, and the level of the class that lent. */
  datatype Out = Out(time: int, leaf: Id, bytes: nat, level: nat)

  type Bill = seq<(int, nat)>

  /** When and how much a bucket paid. */
  function BillOf(log: Log): Bill {
    if log == [] then [] else BillOf(log[..|log| - 1]) + [(log[|log| - 1].time, log[|log| - 1].cost)]
  }

  /** `a` is `c` or one of its ancestors. */
  predicate AtOrAbove(t: Topology, a: Id, c: Id)
    requires WellFormed(t) && (c == 0 || c in t)
    decreases if c == 0 then 0 else MAXDEPTH + 1 - t[c].level
  {
    c != 0 && (a == c || AtOrAbove(t, a, t[c].parent))
  }

  lemma {:induction false} PathIsAtOrAbove(t: Topology, a: Id, c: Id)
    requires WellFormed(t) && (c == 0 || c in t)
    ensures a in PathUp(t, c) <==> AtOrAbove(t, a, c)
    decreases if c == 0 then 0 else MAXDEPTH + 1 - t[c].level
  {
    if c != 0 {
      PathIsAtOrAbove(t, a, t[c].parent);
    }
  }

  /** What the ceiling bucket of `a` owes: every packet of a leaf at or below it. */
  function CeilDues(t: Topology, outs: seq<Out>, a: Id, ceilCost: (Id, nat) -> nat): Bill
    requires WellFormed(t) && forall o | o in outs :: o.leaf in t
  {
    if outs == [] then []
    else
      var o := outs[|outs| - 1];
      CeilDues(t, outs[..|outs| - 1], a, ceilCost) + if AtOrAbove(t, a, o.leaf) then [(o.time, ceilCost(a, o.bytes))] else []
  }

  /** What its rate bucket owes: those of them that were lent from its own level or below. */
  function RateDues(t: Topology, outs: seq<Out>, a: Id, rateCost: (Id, nat) -> nat): Bill
    requires WellFormed(t) && a in t && forall o | o in outs :: o.leaf in t
  {
    if outs == [] then []
    else
      var o := outs[|outs| - 1];
      RateDues(t, outs[..|outs| - 1], a, rateCost)
      + if AtOrAbove(t, a, o.leaf) && o.level <= t[a].level then [(o.time, rateCost(a, o.bytes))] else []
  }

  /** Every class paid exactly what it owes for the packets served, and when. */
  ghost predicate Accounted(t: Topology, outs: seq<Out>, b: Books, ceilCost: (Id, nat) -> nat, rateCost: (Id, nat) -> nat) {
    && WellFormed(t) && b.ceil.Keys == t.Keys && b.rate.Keys == t.Keys && (forall o | o in outs :: o.leaf in t)
    && forall a {:trigger b.ceil[a]} {:trigger b.rate[a]} | a in t ::
         BillOf(b.ceil[a]) == CeilDues(t, outs, a, ceilCost) && BillOf(b.rate[a]) == RateDues(t, outs, a, rateCost)
  }

  lemma BillGrows(log: Log, p: Payment, paid: bool)
    ensures BillOf(log + if paid then [p] else []) == BillOf(log) + if paid then [(p.time, p.cost)] else []
  {
    if paid {
      assert (log + [p])[..|log|] == log;
    } else {
      assert log + [] == log;
    }
  }

  lemma DuesGrow(t: Topology, outs: seq<Out>, o: Out, a: Id, ceilCost: (Id, nat) -> nat, rateCost: (Id, nat) -> nat)
    requires WellFormed(t) && a in t && (forall x | x in outs :: x.leaf in t) && (forall x | x in outs + [o] :: x.leaf in t)
    ensures CeilDues(t, outs + [o], a, ceilCost)
            == CeilDues(t, outs, a, ceilCost) + if AtOrAbove(t, a, o.leaf) then [(o.time, ceilCost(a, o.bytes))] else []
    ensures RateDues(t, outs + [o], a, rateCost)
            == RateDues(t, outs, a, rateCost) + if AtOrAbove(t, a, o.leaf) && o.level <= t[a].level then [(o.time, rateCost(a, o.bytes))] else []
  {
    assert (outs + [o])[..|outs|] == outs;
  }

  lemma OneClassAccounts(t: Topology, outs: seq<Out>, w: Timing, b: Books, b': Books, ceilCost: (Id, nat) -> nat, rateCost: (Id, nat) -> nat,
                         a: Id, o: Out)
    requires WellFormed(t) && a in t && o.leaf in t && o.time == w.now && TimingShaped(t, w)
    requires (forall x | x in outs :: x.leaf in t) && (forall x | x in outs + [o] :: x.leaf in t)
    requires a in b.ceil && a in b.rate && a in b'.ceil && a in b'.rate
    requires BillOf(b.ceil[a]) == CeilDues(t, outs, a, ceilCost) && BillOf(b.rate[a]) == RateDues(t, outs, a, rateCost)
    requires ClassBooked(t, w, b, b', a, a in PathUp(t, o.leaf), o.level, ceilCost(a, o.bytes), rateCost(a, o.bytes))
    ensures BillOf(b'.ceil[a]) == CeilDues(t, outs + [o], a, ceilCost) && BillOf(b'.rate[a]) == RateDues(t, outs + [o], a, rateCost)
  {
    var asked := a in PathUp(t, o.leaf);
    PathIsAtOrAbove(t, a, o.leaf);
    DuesGrow(t, outs, o, a, ceilCost, rateCost);
    BillGrows(b.ceil[a], CeilPayment(t, w, b, a, o.level, ceilCost(a, o.bytes)), asked);
    BillGrows(b.rate[a], RatePayment(t, w, b, a, o.level, rateCost(a, o.bytes)), asked && o.level <= t[a].level);
  }

  /** Serving a packet keeps the account. */
  lemma ServingAccounts(t: Topology, outs: seq<Out>, w: Timing, b: Books, b': Books, c: Id, level: nat, bytes: nat,
                        ceilCost: (Id, nat) -> nat, rateCost: (Id, nat) -> nat)
    requires Accounted(t, outs, b, ceilCost, rateCost) && c in t
    requires PathBooked(t, w, b, b', PathUp(t, c), level, bytes, ceilCost, rateCost)
    ensures Accounted(t, outs + [Out(w.now, c, bytes, level)], b', ceilCost, rateCost)
  {
    var o := Out(w.now, c, bytes, level);
    forall x | x in outs + [o] ensures x.leaf in t {
      assert x in outs || x == o;
    }
    forall a | a in t ensures BillOf(b'.ceil[a]) == CeilDues(t, outs + [o], a, ceilCost) && BillOf(b'.rate[a]) == RateDues(t, outs + [o], a, rateCost) {
      assert ClassBooked(t, w, b, b', a, a in PathUp(t, c), level, ceilCost(a, bytes), rateCost(a, bytes));
      assert BillOf(b.ceil[a]) == CeilDues(t, outs, a, ceilCost);
      OneClassAccounts(t, outs, w, b, b', ceilCost, rateCost, a, o);
    }
  }

  lemma NothingAccounted(t: Topology, ceilCost: (Id, nat) -> nat, rateCost: (Id, nat) -> nat)
    requires WellFormed(t)
    ensures Accounted(t, [], EmptyBooks(t), ceilCost, rateCost)
  {
  }

  /** A pardon costs nothing. */
  lemma PardonAccounts(t: Topology, outs: seq<Out>, b: Books, ceilCost: (Id, nat) -> nat, rateCost: (Id, nat) -> nat)
    requires Accounted(t, outs, b, ceilCost, rateCost)
    ensures Accounted(t, outs, b.(pardoned := t.Keys), ceilCost, rateCost)
  {
    var b' := b.(pardoned := t.Keys);
    forall a | a in t ensures BillOf(b'.ceil[a]) == CeilDues(t, outs, a, ceilCost) && BillOf(b'.rate[a]) == RateDues(t, outs, a, rateCost) {
      assert BillOf(b.ceil[a]) == CeilDues(t, outs, a, ceilCost);
    }
  }

  lemma BeginCharge(t: Topology, hysteresis: bool, mode: map<Id, Mode>, w: Timing, b: Books, level: nat, bytes: nat,
                    ceilCost: (Id, nat) -> nat, rateCost: (Id, nat) -> nat)
    requires TimedInv(t, hysteresis, mode, w, b)
    ensures PathPaid(t, w, w, {}, level, bytes, ceilCost, rateCost) && PathBooked(t, w, b, b, {}, level, bytes, ceilCost, rateCost)
  {
    NothingBooked(t, w, b, level, bytes, ceilCost, rateCost);
  }

  lemma PathBookedAgrees(t: Topology, w: Timing, w1: Timing, b: Books, b': Books, path: set<Id>, level: nat, bytes: nat,
                         ceilCost: (Id, nat) -> nat, rateCost: (Id, nat) -> nat)
    requires PathBooked(t, w1, b, b', path, level, bytes, ceilCost, rateCost) && SameBuckets(w, w1) && TimingShaped(t, w)
    ensures PathBooked(t, w, b, b', path, level, bytes, ceilCost, rateCost)
  {
    forall d | d in t ensures ClassBooked(t, w, b, b', d, d in path, level, ceilCost(d, bytes), rateCost(d, bytes)) {
      assert ClassBooked(t, w1, b, b', d, d in path, level, ceilCost(d, bytes), rateCost(d, bytes));
    }
  }

  // ---------- without tokens nobody is served ----------

  /** Who finds, on the way up, no class that can send by its mode finds none that can by its buckets. */
  lemma {:induction false} NoLenderByBuckets(t: Topology, mode: map<Id, Mode>, w: Timing, b: Books, c: Id)
    requires WellFormed(t) && TimedInv(t, false, mode, w, b) && NoneDue(t, w, MAXDEPTH) && c in t && Lender(t, mode, c) == 0
    ensures Lender(t, BucketModes(t, w), c) == 0
    decreases MAXDEPTH - t[c].level
  {
    var modes := BucketModes(t, w);
    ModesAreCurrent(t, mode, w, b, c);
    LenderStep(t, mode, c);
    LenderStep(t, modes, c);
    if mode[c] == MayBorrow && t[c].parent != 0 {
      NoLenderByBuckets(t, mode, w, b, t[c].parent);
    }
  }
}
