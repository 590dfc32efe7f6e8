/** Token buckets: the mode a class computes from them, what a packet costs it, and the
    bound they put on the traffic of a leaf. */
module HtbTokens {
  import opened HtbLinks
  import opened HtbTraffic

  /** Elapsed time, bounded. */
  function Elapsed(now: int, since: int, bound: int): int { Min(now - since, bound) }

  function LowWater(hysteresis: bool, mode: Mode, cbuffer: nat): int {
    if hysteresis && mode != CantSend then 0 - cbuffer else 0
  }

  function HighWater(hysteresis: bool, mode: Mode, buffer: nat): int {
    if hysteresis && mode == CanSend then 0 - buffer else 0
  }

  datatype Verdict = Verdict(mode: Mode, diff: int)

  /** The mode of a class `diff` after its checkpoint and, unless it can send, the time it has
      to wait for its next mode change. */
  function ClassMode(hysteresis: bool, i: ClassInfo, mode: Mode, tokens: int, ctokens: int, diff: int): (v: Verdict)
    ensures v.mode != CanSend ==> v.diff > 0
    ensures v.mode == CanSend ==> v.diff == diff
  {
    if ctokens + diff < LowWater(hysteresis, mode, i.cbuffer) then Verdict(CantSend, -(ctokens + diff))
    else if tokens + diff >= HighWater(hysteresis, mode, i.buffer) then Verdict(CanSend, diff)
    else Verdict(MayBorrow, -(tokens + diff))
  }

  /** Without hysteresis the mode says exactly which buckets are not in debt, and the wait is
      the time the bucket that decides needs to come out of debt. */
  lemma ModeMeansNoDebt(i: ClassInfo, mode: Mode, tokens: int, ctokens: int, diff: int)
    ensures var v := ClassMode(false, i, mode, tokens, ctokens, diff);
            && (v.mode == CantSend <==> ctokens + diff < 0)
            && (v.mode == CanSend <==> ctokens + diff >= 0 && tokens + diff >= 0)
            && (v.mode == CantSend ==> ctokens + diff + v.diff == 0)
            && (v.mode == MayBorrow ==> tokens + diff + v.diff == 0)
  {
  }

  predicate AtLeast(m: Mode, n: Mode) {
    m == CanSend || n == CantSend || m == n
  }

  /** Hysteresis only lets a class keep a better mode for longer: it never worsens a mode, never improves
      that of a class that cannot send, and never lets a debt exceed the bucket. */
  lemma HysteresisOnlyDelays(i: ClassInfo, mode: Mode, tokens: int, ctokens: int, diff: int)
    ensures var v, w := ClassMode(true, i, mode, tokens, ctokens, diff).mode, ClassMode(false, i, mode, tokens, ctokens, diff).mode;
            && AtLeast(v, w)
            && (mode == CantSend ==> v == w)
            && (v != w ==> AtLeast(mode, v) || mode == MayBorrow)
            && (v != CantSend ==> ctokens + diff >= 0 - i.cbuffer)
            && (v == CanSend ==> tokens + diff >= 0 - i.buffer)
            && (v == CanSend && mode != CanSend ==> tokens + diff >= 0)
  {
  }

  /** With hysteresis a class that may send or borrow keeps doing so while its debts stay within its
      buckets, and one that cannot send has to come out of debt. */
  lemma HysteresisModes(i: ClassInfo, mode: Mode, tokens: int, ctokens: int, diff: int)
    ensures var v := ClassMode(true, i, mode, tokens, ctokens, diff).mode;
            && (v == CantSend <==> if mode == CantSend then ctokens + diff < 0 else ctokens + diff < 0 - i.cbuffer)
            && (v == CanSend <==> v != CantSend && if mode == CanSend then tokens + diff >= 0 - i.buffer else tokens + diff >= 0)
  {
  }

  // ---------- the wait queues ----------

  /** The timed part of the scheduler's state. */
  datatype Timing = Timing(tokens: map<Id, int>, ctokens: map<Id, int>, since: map<Id, int>,
                           key: map<Id, int>, wait: map<nat, set<Id>>, nearest: map<nat, int>, now: int)

  ghost predicate TimingShaped(t: Topology, w: Timing) {
    && w.tokens.Keys == t.Keys && w.ctokens.Keys == t.Keys && w.since.Keys == t.Keys && w.key.Keys == t.Keys
    && (forall l: nat :: l in w.wait <==> l < MAXDEPTH)
    && w.nearest.Keys == w.wait.Keys
    && (forall c {:trigger w.since[c]} | c in t :: w.since[c] <= w.now)
    && 0 <= w.now
  }

  /** A class waits in its level's queue exactly while it cannot send. */
  ghost predicate WaitsMatch(t: Topology, mode: map<Id, Mode>, w: Timing)
    requires TimingShaped(t, w) && mode.Keys == t.Keys
  {
    forall l: nat, c: Id {:trigger c in w.wait[l]} | l < MAXDEPTH ::
      c in w.wait[l] <==> c in t && t[c].level == l && mode[c] != CanSend
  }

  /** The cached next event of a level is no later than any event waiting there, unless it has
      already passed. */
  ghost predicate CacheSound(t: Topology, w: Timing)
    requires TimingShaped(t, w)
  {
    forall l: nat, c: Id {:trigger c in w.wait[l]} | l < MAXDEPTH && c in w.wait[l] && c in t ::
      w.nearest[l] <= w.key[c] || w.nearest[l] <= w.now
  }

  ghost predicate TimingInv(t: Topology, mode: map<Id, Mode>, w: Timing) {
    && TimingShaped(t, w) && mode.Keys == t.Keys
    && WaitsMatch(t, mode, w)
    && CacheSound(t, w)
  }

  /** The class leaves its level's wait queue. */
  function OffWait(t: Topology, w: Timing, c: Id): Timing
    requires c in t && t[c].level in w.wait
  {
    w.(wait := w.wait[t[c].level := w.wait[t[c].level] - {c}])
  }

  /** The class enters its level's wait queue, due after `delay` but never at once, and the cached
      next event follows. */
  function ToWait(t: Topology, w: Timing, c: Id, delay: int): Timing
    requires c in t && t[c].level in w.wait && t[c].level in w.nearest
  {
    var l, due := t[c].level, if delay == 0 then w.now + 1 else w.now + delay;
    w.(key := w.key[c := due], nearest := w.nearest[l := Min(w.nearest[l], due)], wait := w.wait[l := w.wait[l] + {c}])
  }

  /** The queues after a due event of `c` was handled with verdict `v`. */
  function AfterEvent(t: Topology, w: Timing, c: Id, v: Verdict): (r: Timing)
    requires c in t && t[c].level in w.wait && t[c].level in w.nearest
    ensures r.tokens == w.tokens && r.ctokens == w.ctokens && r.since == w.since && r.now == w.now
  {
    var off := OffWait(t, w, c);
    if v.mode != CanSend then ToWait(t, off, c, v.diff) else off
  }

  /** The queues after a charge changed the mode of `c` from `old` to that of `v`. */
  function AfterCharge(t: Topology, w: Timing, c: Id, was: Mode, v: Verdict): (r: Timing)
    requires c in t && t[c].level in w.wait && t[c].level in w.nearest
    ensures r.tokens == w.tokens && r.ctokens == w.ctokens && r.since == w.since && r.now == w.now
  {
    if v.mode == was then w
    else
      var off := if was != CanSend then OffWait(t, w, c) else w;
      if v.mode != CanSend then ToWait(t, off, c, v.diff) else off
  }

  /** `c` waits exactly if its mode `m` calls for it, and the cached event knows about it. */
  ghost predicate Requeued(t: Topology, w: Timing, w': Timing, c: Id, m: Mode)
    requires c in t && TimingShaped(t, w) && t[c].level < MAXDEPTH
  {
    var l := t[c].level;
    && w'.now == w.now && w'.key.Keys == w.key.Keys
    && w'.wait == w.wait[l := if m != CanSend then w.wait[l] + {c} else w.wait[l] - {c}]
    && w'.nearest.Keys == w.nearest.Keys
    && (forall j: nat | j < MAXDEPTH && j != l :: w'.nearest[j] == w.nearest[j])
    && w'.nearest[l] <= w.nearest[l]
    && (forall d | d in t && d != c :: w'.key[d] == w.key[d])
    && (m != CanSend ==> w'.nearest[l] <= w'.key[c] || w'.nearest[l] <= w.now)
  }

  lemma WaitsFollow(t: Topology, mode: map<Id, Mode>, w: Timing, c: Id, m: Mode, w': Timing)
    requires c in t && TimingShaped(t, w) && TimingShaped(t, w') && mode.Keys == t.Keys && t[c].level < MAXDEPTH
    requires WaitsMatch(t, mode, w) && Requeued(t, w, w', c, m)
    ensures WaitsMatch(t, mode[c := m], w')
  {
  }

  lemma CacheFollows(t: Topology, mode: map<Id, Mode>, w: Timing, c: Id, m: Mode, w': Timing)
    requires c in t && TimingShaped(t, w) && TimingShaped(t, w') && mode.Keys == t.Keys && t[c].level < MAXDEPTH
    requires WaitsMatch(t, mode, w) && CacheSound(t, w) && Requeued(t, w, w', c, m)
    ensures CacheSound(t, w')
  {
    forall l: nat, d: Id | l < MAXDEPTH && d in w'.wait[l] && d in t
      ensures w'.nearest[l] <= w'.key[d] || w'.nearest[l] <= w'.now
    {
      if d != c {
        assert d in w.wait[l] && w'.nearest[l] <= w.nearest[l] && w'.key[d] == w.key[d];
      }
    }
  }

  lemma ShapeFollows(t: Topology, w: Timing, c: Id, m: Mode, w': Timing)
    requires c in t && TimingShaped(t, w) && t[c].level < MAXDEPTH && Requeued(t, w, w', c, m)
    requires w'.tokens.Keys == t.Keys && w'.ctokens.Keys == t.Keys && w'.since == w.since
    ensures TimingShaped(t, w')
  {
  }

  lemma OffWaitRequeues(t: Topology, w: Timing, c: Id)
    requires c in t && TimingShaped(t, w) && t[c].level < MAXDEPTH
    ensures Requeued(t, w, OffWait(t, w, c), c, CanSend)
  {
  }

  lemma ToWaitRequeues(t: Topology, w: Timing, c: Id, delay: int, m: Mode)
    requires c in t && TimingShaped(t, w) && t[c].level < MAXDEPTH && m != CanSend
    ensures Requeued(t, w, ToWait(t, w, c, delay), c, m)
    ensures Requeued(t, w, ToWait(t, OffWait(t, w, c), c, delay), c, m)
  {
    var l := t[c].level;
    assert w.wait[l] - {c} + {c} == w.wait[l] + {c};
  }

  lemma EventRequeues(t: Topology, w: Timing, c: Id, v: Verdict)
    requires c in t && TimingShaped(t, w) && t[c].level < MAXDEPTH
    ensures Requeued(t, w, AfterEvent(t, w, c, v), c, v.mode)
  {
    if v.mode == CanSend { OffWaitRequeues(t, w, c); } else { ToWaitRequeues(t, w, c, v.diff, v.mode); }
  }

  lemma ChargeRequeues(t: Topology, mode: map<Id, Mode>, w: Timing, c: Id, v: Verdict)
    requires c in t && TimingShaped(t, w) && t[c].level < MAXDEPTH && mode.Keys == t.Keys
    requires WaitsMatch(t, mode, w) && CacheSound(t, w)
    ensures Requeued(t, w, AfterCharge(t, w, c, mode[c], v), c, v.mode)
  {
    var l := t[c].level;
    assert mode[c] == CanSend <==> c !in w.wait[l];
    if v.mode == mode[c] {
      var there := if v.mode != CanSend then w.wait[l] + {c} else w.wait[l] - {c};
      assert there == w.wait[l];
      assert w.wait[l := there] == w.wait;
    } else if v.mode == CanSend {
      OffWaitRequeues(t, w, c);
    } else {
      ToWaitRequeues(t, w, c, v.diff, v.mode);
    }
  }

  /** Handling a due event keeps the invariant, and the class is not due again. */
  lemma EventKeepsTiming(t: Topology, hysteresis: bool, mode: map<Id, Mode>, w: Timing, c: Id, v: Verdict)
    requires WellFormed(t) && TimingInv(t, mode, w) && c in t
    requires v == ClassMode(hysteresis, t[c], mode[c], w.tokens[c], w.ctokens[c], Elapsed(w.now, w.since[c], t[c].mbuffer))
    ensures TimingInv(t, mode[c := v.mode], AfterEvent(t, w, c, v))
    ensures v.mode != CanSend ==> AfterEvent(t, w, c, v).key[c] > w.now
  {
    var w' := AfterEvent(t, w, c, v);
    EventRequeues(t, w, c, v);
    ShapeFollows(t, w, c, v.mode, w');
    WaitsFollow(t, mode, w, c, v.mode, w');
    CacheFollows(t, mode, w, c, v.mode, w');
  }

  /** New bucket levels for `c`, taken at the current time. */
  ghost predicate Checkpointed(t: Topology, w: Timing, w': Timing, c: Id)
    requires TimingShaped(t, w)
  {
    && w' == w.(tokens := w'.tokens, ctokens := w'.ctokens, since := w.since[c := w.now])
    && w'.tokens.Keys == t.Keys && w'.ctokens.Keys == t.Keys
    && forall d | d in t && d != c :: w'.tokens[d] == w.tokens[d] && w'.ctokens[d] == w.ctokens[d]
  }

  lemma CheckpointKeeps(t: Topology, mode: map<Id, Mode>, w: Timing, c: Id, w1: Timing)
    requires TimingShaped(t, w) && c in t && mode.Keys == t.Keys && Checkpointed(t, w, w1, c)
    requires WaitsMatch(t, mode, w) && CacheSound(t, w)
    ensures TimingShaped(t, w1) && WaitsMatch(t, mode, w1) && CacheSound(t, w1)
  {
  }

  lemma ChargeQueues(t: Topology, mode: map<Id, Mode>, w1: Timing, c: Id, v: Verdict)
    requires WellFormed(t) && c in t && TimingShaped(t, w1) && mode.Keys == t.Keys
    requires WaitsMatch(t, mode, w1) && CacheSound(t, w1)
    ensures var w' := AfterCharge(t, w1, c, mode[c], v);
            TimingShaped(t, w') && WaitsMatch(t, mode[c := v.mode], w') && CacheSound(t, w')
  {
    var w' := AfterCharge(t, w1, c, mode[c], v);
    ChargeRequeues(t, mode, w1, c, v);
    ShapeFollows(t, w1, c, v.mode, w');
    WaitsFollow(t, mode, w1, c, v.mode, w');
    CacheFollows(t, mode, w1, c, v.mode, w');
  }

  /** Charging keeps the invariant. */
  lemma ChargeKeepsTiming(t: Topology, mode: map<Id, Mode>, w: Timing, c: Id, w1: Timing, v: Verdict, w': Timing)
    requires WellFormed(t) && TimingInv(t, mode, w) && c in t && Checkpointed(t, w, w1, c)
    requires w' == AfterCharge(t, w1, c, mode[c], v)
    ensures TimingInv(t, mode[c := v.mode], w')
  {
    assert mode[c := v.mode].Keys == t.Keys;
    CheckpointKeeps(t, mode, w, c, w1);
    ChargeQueues(t, mode, w1, c, v);
  }

  // ---------- ledgers ----------

  type Logs = map<Id, Log>

  /** Every packet a class ever paid for, from its ceiling bucket and from its rate bucket.  `pardoned` are
      the classes that have not paid since the last reset, which lets classes send without filling their
      buckets. */
  datatype Books = Books(pardoned: set<Id>, ceil: Logs, rate: Logs)

  /** All that concerns the buckets of one class. */
  datatype Acct = Acct(mode: Mode, tokens: int, ctokens: int, since: int, key: int, pardoned: bool, ceil: Log, rate: Log)

  function AcctOf(mode: map<Id, Mode>, w: Timing, b: Books, c: Id): Acct
    requires c in mode && c in w.tokens && c in w.ctokens && c in w.since && c in w.key && c in b.ceil && c in b.rate
  {
    Acct(mode[c], w.tokens[c], w.ctokens[c], w.since[c], w.key[c], c in b.pardoned, b.ceil[c], b.rate[c])
  }

  /** The mode agrees with the buckets: a class that may borrow or send is out of debt, unless it was reset
      and has not paid since; a class that waits has its event no later than the time its bucket that
      decides is out of debt. */
  predicate UpToDate(now: int, a: Acct) {
    && (a.mode != CantSend && !a.pardoned ==> a.ctokens + (now - a.since) >= 0)
    && (a.mode == CanSend && !a.pardoned ==> a.tokens + (now - a.since) >= 0)
    && (a.mode == CantSend ==> a.key <= a.since - a.ctokens)
    && (a.mode == MayBorrow ==> a.key <= a.since - a.tokens)
  }

  /** The buckets of a class hold what its payments left and time added; without hysteresis, debts are
      excused and the mode is up to date. */
  ghost predicate InBalance(i: ClassInfo, hysteresis: bool, now: int, a: Acct) {
    && a.since <= now && 1 - i.mbuffer <= a.tokens && 1 - i.mbuffer <= a.ctokens
    && Conforms(a.ceil, i.cbuffer, i.mbuffer) && Tied(a.ceil, i.cbuffer, i.mbuffer, a.ctokens, a.since)
    && (a.ceil != [] ==> a.ceil[|a.ceil| - 1].time == a.since)
    && Conforms(a.rate, i.buffer, i.mbuffer) && Tied(a.rate, i.buffer, i.mbuffer, a.tokens, a.since)
    && (a.pardoned ==> a.mode == CanSend)
    && (!hysteresis ==> Solvent(a.ceil) && Solvent(a.rate) && UpToDate(now, a))
  }

  /** The books of every class balance. */
  ghost predicate LedgersInv(t: Topology, hysteresis: bool, mode: map<Id, Mode>, w: Timing, b: Books) {
    && TimingShaped(t, w) && mode.Keys == t.Keys && b.ceil.Keys == t.Keys && b.rate.Keys == t.Keys
    && forall c {:trigger AcctOf(mode, w, b, c)} | c in t :: InBalance(t[c], hysteresis, w.now, AcctOf(mode, w, b, c))
  }

  /** The bucket levels of `c` after it was charged for a packet served at `level`. */
  function RateAfter(t: Topology, w: Timing, c: Id, level: nat, cost: nat): int
    requires c in t && c in w.tokens && c in w.since
  {
    var diff := Elapsed(w.now, w.since[c], t[c].mbuffer);
    if t[c].level >= level then Account(w.tokens[c], t[c].buffer, cost, t[c].mbuffer, diff) else w.tokens[c] + diff
  }

  function CeilAfter(t: Topology, w: Timing, c: Id, cost: nat): int
    requires c in t && c in w.ctokens && c in w.since
  {
    Account(w.ctokens[c], t[c].cbuffer, cost, t[c].mbuffer, Elapsed(w.now, w.since[c], t[c].mbuffer))
  }

  // ---------- one account ----------

  /** The account after a packet served at `level`: it pays from the ceiling bucket and, unless it sits
      below that level, from the rate bucket; the mode follows the buckets, and a new mode that does not let
      it send gives it a new event. */
  function ChargedAcct(i: ClassInfo, hysteresis: bool, now: int, a: Acct, level: nat, ceilCost: nat, rateCost: nat): Acct {
    var diff := Elapsed(now, a.since, i.mbuffer);
    var above := level < i.level;
    var ctokens := Account(a.ctokens, i.cbuffer, ceilCost, i.mbuffer, diff);
    var tokens := if level <= i.level then Account(a.tokens, i.buffer, rateCost, i.mbuffer, diff) else a.tokens + diff;
    var v := ClassMode(hysteresis, i, a.mode, tokens, ctokens, 0);
    Acct(v.mode, tokens, ctokens, now, if v.mode == a.mode || v.mode == CanSend then a.key else now + v.diff, false,
         a.ceil + [Pays(now, a.ctokens, i.cbuffer, ceilCost, i.mbuffer, diff, a.pardoned, above)],
         if level <= i.level then a.rate + [Pays(now, a.tokens, i.buffer, rateCost, i.mbuffer, diff, a.pardoned, above)] else a.rate)
  }

  /** What a class on the way from a leaf to its lender may be asked to pay. */
  predicate MayPay(i: ClassInfo, mode: Mode, level: nat) {
    i.level <= level ==> mode != CantSend && (i.level == level ==> mode == CanSend)
  }

  lemma CeilBalances(i: ClassInfo, hysteresis: bool, now: int, a: Acct, level: nat, ceilCost: nat, rateCost: nat)
    requires InBalance(i, hysteresis, now, a) && i.mbuffer > 0 && MayPay(i, a.mode, level)
    ensures var a' := ChargedAcct(i, hysteresis, now, a, level, ceilCost, rateCost);
            && Conforms(a'.ceil, i.cbuffer, i.mbuffer) && Tied(a'.ceil, i.cbuffer, i.mbuffer, a'.ctokens, now)
            && (!hysteresis ==> Solvent(a'.ceil)) && 1 - i.mbuffer <= a'.ctokens
  {
    var diff := Elapsed(now, a.since, i.mbuffer);
    var p := Pays(now, a.ctokens, i.cbuffer, ceilCost, i.mbuffer, diff, a.pardoned, level < i.level);
    PaymentConforms(a.ceil, i.cbuffer, i.mbuffer, a.ctokens, a.since, now, ceilCost, a.pardoned, level < i.level);
    if !hysteresis {
      PaymentSolvent(a.ceil, p);
    }
  }

  lemma RateBalances(i: ClassInfo, hysteresis: bool, now: int, a: Acct, level: nat, ceilCost: nat, rateCost: nat)
    requires InBalance(i, hysteresis, now, a) && i.mbuffer > 0 && MayPay(i, a.mode, level)
    ensures var a' := ChargedAcct(i, hysteresis, now, a, level, ceilCost, rateCost);
            && Conforms(a'.rate, i.buffer, i.mbuffer) && Tied(a'.rate, i.buffer, i.mbuffer, a'.tokens, now)
            && (!hysteresis ==> Solvent(a'.rate)) && 1 - i.mbuffer <= a'.tokens
  {
    var diff := Elapsed(now, a.since, i.mbuffer);
    if level <= i.level {
      var p := Pays(now, a.tokens, i.buffer, rateCost, i.mbuffer, diff, a.pardoned, level < i.level);
      PaymentConforms(a.rate, i.buffer, i.mbuffer, a.tokens, a.since, now, rateCost, a.pardoned, level < i.level);
      if !hysteresis {
        PaymentSolvent(a.rate, p);
      }
    }
  }

  /** The event of a class that keeps its mode stays early enough: a charge never brings it out of debt
      sooner. */
  lemma ChargeUpToDate(i: ClassInfo, now: int, a: Acct, level: nat, ceilCost: nat, rateCost: nat)
    requires InBalance(i, false, now, a) && i.mbuffer > 0
    ensures UpToDate(now, ChargedAcct(i, false, now, a, level, ceilCost, rateCost))
  {
  }

  lemma ChargeBalances(i: ClassInfo, hysteresis: bool, now: int, a: Acct, level: nat, ceilCost: nat, rateCost: nat)
    requires InBalance(i, hysteresis, now, a) && i.mbuffer > 0 && MayPay(i, a.mode, level)
    ensures InBalance(i, hysteresis, now, ChargedAcct(i, hysteresis, now, a, level, ceilCost, rateCost))
  {
    CeilBalances(i, hysteresis, now, a, level, ceilCost, rateCost);
    RateBalances(i, hysteresis, now, a, level, ceilCost, rateCost);
    if !hysteresis {
      ChargeUpToDate(i, now, a, level, ceilCost, rateCost);
    }
  }

  /** The account after its event. */
  function EventAcct(i: ClassInfo, hysteresis: bool, now: int, a: Acct): Acct {
    var v := ClassMode(hysteresis, i, a.mode, a.tokens, a.ctokens, Elapsed(now, a.since, i.mbuffer));
    a.(mode := v.mode, key := if v.mode == CanSend then a.key else now + v.diff)
  }

  lemma EventBalances(i: ClassInfo, hysteresis: bool, now: int, a: Acct)
    requires InBalance(i, hysteresis, now, a) && i.mbuffer > 0 && a.mode != CanSend
    ensures InBalance(i, hysteresis, now, EventAcct(i, hysteresis, now, a))
  {
  }

  lemma TimeBalances(i: ClassInfo, hysteresis: bool, now: int, later: int, a: Acct)
    requires InBalance(i, hysteresis, now, a) && now <= later
    ensures InBalance(i, hysteresis, later, a)
  {
  }

  // ---------- all accounts ----------

  /** Nothing but `c` changed its account. */
  ghost predicate OthersKept(t: Topology, c: Id, mode: map<Id, Mode>, w: Timing, b: Books, mode': map<Id, Mode>, w': Timing, b': Books)
    requires TimingShaped(t, w) && mode.Keys == t.Keys && b.ceil.Keys == t.Keys && b.rate.Keys == t.Keys
    requires TimingShaped(t, w') && mode'.Keys == t.Keys && b'.ceil.Keys == t.Keys && b'.rate.Keys == t.Keys
  {
    w'.now == w.now && forall d | d in t && d != c :: AcctOf(mode', w', b', d) == AcctOf(mode, w, b, d)
  }

  lemma LedgersFollow(t: Topology, hysteresis: bool, mode: map<Id, Mode>, w: Timing, b: Books, c: Id,
                      mode': map<Id, Mode>, w': Timing, b': Books)
    requires LedgersInv(t, hysteresis, mode, w, b) && TimingShaped(t, w') && b'.ceil.Keys == t.Keys && b'.rate.Keys == t.Keys
    requires mode'.Keys == t.Keys && OthersKept(t, c, mode, w, b, mode', w', b')
    requires c in t ==> InBalance(t[c], hysteresis, w'.now, AcctOf(mode', w', b', c))
    ensures LedgersInv(t, hysteresis, mode', w', b')
  {
    forall d | d in t ensures InBalance(t[d], hysteresis, w'.now, AcctOf(mode', w', b', d)) {
      if d != c {
        assert AcctOf(mode', w', b', d) == AcctOf(mode, w, b, d);
      }
    }
  }

  /** The timed state after `c` paid for a packet served at `level`. */
  function Paid(t: Topology, w: Timing, c: Id, level: nat, ceilCost: nat, rateCost: nat): Timing
    requires c in t && c in w.tokens && c in w.ctokens && c in w.since
  {
    w.(tokens := w.tokens[c := RateAfter(t, w, c, level, rateCost)],
       ctokens := w.ctokens[c := CeilAfter(t, w, c, ceilCost)], since := w.since[c := w.now])
  }

  /** How `c` pays for a packet served at `level`. */
  function CeilPayment(t: Topology, w: Timing, b: Books, c: Id, level: nat, cost: nat): Payment
    requires c in t && c in w.ctokens && c in w.since
  {
    Pays(w.now, w.ctokens[c], t[c].cbuffer, cost, t[c].mbuffer, Elapsed(w.now, w.since[c], t[c].mbuffer), c in b.pardoned, level < t[c].level)
  }

  function RatePayment(t: Topology, w: Timing, b: Books, c: Id, level: nat, cost: nat): Payment
    requires c in t && c in w.tokens && c in w.since
  {
    Pays(w.now, w.tokens[c], t[c].buffer, cost, t[c].mbuffer, Elapsed(w.now, w.since[c], t[c].mbuffer), c in b.pardoned, level < t[c].level)
  }

  /** The books after `c` paid for a packet served at `level`. */
  function BooksAfter(t: Topology, w: Timing, b: Books, c: Id, level: nat, ceilCost: nat, rateCost: nat): Books
    requires c in t && c in w.tokens && c in w.ctokens && c in w.since && c in b.ceil && c in b.rate
  {
    Books(b.pardoned - {c}, b.ceil[c := b.ceil[c] + [CeilPayment(t, w, b, c, level, ceilCost)]],
          if level <= t[c].level then b.rate[c := b.rate[c] + [RatePayment(t, w, b, c, level, rateCost)]] else b.rate)
  }

  lemma PaidIsCheckpointed(t: Topology, w: Timing, c: Id, level: nat, ceilCost: nat, rateCost: nat)
    requires TimingShaped(t, w) && c in t
    ensures Checkpointed(t, w, Paid(t, w, c, level, ceilCost, rateCost), c)
    ensures TimingShaped(t, Paid(t, w, c, level, ceilCost, rateCost))
  {
  }

  /** Ledgers do not depend on the queues, and time only fills buckets. */
  lemma SameLedgers(t: Topology, hysteresis: bool, mode: map<Id, Mode>, w: Timing, w': Timing, b: Books)
    requires LedgersInv(t, hysteresis, mode, w, b) && TimingShaped(t, w') && w.now <= w'.now
    requires w'.tokens == w.tokens && w'.ctokens == w.ctokens && w'.since == w.since && w'.key == w.key
    ensures LedgersInv(t, hysteresis, mode, w', b)
  {
    forall c | c in t ensures InBalance(t[c], hysteresis, w'.now, AcctOf(mode, w', b, c)) {
      assert AcctOf(mode, w', b, c) == AcctOf(mode, w, b, c);
      TimeBalances(t[c], hysteresis, w.now, w'.now, AcctOf(mode, w, b, c));
    }
  }

  /** A charge: the class pays, takes the mode its buckets call for and waits if it must. */
  ghost predicate Charged(t: Topology, hysteresis: bool, mode: map<Id, Mode>, w: Timing, c: Id, level: nat,
                          ceilCost: nat, rateCost: nat, mode': map<Id, Mode>, w': Timing)
    requires c in t && c in mode && c in w.tokens && c in w.ctokens && c in w.since
    requires t[c].level in w.wait && t[c].level in w.nearest
  {
    var w1 := Paid(t, w, c, level, ceilCost, rateCost);
    var v := ClassMode(hysteresis, t[c], mode[c], w1.tokens[c], w1.ctokens[c], 0);
    mode' == mode[c := v.mode] && w' == AfterCharge(t, w1, c, mode[c], v)
  }

  lemma ChargedAcctIs(t: Topology, hysteresis: bool, mode: map<Id, Mode>, w: Timing, b: Books, c: Id, level: nat,
                      ceilCost: nat, rateCost: nat, mode': map<Id, Mode>, w': Timing, b': Books)
    requires TimingShaped(t, w) && mode.Keys == t.Keys && c in t && t[c].level < MAXDEPTH && TimingShaped(t, w')
    requires b.ceil.Keys == t.Keys && b.rate.Keys == t.Keys
    requires Charged(t, hysteresis, mode, w, c, level, ceilCost, rateCost, mode', w')
    requires b' == BooksAfter(t, w, b, c, level, ceilCost, rateCost)
    ensures AcctOf(mode', w', b', c) == ChargedAcct(t[c], hysteresis, w.now, AcctOf(mode, w, b, c), level, ceilCost, rateCost)
  {
  }

  lemma BooksAreLocal(t: Topology, w: Timing, b: Books, c: Id, level: nat, ceilCost: nat, rateCost: nat, b': Books)
    requires TimingShaped(t, w) && c in t && b.ceil.Keys == t.Keys && b.rate.Keys == t.Keys
    requires b' == BooksAfter(t, w, b, c, level, ceilCost, rateCost)
    ensures b'.ceil.Keys == t.Keys && b'.rate.Keys == t.Keys
    ensures forall d | d in t && d != c ::
              b'.ceil[d] == b.ceil[d] && b'.rate[d] == b.rate[d] && (d in b'.pardoned <==> d in b.pardoned)
  {
  }

  /** Buckets, checkpoints and events of other classes are as before. */
  ghost predicate TimingLocal(t: Topology, w: Timing, w': Timing, c: Id)
    requires TimingShaped(t, w) && TimingShaped(t, w')
  {
    w'.now == w.now && forall d | d in t && d != c ::
      w'.tokens[d] == w.tokens[d] && w'.ctokens[d] == w.ctokens[d] && w'.since[d] == w.since[d] && w'.key[d] == w.key[d]
  }

  lemma ChargeIsLocal(t: Topology, w: Timing, c: Id, level: nat, ceilCost: nat, rateCost: nat, was: Mode, v: Verdict, w': Timing)
    requires TimingShaped(t, w) && c in t && t[c].level < MAXDEPTH && TimingShaped(t, w')
    requires w' == AfterCharge(t, Paid(t, w, c, level, ceilCost, rateCost), c, was, v)
    ensures TimingLocal(t, w, w', c)
  {
  }

  lemma LocalKeepsOthers(t: Topology, c: Id, mode: map<Id, Mode>, w: Timing, b: Books, m: Mode, w': Timing, b': Books)
    requires TimingShaped(t, w) && mode.Keys == t.Keys && b.ceil.Keys == t.Keys && b.rate.Keys == t.Keys && c in t
    requires TimingShaped(t, w') && b'.ceil.Keys == t.Keys && b'.rate.Keys == t.Keys && TimingLocal(t, w, w', c)
    requires forall d | d in t && d != c ::
               b'.ceil[d] == b.ceil[d] && b'.rate[d] == b.rate[d] && (d in b'.pardoned <==> d in b.pardoned)
    ensures mode[c := m].Keys == t.Keys && OthersKept(t, c, mode, w, b, mode[c := m], w', b')
  {
  }

  /** Charging keeps the books balanced. */
  lemma ChargeKeepsLedgers(t: Topology, hysteresis: bool, mode: map<Id, Mode>, w: Timing, b: Books, c: Id, level: nat,
                           ceilCost: nat, rateCost: nat, mode': map<Id, Mode>, w': Timing, b': Books)
    requires WellFormed(t) && LedgersInv(t, hysteresis, mode, w, b) && c in t && TimingShaped(t, w')
    requires MayPay(t[c], mode[c], level)
    requires Charged(t, hysteresis, mode, w, c, level, ceilCost, rateCost, mode', w')
    requires b' == BooksAfter(t, w, b, c, level, ceilCost, rateCost)
    ensures LedgersInv(t, hysteresis, mode', w', b')
  {
    var w1 := Paid(t, w, c, level, ceilCost, rateCost);
    BooksAreLocal(t, w, b, c, level, ceilCost, rateCost, b');
    ChargeIsLocal(t, w, c, level, ceilCost, rateCost, mode[c], ClassMode(hysteresis, t[c], mode[c], w1.tokens[c], w1.ctokens[c], 0), w');
    LocalKeepsOthers(t, c, mode, w, b, mode'[c], w', b');
    ChargedAcctIs(t, hysteresis, mode, w, b, c, level, ceilCost, rateCost, mode', w', b');
    ChargeBalances(t[c], hysteresis, w.now, AcctOf(mode, w, b, c), level, ceilCost, rateCost);
    LedgersFollow(t, hysteresis, mode, w, b, c, mode', w', b');
  }

  lemma ChargeKeepsAll(t: Topology, hysteresis: bool, mode: map<Id, Mode>, w: Timing, b: Books, c: Id, level: nat,
                       ceilCost: nat, rateCost: nat, mode': map<Id, Mode>, w': Timing)
    requires WellFormed(t) && TimedInv(t, hysteresis, mode, w, b) && c in t && MayPay(t[c], mode[c], level)
    requires Charged(t, hysteresis, mode, w, c, level, ceilCost, rateCost, mode', w')
    ensures TimedInv(t, hysteresis, mode', w', BooksAfter(t, w, b, c, level, ceilCost, rateCost))
  {
    var w1 := Paid(t, w, c, level, ceilCost, rateCost);
    var v := ClassMode(hysteresis, t[c], mode[c], w1.tokens[c], w1.ctokens[c], 0);
    PaidIsCheckpointed(t, w, c, level, ceilCost, rateCost);
    ChargeKeepsTiming(t, mode, w, c, w1, v, w');
    ChargeKeepsLedgers(t, hysteresis, mode, w, b, c, level, ceilCost, rateCost, mode', w', BooksAfter(t, w, b, c, level, ceilCost, rateCost));
  }

  /** A class and its ancestors. */
  function PathUp(t: Topology, c: Id): (r: set<Id>)
    requires WellFormed(t) && (c == 0 || c in t)
    decreases if c == 0 then 0 else MAXDEPTH + 1 - t[c].level
  {
    if c == 0 then {} else {c} + PathUp(t, t[c].parent)
  }

  /** The climb from `c0` has got to `c`, having passed the classes of `paid` beyond `paid0`. */
  ghost predicate Climbing(t: Topology, c0: Id, paid0: set<Id>, c: Id, paid: set<Id>) {
    && WellFormed(t) && (c0 == 0 || c0 in t) && (c == 0 || (c in t && t[c].level > 0))
    && paid + PathUp(t, c) == paid0 + PathUp(t, c0)
    && (c != 0 ==> forall d | d in paid :: d in t && t[d].level < t[c].level)
  }

  lemma ClimbBegins(t: Topology, c: Id)
    requires WellFormed(t) && c in t && t[c].level == 0
    ensures Climbing(t, t[c].parent, {} + {c}, t[c].parent, {} + {c})
    ensures ({} + {c}) + PathUp(t, t[c].parent) == PathUp(t, c)
  {
    assert {} + {c} == {c};
  }

  lemma ClimbStep(t: Topology, c0: Id, paid0: set<Id>, c: Id, paid: set<Id>)
    requires Climbing(t, c0, paid0, c, paid) && c != 0
    ensures c !in paid && Climbing(t, c0, paid0, t[c].parent, paid + {c})
  {
    assert paid + {c} + PathUp(t, t[c].parent) == paid + PathUp(t, c);
  }

  lemma ClimbEnds(t: Topology, c0: Id, paid0: set<Id>, paid: set<Id>)
    requires Climbing(t, c0, paid0, 0, paid)
    ensures paid == paid0 + PathUp(t, c0)
  {
    assert paid + PathUp(t, 0) == paid;
  }

  /** From `w` to `w'` exactly the classes of `path` paid for a packet served at `level`. */
  ghost predicate PathPaid(t: Topology, w: Timing, w': Timing, path: set<Id>, level: nat, bytes: nat,
                           ceilCost: (Id, nat) -> nat, rateCost: (Id, nat) -> nat)
  {
    && TimingShaped(t, w) && TimingShaped(t, w') && w'.now == w.now
    && forall d | d in t ::
         && w'.tokens[d] == (if d in path then RateAfter(t, w, d, level, rateCost(d, bytes)) else w.tokens[d])
         && w'.ctokens[d] == (if d in path then CeilAfter(t, w, d, ceilCost(d, bytes)) else w.ctokens[d])
         && w'.since[d] == (if d in path then w.now else w.since[d])
  }

  lemma PathPaidMore(t: Topology, hysteresis: bool, mode: map<Id, Mode>, w: Timing, w1: Timing, path: set<Id>, level: nat, bytes: nat,
                     ceilCost: (Id, nat) -> nat, rateCost: (Id, nat) -> nat, c: Id, mode': map<Id, Mode>, w': Timing)
    requires PathPaid(t, w, w1, path, level, bytes, ceilCost, rateCost) && TimingShaped(t, w')
    requires c in t && c !in path && mode.Keys == t.Keys && t[c].level < MAXDEPTH
    requires Charged(t, hysteresis, mode, w1, c, level, ceilCost(c, bytes), rateCost(c, bytes), mode', w')
    ensures PathPaid(t, w, w', path + {c}, level, bytes, ceilCost, rateCost)
  {
    var w2 := Paid(t, w1, c, level, ceilCost(c, bytes), rateCost(c, bytes));
    assert w'.tokens == w2.tokens && w'.ctokens == w2.ctokens && w'.since == w2.since;
  }

  /** What a charge of one class needs to know. */
  lemma ReadyToCharge(t: Topology, hysteresis: bool, mode: map<Id, Mode>, w: Timing, b: Books, c: Id)
    requires WellFormed(t) && TimedInv(t, hysteresis, mode, w, b) && c in t
    ensures c in mode && t[c].level < MAXDEPTH && c in w.tokens && c in w.ctokens && c in w.since && c in b.ceil && c in b.rate
    ensures t[c].level in w.wait && t[c].level in w.nearest && (mode[c] != CanSend <==> c in w.wait[t[c].level])
  {
  }

  // ---------- events ----------

  /** The classes of a level whose event has come. */
  function Due(w: Timing, level: nat): set<Id> {
    if level in w.wait then set c | c in w.wait[level] && c in w.key && w.key[c] <= w.now else {}
  }

  lemma {:induction false} FirstExists(s: set<Id>, key: map<Id, int>)
    requires s != {} && forall c | c in s :: c in key
    ensures exists c :: c in s && forall d | d in s :: key[c] <= key[d]
  {
    var x :| x in s;
    var r := s - {x};
    assert s == r + {x};
    if r != {} {
      FirstExists(r, key);
      var y :| y in r && forall d | d in r :: key[y] <= key[d];
      var z := if key[x] <= key[y] then x else y;
      assert z in s && forall d | d in r + {x} :: key[z] <= key[d];
    } else {
      assert x in s && forall d | d in r + {x} :: key[x] <= key[d];
    }
  }

  /** The mode an event gives its class. */
  function EventVerdict(t: Topology, hysteresis: bool, mode: map<Id, Mode>, w: Timing, c: Id): Verdict
    requires c in t && c in mode && c in w.tokens && c in w.ctokens && c in w.since
  {
    ClassMode(hysteresis, t[c], mode[c], w.tokens[c], w.ctokens[c], Elapsed(w.now, w.since[c], t[c].mbuffer))
  }

  /** A handled class is not due again, and no other becomes due. */
  lemma DueShrinks(t: Topology, hysteresis: bool, mode: map<Id, Mode>, w: Timing, c: Id, v: Verdict)
    requires TimingShaped(t, w) && c in t && t[c].level < MAXDEPTH && mode.Keys == t.Keys
    requires v == EventVerdict(t, hysteresis, mode, w, c) && c in Due(w, t[c].level)
    ensures Due(AfterEvent(t, w, c, v), t[c].level) == Due(w, t[c].level) - {c}
    ensures |Due(AfterEvent(t, w, c, v), t[c].level)| < |Due(w, t[c].level)|
  {
    var w' := AfterEvent(t, w, c, v);
    var l := t[c].level;
    assert Due(w', l) == Due(w, l) - {c};
  }

  /** Exactly the classes of `done` had their event. */
  ghost predicate EventsApplied(t: Topology, hysteresis: bool, mode: map<Id, Mode>, w: Timing, mode': map<Id, Mode>, w': Timing, done: set<Id>) {
    && TimingShaped(t, w) && mode.Keys == t.Keys && mode'.Keys == t.Keys
    && w'.tokens == w.tokens && w'.ctokens == w.ctokens && w'.since == w.since && w'.now == w.now
    && forall c | c in t :: mode'[c] == if c in done then EventVerdict(t, hysteresis, mode, w, c).mode else mode[c]
  }

  lemma OneMoreEvent(t: Topology, hysteresis: bool, mode: map<Id, Mode>, w: Timing, mode1: map<Id, Mode>, w1: Timing, done: set<Id>,
                     c: Id, v: Verdict, w': Timing)
    requires EventsApplied(t, hysteresis, mode, w, mode1, w1, done) && c in t && c !in done
    requires v == EventVerdict(t, hysteresis, mode1, w1, c)
    requires w'.tokens == w1.tokens && w'.ctokens == w1.ctokens && w'.since == w1.since && w'.now == w1.now
    ensures EventsApplied(t, hysteresis, mode, w, mode1[c := v.mode], w', done + {c})
  {
  }

  lemma EventAcctIs(t: Topology, hysteresis: bool, mode: map<Id, Mode>, w: Timing, b: Books, c: Id, v: Verdict)
    requires TimingShaped(t, w) && mode.Keys == t.Keys && c in t && t[c].level < MAXDEPTH
    requires b.ceil.Keys == t.Keys && b.rate.Keys == t.Keys && v == EventVerdict(t, hysteresis, mode, w, c)
    ensures TimingShaped(t, AfterEvent(t, w, c, v)) && TimingLocal(t, w, AfterEvent(t, w, c, v), c)
    ensures AcctOf(mode[c := v.mode], AfterEvent(t, w, c, v), b, c) == EventAcct(t[c], hysteresis, w.now, AcctOf(mode, w, b, c))
  {
  }

  lemma EventKeepsLedgers(t: Topology, hysteresis: bool, mode: map<Id, Mode>, w: Timing, b: Books, c: Id, v: Verdict, w': Timing)
    requires WellFormed(t) && LedgersInv(t, hysteresis, mode, w, b)
    requires c in t && mode[c] != CanSend && v == EventVerdict(t, hysteresis, mode, w, c) && w' == AfterEvent(t, w, c, v)
    ensures LedgersInv(t, hysteresis, mode[c := v.mode], w', b)
  {
    EventAcctIs(t, hysteresis, mode, w, b, c, v);
    LocalKeepsOthers(t, c, mode, w, b, v.mode, w', b);
    EventBalances(t[c], hysteresis, w.now, AcctOf(mode, w, b, c));
    LedgersFollow(t, hysteresis, mode, w, b, c, mode[c := v.mode], w', b);
  }

  /** Handling one due event of a class: everything it keeps. */
  lemma EventKeepsAll(t: Topology, hysteresis: bool, mode0: map<Id, Mode>, w0: Timing, mode: map<Id, Mode>, w: Timing, done: set<Id>,
                      b: Books, c: Id, v: Verdict, w': Timing)
    requires WellFormed(t) && TimedInv(t, hysteresis, mode, w, b)
    requires c in t && v == EventVerdict(t, hysteresis, mode, w, c) && w' == AfterEvent(t, w, c, v)
    requires c in Due(w, t[c].level) && c !in done && EventsApplied(t, hysteresis, mode0, w0, mode, w, done)
    ensures TimedInv(t, hysteresis, mode[c := v.mode], w', b)
    ensures EventsApplied(t, hysteresis, mode0, w0, mode[c := v.mode], w', done + {c})
    ensures Due(w', t[c].level) == Due(w, t[c].level) - {c} && |Due(w', t[c].level)| < |Due(w, t[c].level)|
    ensures OtherLevelsKept(t, w0, w, t[c].level) ==> OtherLevelsKept(t, w0, w', t[c].level)
  {
    if OtherLevelsKept(t, w0, w, t[c].level) {
      EventIsLocal(t, w0, w, c, v);
    }
    EventKeepsTiming(t, hysteresis, mode, w, c, v);
    assert c in w.wait[t[c].level];
    EventKeepsLedgers(t, hysteresis, mode, w, b, c, v, w');
    DueShrinks(t, hysteresis, mode, w, c, v);
    OneMoreEvent(t, hysteresis, mode0, w0, mode, w, done, c, v, w');
  }

  /** `event` is the first key among the classes waiting on the level. */
  ghost predicate NextKey(t: Topology, w: Timing, level: nat, event: int)
    requires TimingShaped(t, w) && level < MAXDEPTH
  {
    && (exists c :: c in w.wait[level] && c in t && w.key[c] == event)
    && (forall c | c in w.wait[level] && c in t :: event <= w.key[c])
  }

  /** What the event handler reports: 0 when no class waits, the time of the next event when none
      is due, or the current time when it was cut short. */
  ghost predicate NextEvent(t: Topology, w: Timing, level: nat, limited: bool, event: int)
    requires TimingShaped(t, w) && level < MAXDEPTH
  {
    if event == 0 then w.wait[level] == {}
    else (event == w.now && limited) || (event > w.now && NextKey(t, w, level, event))
  }

  /** The class whose event comes first tells the next event; if it lies ahead, nothing is due. */
  lemma FirstIsNext(t: Topology, mode: map<Id, Mode>, w: Timing, level: nat, c: Id)
    requires TimingInv(t, mode, w) && level < MAXDEPTH && c in w.wait[level] && c in t
    requires forall d | d in w.wait[level] :: d in w.key && w.key[c] <= w.key[d]
    ensures NextKey(t, w, level, w.key[c])
    ensures w.key[c] > w.now ==> Due(w, level) == {}
    ensures w.key[c] <= w.now ==> c in Due(w, level)
  {
  }

  lemma PathPaidAgrees(t: Topology, w: Timing, w1: Timing, w': Timing, path: set<Id>, level: nat, bytes: nat,
                       ceilCost: (Id, nat) -> nat, rateCost: (Id, nat) -> nat)
    requires PathPaid(t, w1, w', path, level, bytes, ceilCost, rateCost) && SameBuckets(w, w1) && TimingShaped(t, w)
    ensures PathPaid(t, w, w', path, level, bytes, ceilCost, rateCost)
  {
    forall d | d in t
      ensures && RateAfter(t, w, d, level, rateCost(d, bytes)) == RateAfter(t, w1, d, level, rateCost(d, bytes))
              && CeilAfter(t, w, d, ceilCost(d, bytes)) == CeilAfter(t, w1, d, ceilCost(d, bytes))
    {
    }
  }

  lemma SetStep(all: set<Id>, due: set<Id>, c: Id)
    requires c in due && due <= all
    ensures all - (due - {c}) == (all - due) + {c}
  {
  }

  /** Queues, keys and cached events of other levels are untouched. */
  ghost predicate OtherLevelsKept(t: Topology, w: Timing, w': Timing, level: nat) {
    && w'.wait.Keys == w.wait.Keys && w'.nearest.Keys == w.nearest.Keys && w'.key.Keys == w.key.Keys
    && (forall l: nat | l in w.wait && l != level :: w'.wait[l] == w.wait[l])
    && (forall l: nat | l in w.nearest && l != level :: w'.nearest[l] == w.nearest[l])
    && (forall c | c in t && t[c].level != level && c in w.key :: w'.key[c] == w.key[c])
  }

  lemma SameBucketsSameModes(t: Topology, w: Timing, w': Timing)
    requires TimingShaped(t, w) && TimingShaped(t, w') && SameBuckets(w, w')
    ensures BucketModes(t, w') == BucketModes(t, w)
  {
  }

  lemma EventIsLocal(t: Topology, w0: Timing, w: Timing, c: Id, v: Verdict)
    requires TimingShaped(t, w) && c in t && t[c].level < MAXDEPTH && OtherLevelsKept(t, w0, w, t[c].level)
    ensures OtherLevelsKept(t, w0, AfterEvent(t, w, c, v), t[c].level)
  {
  }

  /** The event `event` of a level is no later than any event waiting there, unless it has passed. */
  ghost predicate LevelReport(t: Topology, w: Timing, level: nat, event: int) {
    && level in w.wait
    && forall c | c in w.wait[level] :: c in t && c in w.key && (event <= w.key[c] || event <= w.now)
  }

  /** A level that is skipped because its cached event is still ahead holds no class that is due. */
  lemma SkippedLevel(t: Topology, mode: map<Id, Mode>, w: Timing, level: nat)
    requires TimingInv(t, mode, w) && level < MAXDEPTH && w.now < w.nearest[level]
    ensures Due(w, level) == {} && LevelReport(t, w, level, w.nearest[level])
  {
  }

  lemma ReportedLevel(t: Topology, mode: map<Id, Mode>, w: Timing, level: nat, limited: bool, event: int, cached: int)
    requires TimingInv(t, mode, w) && level < MAXDEPTH
    requires NextEvent(t, w, level, limited, event) && (event != 0 ==> cached == event)
    ensures LevelReport(t, w.(nearest := w.nearest[level := cached]), level, cached)
    ensures Due(w.(nearest := w.nearest[level := cached]), level) == Due(w, level)
  {
  }

  /** Caching what the event handler reported keeps the invariant. */
  lemma CacheReport(t: Topology, hysteresis: bool, mode: map<Id, Mode>, w: Timing, b: Books, level: nat, limited: bool, event: int, cached: int)
    requires TimedInv(t, hysteresis, mode, w, b) && level < MAXDEPTH
    requires NextEvent(t, w, level, limited, event) && (event != 0 ==> cached == event)
    ensures TimedInv(t, hysteresis, mode, w.(nearest := w.nearest[level := cached]), b)
  {
    var w' := w.(nearest := w.nearest[level := cached]);
    assert TimingShaped(t, w');
    SameLedgers(t, hysteresis, mode, w, w', b);
  }

  /** Every event of a level at most `level` comes no earlier than `wake`, unless `wake` has passed. */
  ghost predicate WakesInTime(t: Topology, w: Timing, level: nat, wake: int)
    requires TimingShaped(t, w)
  {
    forall l: nat, c: Id | l < level && l < MAXDEPTH && c in w.wait[l] && c in t :: wake <= w.key[c] || wake <= w.now
  }

  /** `wake` is the earliest of `cap` and the cached events of the levels below `l`. */
  ghost predicate Earliest(w: Timing, l: nat, wake: int, cap: int) {
    && wake <= cap && (forall j: nat {:trigger w.nearest[j]} | j < l && j in w.nearest :: wake <= w.nearest[j])
    && (wake == cap || exists j: nat :: j < l && j in w.nearest && w.nearest[j] == wake)
  }

  /** Unless the handler was cut short, those events are all ahead. */
  ghost predicate Ahead(w: Timing, l: nat, step: nat, limited: bool) {
    !limited && step > 0 ==> forall j: nat {:trigger w.nearest[j]} | j < l && j in w.nearest :: w.now < w.nearest[j]
  }

  lemma EarliestStep(t: Topology, w: Timing, w': Timing, l: nat, wake: int, cap: int, event: int, step: nat, limited: bool)
    requires Earliest(w, l, wake, cap) && Ahead(w, l, step, limited) && OtherLevelsKept(t, w, w', l) && w'.now == w.now
    requires l in w'.nearest && w'.nearest[l] == event && (!limited && step > 0 ==> w.now < event)
    ensures Earliest(w', l + 1, Min(wake, event), cap) && Ahead(w', l + 1, step, limited)
  {
    if wake != cap {
      var j: nat :| j < l && j in w.nearest && w.nearest[j] == wake;
      assert w'.nearest[j] == wake;
    }
    assert w'.nearest[l] == event;
  }

  /** No class below `level` is due. */
  ghost predicate NoneDue(t: Topology, w: Timing, level: nat) {
    forall l: nat | l < level :: Due(w, l) == {}
  }

  /** Earlier levels are unaffected by catching up with a later one. */
  lemma ReportsAccumulate(t: Topology, w: Timing, w': Timing, level: nat, wake: int, event: int, limited: bool)
    requires TimingShaped(t, w) && TimingShaped(t, w') && level < MAXDEPTH && w'.now == w.now
    requires WakesInTime(t, w, level, wake) && OtherLevelsKept(t, w, w', level) && LevelReport(t, w', level, event)
    requires forall l: nat, c: Id | l < level && c in w.wait[l] :: c in t && t[c].level == l
    requires !limited ==> NoneDue(t, w, level) && Due(w', level) == {}
    ensures WakesInTime(t, w', level + 1, Min(wake, event))
    ensures !limited ==> NoneDue(t, w', level + 1)
  {
    if !limited {
      forall l: nat | l < level + 1 ensures Due(w', l) == {} {
        if l < level {
          assert Due(w', l) <= Due(w, l);
        }
      }
    }
  }

  /** The timed part of the scheduler's invariant. */
  ghost predicate TimedInv(t: Topology, hysteresis: bool, mode: map<Id, Mode>, w: Timing, b: Books) {
    TimingInv(t, mode, w) && LedgersInv(t, hysteresis, mode, w, b)
  }

  lemma TimePassesAll(t: Topology, hysteresis: bool, mode: map<Id, Mode>, w: Timing, b: Books, now: int)
    requires TimedInv(t, hysteresis, mode, w, b) && w.now <= now
    ensures TimedInv(t, hysteresis, mode, w.(now := now), b)
  {
    TimePasses(t, mode, w, now);
    SameLedgers(t, hysteresis, mode, w, w.(now := now), b);
  }

  ghost predicate SameBuckets(w: Timing, w': Timing) {
    w'.now == w.now && w'.tokens == w.tokens && w'.ctokens == w.ctokens && w'.since == w.since
  }

  lemma CaughtUp(t: Topology, mode: map<Id, Mode>, w: Timing, w': Timing, level: nat, wake: int, event: int, limited: bool)
    requires TimingInv(t, mode, w) && TimingShaped(t, w') && level < MAXDEPTH && w'.now == w.now
    requires WakesInTime(t, w, level, wake) && OtherLevelsKept(t, w, w', level) && LevelReport(t, w', level, event)
    requires !limited ==> NoneDue(t, w, level) && Due(w', level) == {}
    ensures WakesInTime(t, w', level + 1, Min(wake, event))
    ensures !limited ==> NoneDue(t, w', level + 1)
  {
    ReportsAccumulate(t, w, w', level, wake, event, limited);
  }

  /** Time passing keeps the invariant, and a level whose cached event is still ahead holds no
      class that is due. */
  lemma TimePasses(t: Topology, mode: map<Id, Mode>, w: Timing, now: int)
    requires TimingInv(t, mode, w) && w.now <= now
    ensures TimingInv(t, mode, w.(now := now))
    ensures forall l: nat, c: Id | l < MAXDEPTH && now < w.nearest[l] && c in w.wait[l] :: c in t && now < w.key[c]
  {
  }

  // ---------- idle schedulers ----------

  function EmptyBooks(t: Topology): Books {
    Books({}, map c | c in t :: [], map c | c in t :: [])
  }

  /** Full buckets and no class waiting. */
  function FullBuckets(t: Topology, now: nat): Timing {
    Timing(map c | c in t :: t[c].buffer, map c | c in t :: t[c].cbuffer, map c | c in t :: now, map c | c in t :: 0,
           map l | l in Levels() :: {}, map l | l in Levels() :: 0, now)
  }

  lemma FullBucketsTimed(t: Topology, hysteresis: bool, mode: map<Id, Mode>, now: nat)
    requires WellFormed(t) && mode.Keys == t.Keys && forall c | c in t :: mode[c] == CanSend
    ensures TimedInv(t, hysteresis, mode, FullBuckets(t, now), EmptyBooks(t))
  {
  }

  function NobodyWaits(w: Timing): Timing {
    w.(wait := map l | l in w.wait :: {})
  }

  /** A reset keeps the invariant whatever the buckets hold: all classes are pardoned their next packet. */
  lemma ResetTimed(t: Topology, hysteresis: bool, mode: map<Id, Mode>, w: Timing, b: Books, mode': map<Id, Mode>)
    requires TimedInv(t, hysteresis, mode, w, b)
    requires mode'.Keys == t.Keys && forall c | c in t :: mode'[c] == CanSend
    ensures TimedInv(t, hysteresis, mode', NobodyWaits(w), b.(pardoned := t.Keys))
  {
    forall c | c in t ensures InBalance(t[c], hysteresis, w.now, AcctOf(mode', NobodyWaits(w), b.(pardoned := t.Keys), c)) {
      assert AcctOf(mode', NobodyWaits(w), b.(pardoned := t.Keys), c) == AcctOf(mode, w, b, c).(mode := CanSend, pardoned := true);
      assert InBalance(t[c], hysteresis, w.now, AcctOf(mode, w, b, c));
    }
  }

  // ---------- the traffic of a class ----------

  /** What holds of every stretch `i` to `j` of the packets a bucket ever paid for, with any number of
      resets between them.
      - It keeps the bound exactly if what the bucket held before the last packet, the room it had at the
        first and what spilled since cover the debts cut off.
      - It keeps the bound if the last packet was not paid for out of debt and no debt was cut off.
      - From a full bucket without spilling and cutting off, it keeps the bound exactly if the last packet
        was not paid for out of debt.
      - Only the first packet after a reset, and packets lent by a class below, are ever paid for out of
        debt and, as long as costs stay below `mbuffer`, only their debt is ever cut off. */
  ghost predicate Bounded(log: Log, depth: nat, mbuffer: nat, i: nat, j: nat)
    requires i <= j < |log|
  {
    && (WithinBound(log, depth, i, j) <==> log[j].level + (depth - log[i].level) + Spilled(log, i, j) >= Forgiven(log, i, j))
    && Spilled(log, i, j) >= 0 && depth - log[i].level >= 0
    && (log[j].level >= 0 && (forall k | i <= k < j :: !CutOff(log, mbuffer, k)) ==> WithinBound(log, depth, i, j))
    && (log[i].level == depth && Spilled(log, i, j) == 0 && (forall k | i <= k < j :: !CutOff(log, mbuffer, k)) ==>
          (WithinBound(log, depth, i, j) <==> log[j].level >= 0))
    && (log[j].level < 0 ==> Excused(log[j]))
    && (CutOff(log, mbuffer, j) && log[j].cost < mbuffer ==> log[j].level < 0)
  }

  lemma LogIsBounded(log: Log, depth: nat, mbuffer: nat, i: nat, j: nat)
    requires Conforms(log, depth, mbuffer) && Solvent(log) && i <= j < |log|
    ensures Bounded(log, depth, mbuffer, i, j)
  {
    BoundIff(log, depth, i, j);
    NothingNegative(log, depth, mbuffer, i, j);
    assert InOrder(log[j], depth, mbuffer);
    if CutOff(log, mbuffer, j) && log[j].cost < mbuffer {
      CutOffIsExcused(log, depth, mbuffer, j);
    }
    if forall k | i <= k < j :: !CutOff(log, mbuffer, k) {
      if log[j].level >= 0 {
        TrafficBound(log, depth, mbuffer, i, j);
      }
      if log[i].level == depth && Spilled(log, i, j) == 0 {
        FullBucketBoundIff(log, depth, mbuffer, i, j);
      }
    }
  }

  /** The traffic of every class, in every state the scheduler gets into: what was paid from its ceiling
      bucket and from its rate bucket. */
  lemma ClassTrafficBound(t: Topology, mode: map<Id, Mode>, w: Timing, b: Books, c: Id, i: nat, j: nat)
    requires TimedInv(t, false, mode, w, b) && c in t && i <= j
    ensures j < |b.ceil[c]| ==> Bounded(b.ceil[c], t[c].cbuffer, t[c].mbuffer, i, j)
    ensures j < |b.rate[c]| ==> Bounded(b.rate[c], t[c].buffer, t[c].mbuffer, i, j)
  {
    assert InBalance(t[c], false, w.now, AcctOf(mode, w, b, c));
    if j < |b.ceil[c]| {
      LogIsBounded(b.ceil[c], t[c].cbuffer, t[c].mbuffer, i, j);
    }
    if j < |b.rate[c]| {
      LogIsBounded(b.rate[c], t[c].buffer, t[c].mbuffer, i, j);
    }
  }

  /** Without a reset, and for packets not lent from below, the bound always holds and no debt is ever cut
      off: for all packets of a leaf, for those an inner class lent, and for those it passed up. */
  lemma BoundWithoutReset(t: Topology, mode: map<Id, Mode>, w: Timing, b: Books, c: Id, i: nat, j: nat)
    requires TimedInv(t, false, mode, w, b) && c in t && i <= j
    ensures j < |b.ceil[c]| && Ordinary(b.ceil[c], t[c].mbuffer, i, j) ==>
              && WithinBound(b.ceil[c], t[c].cbuffer, i, j)
              && forall k | i <= k <= j :: b.ceil[c][k].left == b.ceil[c][k].level - b.ceil[c][k].cost
    ensures j < |b.rate[c]| && Ordinary(b.rate[c], t[c].mbuffer, i, j) ==>
              && WithinBound(b.rate[c], t[c].buffer, i, j)
              && forall k | i <= k <= j :: b.rate[c][k].left == b.rate[c][k].level - b.rate[c][k].cost
  {
    assert InBalance(t[c], false, w.now, AcctOf(mode, w, b, c));
    if j < |b.ceil[c]| && Ordinary(b.ceil[c], t[c].mbuffer, i, j) {
      OrdinaryIsBounded(b.ceil[c], t[c].cbuffer, t[c].mbuffer, i, j);
    }
    if j < |b.rate[c]| && Ordinary(b.rate[c], t[c].mbuffer, i, j) {
      OrdinaryIsBounded(b.rate[c], t[c].buffer, t[c].mbuffer, i, j);
    }
  }

  /** Before the next packet of a class, at time `w.now`, what its ceiling bucket holds tells whether the
      stretches that end with it keep the bound.  From a full bucket, if nothing spilled or was cut off
      since, the bound is kept exactly if the class is out of debt when it pays: the exact condition after a
      reset and above the lender. */
  lemma NextPacketBoundIff(t: Topology, mode: map<Id, Mode>, w: Timing, b: Books, c: Id, level: nat, ceilCost: nat, rateCost: nat, i: nat)
    requires WellFormed(t) && TimedInv(t, false, mode, w, b) && c in t && i < |b.ceil[c]| && MayPay(t[c], mode[c], level)
    ensures var log := BooksAfter(t, w, b, c, level, ceilCost, rateCost).ceil[c];
            var j, held := |b.ceil[c]|, Min(w.ctokens[c] + Elapsed(w.now, w.since[c], t[c].mbuffer), t[c].cbuffer);
            && (WithinBound(log, t[c].cbuffer, i, j) <==>
                  held + (t[c].cbuffer - log[i].level) + Spilled(log, i, j) >= Forgiven(log, i, j))
            && (log[i].level == t[c].cbuffer && Spilled(log, i, j) == 0 && (forall k | i <= k < j :: !CutOff(log, t[c].mbuffer, k)) ==>
                  (WithinBound(log, t[c].cbuffer, i, j) <==> w.ctokens[c] + Elapsed(w.now, w.since[c], t[c].mbuffer) >= 0))
  {
    var log := BooksAfter(t, w, b, c, level, ceilCost, rateCost).ceil[c];
    assert InBalance(t[c], false, w.now, AcctOf(mode, w, b, c));
    CeilBalances(t[c], false, w.now, AcctOf(mode, w, b, c), level, ceilCost, rateCost);
    LogIsBounded(log, t[c].cbuffer, t[c].mbuffer, i, |b.ceil[c]|);
  }

  // ---------- modes and buckets ----------

  /** The mode that the buckets of a class call for. */
  function BucketMode(w: Timing, c: Id): Mode
    requires c in w.tokens && c in w.ctokens && c in w.since
  {
    if w.ctokens[c] + (w.now - w.since[c]) < 0 then CantSend
    else if w.tokens[c] + (w.now - w.since[c]) >= 0 then CanSend
    else MayBorrow
  }

  function BucketModes(t: Topology, w: Timing): map<Id, Mode>
    requires TimingShaped(t, w)
  {
    map c | c in t :: BucketMode(w, c)
  }

  /** While no event is due, every class has the mode its buckets call for, unless it was reset and has not
      paid since; then it can send. */
  lemma ModesAreCurrent(t: Topology, mode: map<Id, Mode>, w: Timing, b: Books, c: Id)
    requires WellFormed(t) && TimedInv(t, false, mode, w, b) && NoneDue(t, w, MAXDEPTH) && c in t
    ensures mode[c] == if c in b.pardoned then CanSend else BucketMode(w, c)
  {
    assert InBalance(t[c], false, w.now, AcctOf(mode, w, b, c));
    if mode[c] != CanSend {
      assert c in w.wait[t[c].level];
      assert Due(w, t[c].level) == {};
      assert c !in Due(w, t[c].level);
    }
  }
}
