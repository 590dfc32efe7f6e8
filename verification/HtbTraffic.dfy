/** What a token bucket lets through: payments out of a bucket, and the exact condition under which a
    stretch of them keeps the bound that its depth and the passing of time put on it. */
module HtbTraffic {

  function Min(a: int, b: int): int { if a < b then a else b }

  /** Debt is cut off just above `mbuffer`. */
  function Clamp(toks: int, mbuffer: nat): (r: int)
    ensures r > 0 - mbuffer && r >= toks
    ensures r == toks <==> toks > 0 - mbuffer
  {
    if toks <= 0 - mbuffer then 1 - mbuffer else toks
  }

  /** Refill up to the bucket's depth, pay, and clamp the debt. */
  function Account(tokens: int, depth: nat, cost: nat, mbuffer: nat, diff: int): int {
    Clamp(Min(diff + tokens, depth) - cost, mbuffer)
  }

  /** One packet paid for by a bucket: when, how much, what the bucket held before and after; whether it was
      the first packet its class paid for since a reset; and whether the class is above the one that lent,
      whose buckets nobody asked. */
  datatype Payment = Payment(time: int, cost: nat, level: int, left: int, pardoned: bool, above: bool)

  type Log = seq<Payment>

  /** What `Account` does, as a payment. */
  function Pays(now: int, tokens: int, depth: nat, cost: nat, mbuffer: nat, diff: int, pardoned: bool, above: bool): Payment {
    Payment(now, cost, Min(diff + tokens, depth), Account(tokens, depth, cost, mbuffer, diff), pardoned, above)
  }

  /** Payment `q` was the next one after `p`: the bucket grew with time, no faster, and slower only where it
      was full or idle for longer than `mbuffer`. */
  predicate Follows(p: Payment, q: Payment, depth: nat, mbuffer: nat) {
    && p.time <= q.time
    && Min(p.left + Min(q.time - p.time, mbuffer), depth) <= q.level <= p.left + (q.time - p.time)
  }

  predicate InOrder(p: Payment, depth: nat, mbuffer: nat) {
    p.level <= depth && p.left == Clamp(p.level - p.cost, mbuffer)
  }

  /** The bucket started full, was never filled beyond its depth, and grew with time. */
  ghost predicate Conforms(log: Log, depth: nat, mbuffer: nat) {
    && (log != [] ==> log[0].level == depth)
    && (forall i | 0 <= i < |log| :: InOrder(log[i], depth, mbuffer))
    && (forall i, j | 0 <= i < j < |log| && j == i + 1 :: Follows(log[i], log[j], depth, mbuffer))
  }

  predicate Excused(p: Payment) { p.pardoned || p.above }

  /** Only the first packet after a reset, and packets that a class above the lender pays for, were ever
      paid for out of debt. */
  ghost predicate Solvent(log: Log) {
    forall i | 0 <= i < |log| :: log[i].level < 0 ==> Excused(log[i])
  }

  // ---------- stretches ----------

  /** The cost of payments `i` to `j`. */
  function CostOf(log: Log, i: nat, j: nat): nat
    requires i <= j < |log|
  {
    if j == i then log[i].cost else CostOf(log, i, j - 1) + log[j].cost
  }

  /** What time added between payments `i` and `j` but the bucket did not keep. */
  function Spilled(log: Log, i: nat, j: nat): int
    requires i <= j < |log|
  {
    if j == i then 0 else Spilled(log, i, j - 1) + (log[j - 1].left + (log[j].time - log[j - 1].time) - log[j].level)
  }

  /** Debt made by payments `i` to before `j` that the clamp cut off. */
  function Forgiven(log: Log, i: nat, j: nat): int
    requires i <= j < |log|
  {
    if j == i then 0 else Forgiven(log, i, j - 1) + (log[j - 1].left - (log[j - 1].level - log[j - 1].cost))
  }

  /** The bound: the bucket's depth, the time that passed, and the last packet. */
  predicate WithinBound(log: Log, depth: nat, i: nat, j: nat)
    requires i <= j < |log|
  {
    CostOf(log, i, j) <= depth + (log[j].time - log[i].time) + log[j].cost
  }

  /** Where the tokens of a stretch went. */
  lemma {:induction false} Balance(log: Log, i: nat, j: nat)
    requires i <= j < |log|
    ensures CostOf(log, i, j) + log[j].level + Spilled(log, i, j)
            == log[i].level + (log[j].time - log[i].time) + log[j].cost + Forgiven(log, i, j)
    decreases j
  {
    if i < j {
      Balance(log, i, j - 1);
    }
  }

  /** A stretch keeps the bound exactly if what the bucket held before its last payment, with the room it
      had at the first and what spilled since, covers the debts that were cut off. */
  lemma BoundIff(log: Log, depth: nat, i: nat, j: nat)
    requires i <= j < |log|
    ensures WithinBound(log, depth, i, j) <==>
              log[j].level + (depth - log[i].level) + Spilled(log, i, j) >= Forgiven(log, i, j)
  {
    Balance(log, i, j);
  }

  lemma {:induction false} NothingNegative(log: Log, depth: nat, mbuffer: nat, i: nat, j: nat)
    requires Conforms(log, depth, mbuffer) && i <= j < |log|
    ensures Spilled(log, i, j) >= 0 && Forgiven(log, i, j) >= 0 && depth - log[i].level >= 0
    ensures (forall k | i <= k < j :: log[k].level - log[k].cost > 0 - mbuffer) <==> Forgiven(log, i, j) == 0
    decreases j
  {
    assert InOrder(log[i], depth, mbuffer);
    if i < j {
      NothingNegative(log, depth, mbuffer, i, j - 1);
      assert Follows(log[j - 1], log[j], depth, mbuffer) && InOrder(log[j - 1], depth, mbuffer);
    }
  }

  /** Payment `k` ran up a debt that was cut off. */
  predicate CutOff(log: Log, mbuffer: nat, k: nat)
    requires k < |log|
  {
    log[k].level - log[k].cost <= 0 - mbuffer
  }

  /** The bound holds for every stretch, across any number of resets, whose last packet was not paid for
      out of debt and in which no debt was cut off. */
  lemma TrafficBound(log: Log, depth: nat, mbuffer: nat, i: nat, j: nat)
    requires Conforms(log, depth, mbuffer) && i <= j < |log|
    requires log[j].level >= 0 && forall k | i <= k < j :: !CutOff(log, mbuffer, k)
    ensures WithinBound(log, depth, i, j)
  {
    forall k | i <= k < j ensures log[k].level - log[k].cost > 0 - mbuffer {
      assert !CutOff(log, mbuffer, k);
    }
    NothingNegative(log, depth, mbuffer, i, j);
    BoundIff(log, depth, i, j);
  }

  /** From a full bucket, as long as nothing spilled and no debt was cut off, it holds for a stretch
      exactly if the last packet was not paid for out of debt. */
  lemma FullBucketBoundIff(log: Log, depth: nat, mbuffer: nat, i: nat, j: nat)
    requires Conforms(log, depth, mbuffer) && i <= j < |log|
    requires log[i].level == depth && Spilled(log, i, j) == 0 && forall k | i <= k < j :: !CutOff(log, mbuffer, k)
    ensures WithinBound(log, depth, i, j) <==> log[j].level >= 0
  {
    forall k | i <= k < j ensures log[k].level - log[k].cost > 0 - mbuffer {
      assert !CutOff(log, mbuffer, k);
    }
    NothingNegative(log, depth, mbuffer, i, j);
    BoundIff(log, depth, i, j);
  }

  /** A packet that costs less than `mbuffer` and is not paid for out of debt has no debt cut off; so if
      costs stay below, only an excused one can. */
  lemma CutOffIsExcused(log: Log, depth: nat, mbuffer: nat, k: nat)
    requires Conforms(log, depth, mbuffer) && Solvent(log) && k < |log| && log[k].cost < mbuffer && CutOff(log, mbuffer, k)
    ensures log[k].level < 0 && Excused(log[k])
  {
    assert InOrder(log[k], depth, mbuffer);
  }

  /** No packet of the stretch was excused, and each costs less than `mbuffer`. */
  ghost predicate Ordinary(log: Log, mbuffer: nat, i: nat, j: nat)
    requires j < |log|
  {
    forall k | i <= k <= j :: !Excused(log[k]) && log[k].cost < mbuffer
  }

  /** Without a reset, and up to the lender, the bound always holds and the clamp never fires. */
  lemma OrdinaryIsBounded(log: Log, depth: nat, mbuffer: nat, i: nat, j: nat)
    requires Conforms(log, depth, mbuffer) && Solvent(log) && i <= j < |log| && Ordinary(log, mbuffer, i, j)
    ensures WithinBound(log, depth, i, j)
    ensures forall k | i <= k <= j :: log[k].left == log[k].level - log[k].cost
  {
    forall k | i <= k <= j ensures !CutOff(log, mbuffer, k) && log[k].left == log[k].level - log[k].cost {
      assert InOrder(log[k], depth, mbuffer);
      if CutOff(log, mbuffer, k) {
        CutOffIsExcused(log, depth, mbuffer, k);
      }
    }
    assert InOrder(log[j], depth, mbuffer);
    TrafficBound(log, depth, mbuffer, i, j);
  }

  // ---------- paying ----------

  /** The bucket's tokens at `since`, given its payments: what the last one left, grown with time. */
  predicate Tied(log: Log, depth: nat, mbuffer: nat, tokens: int, since: int) {
    if log == [] then tokens >= depth
    else
      var last := log[|log| - 1];
      last.time <= since && last.left + Min(since - last.time, mbuffer) <= tokens <= last.left + (since - last.time)
  }

  /** Appending a payment made by `Account` keeps the log conforming. */
  lemma PaymentConforms(log: Log, depth: nat, mbuffer: nat, tokens: int, since: int, now: int, cost: nat, pardoned: bool, above: bool)
    requires Conforms(log, depth, mbuffer) && Tied(log, depth, mbuffer, tokens, since) && since <= now
    ensures Conforms(log + [Pays(now, tokens, depth, cost, mbuffer, Min(now - since, mbuffer), pardoned, above)], depth, mbuffer)
  {
    var log' := log + [Pays(now, tokens, depth, cost, mbuffer, Min(now - since, mbuffer), pardoned, above)];
    forall i, j | 0 <= i < j < |log'| && j == i + 1 ensures Follows(log'[i], log'[j], depth, mbuffer) {
      if j < |log| {
        assert Follows(log[i], log[j], depth, mbuffer);
      }
    }
  }

  lemma PaymentSolvent(log: Log, p: Payment)
    requires Solvent(log) && (p.level < 0 ==> Excused(p))
    ensures Solvent(log + [p])
  {
  }
}
