/** Safety over whole runs of the firewall: where trust rules come from, what backs them, and what
    blocking an address achieves. */
module FwRuns {
  import opened Options
  import opened FwTable
  import opened FwDpi
  import opened FwModel
  import opened FwInv

  ghost predicate Holds(s: State, d: nat, id: RuleId) {
    d in s.net && id in s.net[d]
  }

  /** The step puts rule `id` on switch `d`. */
  predicate InstallsRule(s: State, a: Step, d: nat, id: RuleId) {
    Installs(s, a) && a.dpid == d && (id == Pair(a).0 || id == Pair(a).1)
  }

  predicate Trusted(s: State, k: Key) {
    k in s.trust && s.trust[k].installed
  }

  // ---------- single steps ----------

  /** The checks change no trust rule and no flow's trust. */
  lemma CheckIsNeutral(s: State, dpid: nat, now: real, f: Frame, d: nat, id: RuleId, k: Key)
    requires dpid in s.net
    ensures id.priority == TRUST_PRIORITY ==>
              && (Holds(Check(s, dpid, now, f).state, d, id) <==> Holds(s, d, id))
              && (Holds(s, d, id) ==> Check(s, dpid, now, f).state.net[d][id] == s.net[d][id])
    ensures Trusted(Check(s, dpid, now, f).state, k) <==> Trusted(s, k)
  {
    CheckDoes(s, dpid, now, f);
  }

  /** The port by which the controller forwards the packet of an installing step. */
  function PortOut(s: State, a: Step): nat
    requires Installs(s, a)
  {
    OutPort(Routing(s, a.dpid, a.now, a.frame), a.dpid, a.frame).value
  }

  lemma PacketOrigin(s: State, dpid: nat, now: real, f: Frame, d: nat, id: RuleId)
    requires dpid in s.net && IsTrustRule(id) && Holds(Received(s, dpid, now, f), d, id)
    ensures var a, r := PacketIn(dpid, now, f), Received(s, dpid, now, f).net[d][id];
            if InstallsRule(s, a, d, id) then r == PairRule(f, PortOut(s, a), id)
            else Holds(s, d, id) && r == s.net[d][id]
  {
    var r := Check(s, dpid, now, f);
    CheckIsNeutral(s, dpid, now, f, d, id, RuleKey(id));
    if r.verdict == Allowed {
      var s1 := Routing(s, dpid, now, f);
      RouteDoes(s1, dpid, f);
      if d == dpid {
        RouteAdds(s1, dpid, f, id);
      }
    }
  }

  /** A trust rule was there before the step and is as it was, or the step installed it. */
  lemma StepOrigin(s: State, a: Step, d: nat, id: RuleId)
    requires IsTrustRule(id) && Holds(Next(s, a), d, id)
    ensures if InstallsRule(s, a, d, id) then Next(s, a).net[d][id] == PairRule(a.frame, PortOut(s, a), id)
            else Holds(s, d, id) && Next(s, a).net[d][id] == s.net[d][id]
  {
    if a.PacketIn? && a.dpid in s.net {
      PacketOrigin(s, a.dpid, a.now, a.frame, d, id);
    }
  }

  lemma PairKeys(a: Step)
    requires a.PacketIn? && CountsForTrust(a.frame)
    ensures RuleKey(Pair(a).0) == FrameKey(a.frame) && RuleKey(Pair(a).1) == FrameKey(a.frame)
  {
    var ip, seg := a.frame.content.ip, a.frame.content.ip.l4.value;
    KeyIsSymmetric(ip.proto, Source(ip, seg), Destination(ip, seg));
  }

  lemma InstallTrusts(s: State, a: Step)
    requires Installs(s, a)
    ensures Trusted(Next(s, a), FrameKey(a.frame))
    ensures a.frame.content.ip.proto == TCP ==> !Next(s, a).trust[FrameKey(a.frame)].blocked
    ensures Next(s, a).patterns == s.patterns && Arrives(s, a.frame)
  {
    CheckDoes(s, a.dpid, a.now, a.frame);
    var s1 := Routing(s, a.dpid, a.now, a.frame);
    RouteTrusts(s1, a.dpid, a.frame);
    RouteDoes(s1, a.dpid, a.frame);
  }

  /** An installing packet makes its flow trusted, and a TCP flow is then unblocked and clean. */
  lemma InstallDoes(s: State, a: Step)
    requires Inv(s) && Installs(s, a)
    ensures Trusted(Next(s, a), FrameKey(a.frame))
    ensures a.frame.content.ip.proto == TCP ==> !Next(s, a).trust[FrameKey(a.frame)].blocked
    ensures EntryInv(Next(s, a).patterns, FrameKey(a.frame), Next(s, a).trust[FrameKey(a.frame)])
    ensures Next(s, a).patterns == s.patterns
    ensures Arrives(s, a.frame)
  {
    InstallTrusts(s, a);
    StepKeepsInv(s, a);
  }

  lemma PacketKeepsTrusted(s: State, dpid: nat, now: real, f: Frame, k: Key)
    requires dpid in s.net && Trusted(s, k)
    ensures Trusted(Received(s, dpid, now, f), k)
  {
    var r := Check(s, dpid, now, f);
    CheckDoes(s, dpid, now, f);
    if r.verdict == Allowed {
      RouteTrusts(Routing(s, dpid, now, f), dpid, f);
    }
  }

  /** A trusted flow stays trusted until it is forgotten. */
  lemma TrustedOrForgotten(s: State, a: Step, k: Key)
    requires Trusted(s, k)
    ensures Trusted(Next(s, a), k) || k !in Next(s, a).trust
  {
    if a.PacketIn? && a.dpid in s.net {
      PacketKeepsTrusted(s, a.dpid, a.now, a.frame, k);
    }
  }

  /** While a rule stays on its switch, its flow stays trusted, unless the step blocks the port the
      rule's packets come from. */
  lemma BackingStep(s: State, a: Step, d: nat, proto: nat, src: Endpoint, dst: Endpoint)
    requires Holds(s, d, TrustRule(proto, src, dst)) && Holds(Next(s, a), d, TrustRule(proto, src, dst))
    requires Trusted(s, TrustKey(proto, src, dst))
    ensures Trusted(Next(s, a), TrustKey(proto, src, dst)) || a == BlockPort(src.port, proto)
  {
    if a.PacketIn? && a.dpid in s.net {
      PacketKeepsTrusted(s, a.dpid, a.now, a.frame, TrustKey(proto, src, dst));
    } else if a.BlockIp? {
      FlushedTrustRules(s.net[d], proto, src, dst, a.ip, 0, 0);
    } else if a.BlockPort? && ValidPort(a.port, a.proto) {
      FlushedTrustRules(s.net[d], proto, src, dst, 0, a.port, a.proto);
    } else if a.AddPattern? && Acceptable(s.patterns, a.req) {
      FlushedTrustRules(s.net[d], proto, src, dst, 0, 0, 0);
    }
  }

  /** A port flush forgets a flow by either of its ports but deletes only rules to that port: the rule
      for packets from the port stays behind without its flow. */
  lemma PortFlushLeavesOrphans(s: State, port: nat, proto: nat, d: nat, src: Endpoint, dst: Endpoint)
    requires ValidPort(port, proto) && Holds(s, d, TrustRule(proto, src, dst))
    ensures var s' := Next(s, BlockPort(port, proto));
            && (Holds(s', d, TrustRule(proto, src, dst)) <==> dst.port != port)
            && (TrustKey(proto, src, dst) in s'.trust <==> TrustKey(proto, src, dst) in s.trust && dst.port != port && src.port != port)
  {
    FlushedTrustRules(s.net[d], proto, src, dst, 0, port, proto);
  }

  // ---------- provenance ----------

  /** Rule `id` was put on switch `d` by step `i` and has been there, the same, ever since. */
  ghost predicate InstalledAt(ss: seq<State>, steps: seq<Step>, i: nat, n: nat, d: nat, id: RuleId) {
    && i < n < |ss| && |ss| == |steps| + 1
    && InstallsRule(ss[i], steps[i], d, id)
    && forall j {:trigger ss[j]} | i < j <= n ::
         Holds(ss[j], d, id) && ss[j].net[d][id] == PairRule(steps[i].frame, PortOut(ss[i], steps[i]), id)
  }

  /** Every trust rule on a switch was put there by an allowed packet and has not left since. */
  lemma {:induction false} RuleOrigin(ss: seq<State>, steps: seq<Step>, n: nat, d: nat, id: RuleId) returns (i: nat)
    requires IsRun(ss, steps) && n < |ss| && IsTrustRule(id) && Holds(ss[n], d, id)
    ensures InstalledAt(ss, steps, i, n, d, id)
    decreases n
  {
    assert n > 0;
    assert Taken(ss[n - 1], steps[n - 1], ss[n]);
    StepOrigin(ss[n - 1], steps[n - 1], d, id);
    if InstallsRule(ss[n - 1], steps[n - 1], d, id) {
      i := n - 1;
    } else {
      i := RuleOrigin(ss, steps, n - 1, d, id);
    }
  }

  /** The step is a successful pattern addition. */
  predicate AddsPattern(s: State, a: Step) {
    a.AddPattern? && Acceptable(s.patterns, a.req)
  }

  lemma InstallInRun(ss: seq<State>, steps: seq<Step>, i: nat)
    requires IsRun(ss, steps) && i < |steps| && Installs(ss[i], steps[i])
    ensures var k := FrameKey(steps[i].frame);
            && Trusted(ss[i + 1], k) && EntryInv(ss[i + 1].patterns, k, ss[i + 1].trust[k])
            && (k.proto == TCP ==> !ss[i + 1].trust[k].blocked)
    ensures Arrives(ss[i], steps[i].frame) && !AddsPattern(ss[i], steps[i])
    ensures RuleKey(Pair(steps[i]).0) == FrameKey(steps[i].frame) && RuleKey(Pair(steps[i]).1) == FrameKey(steps[i].frame)
  {
    AlwaysInv(ss, steps, i);
    assert Taken(ss[i], steps[i], ss[i + 1]);
    InstallDoes(ss[i], steps[i]);
    PairKeys(steps[i]);
  }

  lemma NoAdditionWhileHeld(ss: seq<State>, steps: seq<Step>, j: nat, d: nat, id: RuleId)
    requires IsRun(ss, steps) && j < |steps| && IsTrustRule(id) && Holds(ss[j], d, id) && Holds(ss[j + 1], d, id)
    ensures !AddsPattern(ss[j], steps[j])
  {
    assert Taken(ss[j], steps[j], ss[j + 1]);
    if AddsPattern(ss[j], steps[j]) {
      AdditionRemovesRules(ss[j], steps[j], d, id);
    }
  }

  lemma AdditionRemovesRules(s: State, a: Step, d: nat, id: RuleId)
    requires AddsPattern(s, a) && IsTrustRule(id) && d in s.net
    ensures !Holds(Next(s, a), d, id)
  {
    var proto, src, dst :| (proto == TCP || proto == UDP) && id == TrustRule(proto, src, dst);
    FlushedTrustRules(s.net[d], proto, src, dst, 0, 0, 0);
  }

  lemma PatternsOnlyLeave(s: State, a: Step)
    requires !AddsPattern(s, a)
    ensures Among(Next(s, a).patterns, s.patterns)
  {
    if a.PacketIn? && a.dpid in s.net {
      var r := Check(s, a.dpid, a.now, a.frame);
      CheckDoes(s, a.dpid, a.now, a.frame);
      if r.verdict == Allowed {
        RouteDoes(Routing(s, a.dpid, a.now, a.frame), a.dpid, a.frame);
      }
      assert Next(s, a).patterns == s.patterns;
    } else if a.RemovePattern? && Removable(s.patterns, a.name) {
      UnnamedRemoves(s.patterns, a.name);
    }
  }

  lemma {:induction false} PatternsShrink(ss: seq<State>, steps: seq<Step>, i: nat, n: nat)
    requires IsRun(ss, steps) && i <= n < |ss|
    requires forall j | i <= j < n :: !AddsPattern(ss[j], steps[j])
    ensures Among(ss[n].patterns, ss[i].patterns)
    decreases n
  {
    if i < n {
      PatternsShrink(ss, steps, i, n - 1);
      assert Taken(ss[n - 1], steps[n - 1], ss[n]);
      PatternsOnlyLeave(ss[n - 1], steps[n - 1]);
    }
  }

  /** No signature is newer than any trust rule: since the rule was installed no pattern was added;
      and when a TCP rule was installed, its flow was unblocked and both its buffers were clean under a
      superset of today's patterns. */
  lemma TrustRulesAreFresh(ss: seq<State>, steps: seq<Step>, n: nat, d: nat, id: RuleId) returns (i: nat)
    requires IsRun(ss, steps) && n < |ss| && IsTrustRule(id) && Holds(ss[n], d, id)
    ensures InstalledAt(ss, steps, i, n, d, id)
    ensures forall j | i <= j < n :: !AddsPattern(ss[j], steps[j])
    ensures Among(ss[n].patterns, ss[i + 1].patterns)
    ensures Trusted(ss[i + 1], RuleKey(id))
    ensures RuleKey(id).proto == TCP ==>
              && !ss[i + 1].trust[RuleKey(id)].blocked
              && Clean(ss[i + 1].patterns, ss[i + 1].trust[RuleKey(id)])
              && Clean(ss[n].patterns, ss[i + 1].trust[RuleKey(id)])
  {
    i := RuleOrigin(ss, steps, n, d, id);
    InstallInRun(ss, steps, i);
    forall j | i < j < n ensures !AddsPattern(ss[j], steps[j]) {
      assert Holds(ss[j], d, id) && Holds(ss[j + 1], d, id);
      NoAdditionWhileHeld(ss, steps, j, d, id);
    }
    PatternsShrink(ss, steps, i + 1, n);
    RemovalKeepsClean(ss[i + 1].patterns, ss[n].patterns, ss[i + 1].trust[RuleKey(id)]);
  }

  /** The step installs flow `k`. */
  predicate InstallsKey(s: State, a: Step, k: Key) {
    Installs(s, a) && FrameKey(a.frame) == k
  }

  lemma PacketTrusts(s: State, dpid: nat, now: real, f: Frame, k: Key)
    requires dpid in s.net && !Trusted(s, k) && Trusted(Received(s, dpid, now, f), k)
    ensures InstallsKey(s, PacketIn(dpid, now, f), k)
  {
    CheckIsNeutral(s, dpid, now, f, dpid, IPV4_RULE, k);
    if Check(s, dpid, now, f).verdict == Allowed {
      RouteTrusts(Routing(s, dpid, now, f), dpid, f);
    }
  }

  /** Trust arises only by an installation. */
  lemma TrustArises(s: State, a: Step, k: Key)
    requires !Trusted(s, k) && Trusted(Next(s, a), k)
    ensures InstallsKey(s, a, k)
  {
    if a.PacketIn? && a.dpid in s.net {
      PacketTrusts(s, a.dpid, a.now, a.frame, k);
    }
  }

  /** Step `j` blocked the port that packets of the flow come from, and the flow was not installed since. */
  ghost predicate OrphanedAt(ss: seq<State>, steps: seq<Step>, j: nat, n: nat, proto: nat, src: Endpoint, k: Key) {
    && j < n <= |steps| < |ss| && steps[j] == BlockPort(src.port, proto) && ValidPort(src.port, proto)
    && forall l {:trigger InstallsKey(ss[l], steps[l], k)} | j < l < n :: !InstallsKey(ss[l], steps[l], k)
  }

  ghost predicate Orphaned(ss: seq<State>, steps: seq<Step>, i: nat, n: nat, proto: nat, src: Endpoint, k: Key) {
    exists j: nat :: i < j && OrphanedAt(ss, steps, j, n, proto, src, k)
  }

  /** What one step does to the trust behind a rule that stays on its switch. */
  lemma BackingInRun(ss: seq<State>, steps: seq<Step>, n: nat, d: nat, proto: nat, src: Endpoint, dst: Endpoint)
    requires IsRun(ss, steps) && 0 < n < |ss|
    requires Holds(ss[n - 1], d, TrustRule(proto, src, dst)) && Holds(ss[n], d, TrustRule(proto, src, dst))
    ensures var k, a := TrustKey(proto, src, dst), steps[n - 1];
            if InstallsKey(ss[n - 1], a, k) then Trusted(ss[n], k)
            else if a == BlockPort(src.port, proto) && ValidPort(src.port, proto) then !Trusted(ss[n], k)
            else Trusted(ss[n], k) <==> Trusted(ss[n - 1], k)
  {
    var k, s, a := TrustKey(proto, src, dst), ss[n - 1], steps[n - 1];
    assert Taken(s, a, ss[n]);
    if InstallsKey(s, a, k) {
      InstallTrusts(s, a);
    } else if a == BlockPort(src.port, proto) && ValidPort(src.port, proto) {
      PortFlushLeavesOrphans(s, src.port, proto, d, src, dst);
    } else if Trusted(s, k) {
      BackingStep(s, a, d, proto, src, dst);
    } else if Trusted(ss[n], k) {
      TrustArises(s, a, k);
    }
  }

  lemma OrphanStep(ss: seq<State>, steps: seq<Step>, i: nat, n: nat, proto: nat, src: Endpoint, k: Key)
    requires |ss| == |steps| + 1 && i + 1 < n < |ss|
    ensures Orphaned(ss, steps, i, n, proto, src, k) <==>
              && !InstallsKey(ss[n - 1], steps[n - 1], k)
              && ((steps[n - 1] == BlockPort(src.port, proto) && ValidPort(src.port, proto)) || Orphaned(ss, steps, i, n - 1, proto, src, k))
  {
    if Orphaned(ss, steps, i, n, proto, src, k) {
      var j: nat :| i < j && OrphanedAt(ss, steps, j, n, proto, src, k);
      if j < n - 1 {
        assert OrphanedAt(ss, steps, j, n - 1, proto, src, k);
      }
    }
    if !InstallsKey(ss[n - 1], steps[n - 1], k) {
      if steps[n - 1] == BlockPort(src.port, proto) && ValidPort(src.port, proto) {
        assert OrphanedAt(ss, steps, n - 1, n, proto, src, k);
      } else if Orphaned(ss, steps, i, n - 1, proto, src, k) {
        var j: nat :| i < j && OrphanedAt(ss, steps, j, n - 1, proto, src, k);
        assert OrphanedAt(ss, steps, j, n, proto, src, k);
      }
    }
  }

  /** The flow of a trust rule is trusted exactly if it was not orphaned: since the rule was installed, the
      port its packets come from was not blocked without the flow being installed again. */
  lemma {:induction false} TrustRulesAreBackedIff(ss: seq<State>, steps: seq<Step>, i: nat, n: nat, d: nat, proto: nat, src: Endpoint, dst: Endpoint)
    requires IsRun(ss, steps) && InstalledAt(ss, steps, i, n, d, TrustRule(proto, src, dst))
    ensures Trusted(ss[n], TrustKey(proto, src, dst)) <==> !Orphaned(ss, steps, i, n, proto, src, TrustKey(proto, src, dst))
    decreases n
  {
    if i == n - 1 {
      InstallInRun(ss, steps, i);
      assert RuleKey(TrustRule(proto, src, dst)) == TrustKey(proto, src, dst);
    } else {
      assert Holds(ss[n - 1], d, TrustRule(proto, src, dst)) && Holds(ss[n], d, TrustRule(proto, src, dst));
      TrustRulesAreBackedIff(ss, steps, i, n - 1, d, proto, src, dst);
      BackingInRun(ss, steps, n, d, proto, src, dst);
      OrphanStep(ss, steps, i, n, proto, src, TrustKey(proto, src, dst));
    }
  }

  predicate FlowBlocked(s: State, k: Key) {
    k in s.trust && s.trust[k].blocked
  }

  /** A blocked flow stays blocked until it is forgotten. */
  lemma BlockedOrForgotten(s: State, a: Step, k: Key)
    requires FlowBlocked(s, k)
    ensures FlowBlocked(Next(s, a), k) || k !in Next(s, a).trust
  {
    if a.PacketIn? && a.dpid in s.net {
      CheckDoes(s, a.dpid, a.now, a.frame);
      if Check(s, a.dpid, a.now, a.frame).verdict == Allowed {
        RouteTrusts(Routing(s, a.dpid, a.now, a.frame), a.dpid, a.frame);
      }
    }
  }

  lemma EntryStep(ss: seq<State>, steps: seq<Step>, n: nat, k: Key)
    requires IsRun(ss, steps) && 0 < n < |ss| && k in ss[n].trust
    ensures Trusted(ss[n - 1], k) ==> Trusted(ss[n], k)
    ensures FlowBlocked(ss[n - 1], k) ==> FlowBlocked(ss[n], k)
  {
    assert Taken(ss[n - 1], steps[n - 1], ss[n]);
    if Trusted(ss[n - 1], k) {
      TrustedOrForgotten(ss[n - 1], steps[n - 1], k);
    }
    if FlowBlocked(ss[n - 1], k) {
      BlockedOrForgotten(ss[n - 1], steps[n - 1], k);
    }
  }

  /** The flow keeps its entry after state `i` up to state `n`. */
  ghost predicate Remembered(ss: seq<State>, i: nat, n: nat, k: Key) {
    n < |ss| && forall j {:trigger ss[j]} | i < j <= n :: k in ss[j].trust
  }

  lemma {:induction false} TrustedWhileKept(ss: seq<State>, steps: seq<Step>, i: nat, n: nat, k: Key)
    requires IsRun(ss, steps) && i <= n && Remembered(ss, i, n, k) && Trusted(ss[i], k)
    ensures Trusted(ss[n], k)
    decreases n
  {
    if i < n {
      TrustedWhileKept(ss, steps, i, n - 1, k);
      EntryStep(ss, steps, n, k);
    }
  }

  lemma TrustedDoesNotInstall(s: State, a: Step)
    requires a.PacketIn? && CountsForTrust(a.frame) && Trusted(s, FrameKey(a.frame))
    ensures !Installs(s, a)
  {
    if a.dpid in s.net {
      CheckDoes(s, a.dpid, a.now, a.frame);
    }
  }

  /** A flow installs one pair of rules in its lifetime: between two installations its entry was
      removed. */
  lemma InstallsOnce(ss: seq<State>, steps: seq<Step>, i: nat, j: nat, k: Key)
    requires IsRun(ss, steps) && i < j < |steps| && Installs(ss[i], steps[i]) && Installs(ss[j], steps[j])
    requires FrameKey(steps[i].frame) == k && FrameKey(steps[j].frame) == k
    ensures exists l :: i < l <= j && k !in ss[l].trust
  {
    InstallInRun(ss, steps, i);
    if Remembered(ss, i, j, k) {
      TrustedWhileKept(ss, steps, i + 1, j, k);
      TrustedDoesNotInstall(ss[j], steps[j]);
    }
  }

  // ---------- blocked addresses ----------

  /** Right after an address is blocked no switch holds a trust rule to or from it. */
  lemma BlockingIsComplete(s: State, ip: Ip, d: nat, proto: nat, src: Endpoint, dst: Endpoint)
    requires Holds(Next(s, BlockIp(ip)), d, TrustRule(proto, src, dst))
    ensures src.ip != ip && dst.ip != ip
  {
    FlushedTrustRules(s.net[d], proto, src, dst, ip, 0, 0);
  }

  /** A packet from a blocked address is refused: it changes no flow and no rule, and is not forwarded. */
  lemma BlockedSourceDoesNothing(s: State, a: Step)
    requires a.PacketIn? && a.dpid in s.net && a.frame.usable && a.frame.content.Ip4? && a.frame.content.ip.src in s.blockedIps
    ensures Check(s, a.dpid, a.now, a.frame).verdict == IpBlocked
    ensures Next(s, a).net == s.net && Next(s, a).trust == s.trust && Next(s, a).tracker == s.tracker
    ensures Next(s, a).stats == s.stats.(total := s.stats.total + 1, blocked := s.stats.blocked + 1)
  {
  }

  lemma BlockedUnchangedBy(s: State, a: Step, ip: Ip)
    requires ip in Next(s, a).blockedIps
    ensures ip in s.blockedIps || a == BlockIp(ip)
  {
    if a.PacketIn? && a.dpid in s.net {
      CheckDoes(s, a.dpid, a.now, a.frame);
      if Check(s, a.dpid, a.now, a.frame).verdict == Allowed {
        RouteDoes(Routing(s, a.dpid, a.now, a.frame), a.dpid, a.frame);
      }
    }
  }

  /** An address that is blocked while a rule from it stays has been blocked all the time since the rule
      was installed. */
  lemma {:induction false} BlockedSince(ss: seq<State>, steps: seq<Step>, i: nat, n: nat, d: nat, proto: nat, src: Endpoint, dst: Endpoint)
    requires IsRun(ss, steps) && InstalledAt(ss, steps, i, n, d, TrustRule(proto, src, dst))
    requires src.ip in ss[n].blockedIps
    ensures src.ip in ss[i].blockedIps
    decreases n
  {
    assert Taken(ss[n - 1], steps[n - 1], ss[n]);
    assert Holds(ss[n], d, TrustRule(proto, src, dst));
    BlockedUnchangedBy(ss[n - 1], steps[n - 1], src.ip);
    if steps[n - 1] == BlockIp(src.ip) {
      BlockingIsComplete(ss[n - 1], src.ip, d, proto, src, dst);
    }
    if i < n - 1 {
      BlockedSince(ss, steps, i, n - 1, d, proto, src, dst);
    }
  }

  /** A rule from a blocked address is only ever the reverse half of a pair, installed by an allowed
      packet sent to that address. */
  lemma BlockedRulesAreReplies(ss: seq<State>, steps: seq<Step>, n: nat, d: nat, proto: nat, src: Endpoint, dst: Endpoint) returns (i: nat)
    requires IsRun(ss, steps) && n < |ss| && (proto == TCP || proto == UDP) && Holds(ss[n], d, TrustRule(proto, src, dst))
    requires src.ip in ss[n].blockedIps
    ensures InstalledAt(ss, steps, i, n, d, TrustRule(proto, src, dst))
    ensures Arrives(ss[i], steps[i].frame) && steps[i].frame.content.ip.dst == src.ip && steps[i].frame.content.ip.src == dst.ip != src.ip
  {
    assert IsTrustRule(TrustRule(proto, src, dst));
    i := RuleOrigin(ss, steps, n, d, TrustRule(proto, src, dst));
    BlockedSince(ss, steps, i, n, d, proto, src, dst);
    InstallInRun(ss, steps, i);
  }

  // ---------- IPv4 under control ----------

  /** In every state of every run, on every registered switch, some rule decides each IPv4 packet, and
      it is the rule to the controller or a trust rule. */
  lemma Ipv4AlwaysControlled(ss: seq<State>, steps: seq<Step>, n: nat, d: nat, h: Match)
    requires IsRun(ss, steps) && n < |ss| && d in ss[n].net && h.ethType == Some(IPV4)
    ensures exists id :: Decides(ss[n].net[d], id, h)
    ensures forall id | Decides(ss[n].net[d], id, h) ::
              (id == IPV4_RULE && ss[n].net[d][id].action == ToController) || IsTrustRule(id)
  {
    AlwaysInv(ss, steps, n);
    var id := Ipv4IsDecided(ss[n].net[d], h);
    forall id | Decides(ss[n].net[d], id, h) ensures (id == IPV4_RULE && ss[n].net[d][id].action == ToController) || IsTrustRule(id) {
      Ipv4IsControlled(ss[n].net[d], id, h);
    }
  }

  // ---------- blocked flows ----------

  /** A blocked flow refuses every packet that reaches inspection, in either direction. */
  lemma BlockedFlowRefuses(s: State, a: Step)
    requires a.PacketIn? && a.dpid in s.net && ReachesDpi(s, a.now, a.frame) && FlowBlocked(s, FrameKey(a.frame))
    ensures Check(s, a.dpid, a.now, a.frame).verdict == DpiBlocked
    ensures Next(s, a).trust == s.trust && !Installs(s, a)
  {
    CheckDoes(s, a.dpid, a.now, a.frame);
    var k := FrameKey(a.frame);
    assert EntryAfter(s, a.frame) == s.trust[k];
    assert s.trust[k := s.trust[k]] == s.trust;
  }

  /** A blocked flow stays blocked as long as its entry is kept. */
  lemma {:induction false} BlockedWhileKept(ss: seq<State>, steps: seq<Step>, i: nat, n: nat, k: Key)
    requires IsRun(ss, steps) && i <= n && Remembered(ss, i, n, k) && FlowBlocked(ss[i], k)
    ensures FlowBlocked(ss[n], k)
    decreases n
  {
    if i < n {
      BlockedWhileKept(ss, steps, i, n - 1, k);
      EntryStep(ss, steps, n, k);
    }
  }
}
