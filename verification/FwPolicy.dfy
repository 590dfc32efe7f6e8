/** What the administrator's rules and the packets seen decide, over whole runs and in terms of the
    requests and packets themselves. */
module FwPolicy {
  import opened Options
  import opened FwTable
  import opened FwRate
  import opened FwDpi
  import opened FwModel
  import opened FwInv
  import opened FwRuns

  // ---------- verdicts ----------

  predicate HasFlag(flags: bv8, flag: bv8) { flags & flag != 0 }

  /** The address lists let the source through. */
  predicate AddressPasses(s: State, src: Ip) {
    src !in s.blockedIps && (s.allowedIps == {} || src in s.allowedIps)
  }

  /** A usable IPv4 packet of a source that the address lists and the rate limit let through. */
  predicate Admitted(s: State, now: real, f: Frame) {
    && f.usable && f.content.Ip4? && AddressPasses(s, f.content.ip.src)
    && |DropExpired(TimesOf(s.tracker, f.content.ip.src), now, s.window)| < s.limit
  }

  /** An admitted TCP or UDP packet whose header was decoded. */
  predicate Transported(s: State, now: real, f: Frame) {
    Admitted(s, now, f) && (f.content.ip.proto == 6 || f.content.ip.proto == 17) && f.content.ip.l4.Some?
  }

  predicate ToBlockedPort(s: State, f: Frame)
    requires f.content.Ip4? && f.content.ip.l4.Some?
  {
    (f.content.ip.l4.value.dstPort, f.content.ip.proto) in s.blockedPorts
  }

  /** The flags of a scan: FIN, PSH and URG together, none, SYN with FIN, SYN with RST, or FIN alone. */
  predicate Scans(flags: bv8) {
    var fin, syn, rst, psh, urg := HasFlag(flags, 1), HasFlag(flags, 2), HasFlag(flags, 4), HasFlag(flags, 8), HasFlag(flags, 32);
    (fin && psh && urg) || flags == 0 || (syn && fin) || (syn && rst) || flags == 1
  }

  lemma FlagsIff(flags: bv8)
    ensures FlagCheck(flags).Scan? || FlagCheck(flags) == Allowed
    ensures FlagCheck(flags).Scan? <==> Scans(flags)
  {
  }

  /** Every verdict, by what was decided before it. */
  lemma VerdictIff(s: State, dpid: nat, now: real, f: Frame)
    requires dpid in s.net
    ensures var v := Check(s, dpid, now, f).verdict;
            && (v == Ignored <==> !f.usable || f.content.Other?)
            && (v == IpBlocked <==> f.usable && f.content.Ip4? && f.content.ip.src in s.blockedIps)
            && (v == NotListed <==> f.usable && f.content.Ip4? && f.content.ip.src !in s.blockedIps
                                    && s.allowedIps != {} && f.content.ip.src !in s.allowedIps)
            && (v == RateLimited <==> f.usable && f.content.Ip4? && AddressPasses(s, f.content.ip.src) && !Admitted(s, now, f))
            && (v == Failed <==> Admitted(s, now, f) && (f.content.ip.proto == 6 || f.content.ip.proto == 17) && f.content.ip.l4.None?)
            && (v == PortBlocked <==> Transported(s, now, f) && ToBlockedPort(s, f))
            && (v.Scan? <==> Transported(s, now, f) && !ToBlockedPort(s, f) && f.content.ip.proto == 6 && Scans(f.content.ip.l4.value.flags))
            && (v == DpiBlocked <==> Transported(s, now, f) && !ToBlockedPort(s, f) && f.content.ip.proto == 6
                                     && !Scans(f.content.ip.l4.value.flags) && EntryAfter(s, f).blocked)
            && (v == ArpSpoof <==> f.usable && f.content.Arp? && f.content.sender in s.arp && s.arp[f.content.sender] != f.content.mac)
  {
    if f.content.Ip4? && f.content.ip.l4.Some? {
      FlagsIff(f.content.ip.l4.value.flags);
    }
  }

  // ---------- blocked ports and addresses ----------

  /** A TCP or UDP packet to a blocked port. */
  predicate SentToBlocked(s: State, a: Step) {
    && a.PacketIn? && a.dpid in s.net && a.frame.usable && CountsForTrust(a.frame)
    && (a.frame.content.ip.l4.value.dstPort, a.frame.content.ip.proto) in s.blockedPorts
  }

  /** It is refused: it changes no flow and no trust rule, and is not forwarded. */
  lemma BlockedPortDoesNothing(s: State, a: Step, d: nat, id: RuleId)
    requires SentToBlocked(s, a)
    ensures Check(s, a.dpid, a.now, a.frame).verdict in {IpBlocked, NotListed, RateLimited, PortBlocked}
    ensures Next(s, a).trust == s.trust && !Installs(s, a)
    ensures IsTrustRule(id) ==> (Holds(Next(s, a), d, id) <==> Holds(s, d, id))
  {
    VerdictIff(s, a.dpid, a.now, a.frame);
    CheckDoes(s, a.dpid, a.now, a.frame);
    if IsTrustRule(id) {
      CheckIsNeutral(s, a.dpid, a.now, a.frame, d, id, RuleKey(id));
    }
  }

  lemma PacketKeepsPolicy(s: State, a: Step)
    requires a.PacketIn? && a.dpid in s.net
    ensures var s' := Next(s, a);
            && s'.blockedPorts == s.blockedPorts && s'.blockedIps == s.blockedIps && s'.allowedIps == s.allowedIps
            && s'.limit == s.limit && s'.window == s.window
  {
    CheckDoes(s, a.dpid, a.now, a.frame);
    if Check(s, a.dpid, a.now, a.frame).verdict == Allowed {
      RouteDoes(Routing(s, a.dpid, a.now, a.frame), a.dpid, a.frame);
    }
  }

  /** Nothing but requests changes the policy. */
  lemma PolicyStep(s: State, a: Step)
    ensures Next(s, a).blockedPorts ==
              if a.BlockPort? && ValidPort(a.port, a.proto) then s.blockedPorts + {(a.port, a.proto)}
              else if a.UnblockPort? && ValidPort(a.port, a.proto) then s.blockedPorts - {(a.port, a.proto)}
              else s.blockedPorts
    ensures Next(s, a).blockedIps ==
              if a.BlockIp? then s.blockedIps + {a.ip} else if a.UnblockIp? then s.blockedIps - {a.ip} else s.blockedIps
    ensures Next(s, a).limit == if a.SetRate? then a.limit else s.limit
    ensures Next(s, a).window == if a.SetRate? then a.window as real else s.window
    ensures Next(s, a).allowedIps == s.allowedIps
  {
    if a.PacketIn? && a.dpid in s.net {
      PacketKeepsPolicy(s, a);
    }
  }

  /** Step `i` asked for the port to be blocked and no step since asked for the contrary. */
  ghost predicate PortBlockedSince(steps: seq<Step>, i: nat, n: nat, port: nat, proto: nat) {
    && i < n <= |steps| && steps[i] == BlockPort(port, proto)
    && forall j | i < j < n :: steps[j] != UnblockPort(port, proto)
  }

  /** The last request about the port was to block it. */
  ghost predicate LastBlocksPort(steps: seq<Step>, n: nat, port: nat, proto: nat) {
    exists i: nat :: PortBlockedSince(steps, i, n, port, proto)
  }

  lemma PortRequestStep(steps: seq<Step>, n: nat, port: nat, proto: nat)
    requires 0 < n <= |steps|
    ensures LastBlocksPort(steps, n, port, proto) <==>
              || steps[n - 1] == BlockPort(port, proto)
              || (steps[n - 1] != UnblockPort(port, proto) && LastBlocksPort(steps, n - 1, port, proto))
  {
    if LastBlocksPort(steps, n, port, proto) {
      var i: nat :| PortBlockedSince(steps, i, n, port, proto);
      if i < n - 1 {
        assert PortBlockedSince(steps, i, n - 1, port, proto);
      }
    }
    if steps[n - 1] == BlockPort(port, proto) {
      assert PortBlockedSince(steps, n - 1, n, port, proto);
    } else if steps[n - 1] != UnblockPort(port, proto) && LastBlocksPort(steps, n - 1, port, proto) {
      var m := n - 1;
      var i: nat :| PortBlockedSince(steps, i, m, port, proto);
      assert PortBlockedSince(steps, i, n, port, proto);
    }
  }

  /** A port is blocked exactly if the last valid request about it was to block it. */
  lemma {:induction false} PortBlockedIff(ss: seq<State>, steps: seq<Step>, n: nat, port: nat, proto: nat)
    requires IsRun(ss, steps) && n < |ss|
    ensures (port, proto) in ss[n].blockedPorts <==>
              0 <= port <= 65535 && (proto == 6 || proto == 17) && LastBlocksPort(steps, n, port, proto)
  {
    if n > 0 {
      PortBlockedIff(ss, steps, n - 1, port, proto);
      assert Taken(ss[n - 1], steps[n - 1], ss[n]);
      PolicyStep(ss[n - 1], steps[n - 1]);
      PortRequestStep(steps, n, port, proto);
    }
  }

  ghost predicate IpBlockedSince(steps: seq<Step>, i: nat, n: nat, ip: Ip) {
    i < n <= |steps| && steps[i] == BlockIp(ip) && forall j | i < j < n :: steps[j] != UnblockIp(ip)
  }

  ghost predicate LastBlocksIp(steps: seq<Step>, n: nat, ip: Ip) {
    exists i: nat :: IpBlockedSince(steps, i, n, ip)
  }

  lemma IpRequestStep(steps: seq<Step>, n: nat, ip: Ip)
    requires 0 < n <= |steps|
    ensures LastBlocksIp(steps, n, ip) <==>
              steps[n - 1] == BlockIp(ip) || (steps[n - 1] != UnblockIp(ip) && LastBlocksIp(steps, n - 1, ip))
  {
    if LastBlocksIp(steps, n, ip) {
      var i: nat :| IpBlockedSince(steps, i, n, ip);
      if i < n - 1 {
        assert IpBlockedSince(steps, i, n - 1, ip);
      }
    }
    if steps[n - 1] == BlockIp(ip) {
      assert IpBlockedSince(steps, n - 1, n, ip);
    } else if steps[n - 1] != UnblockIp(ip) && LastBlocksIp(steps, n - 1, ip) {
      var m := n - 1;
      var i: nat :| IpBlockedSince(steps, i, m, ip);
      assert IpBlockedSince(steps, i, n, ip);
    }
  }

  /** An address is blocked exactly if the last request about it was to block it. */
  lemma {:induction false} IpBlockedIff(ss: seq<State>, steps: seq<Step>, n: nat, ip: Ip)
    requires IsRun(ss, steps) && n < |ss|
    ensures ip in ss[n].blockedIps <==> LastBlocksIp(steps, n, ip)
  {
    if n > 0 {
      IpBlockedIff(ss, steps, n - 1, ip);
      assert Taken(ss[n - 1], steps[n - 1], ss[n]);
      PolicyStep(ss[n - 1], steps[n - 1]);
      IpRequestStep(steps, n, ip);
    }
  }

  lemma PortBlockedBefore(ss: seq<State>, steps: seq<Step>, n: nat, d: nat, proto: nat, src: Endpoint, dst: Endpoint)
    requires IsRun(ss, steps) && 0 < n < |ss| && (dst.port, proto) in ss[n].blockedPorts && Holds(ss[n], d, TrustRule(proto, src, dst))
    requires Holds(ss[n - 1], d, TrustRule(proto, src, dst)) || steps[n - 1].PacketIn?
    ensures (dst.port, proto) in ss[n - 1].blockedPorts
  {
    assert Taken(ss[n - 1], steps[n - 1], ss[n]);
    PolicyStep(ss[n - 1], steps[n - 1]);
    if steps[n - 1] == BlockPort(dst.port, proto) && ValidPort(dst.port, proto) {
      PortFlushLeavesOrphans(ss[n - 1], dst.port, proto, d, src, dst);
    }
  }

  /** A port that is blocked while a rule to it stays has been blocked since the rule was installed. */
  lemma {:induction false} PortBlockedAllAlong(ss: seq<State>, steps: seq<Step>, i: nat, n: nat, d: nat, proto: nat, src: Endpoint, dst: Endpoint)
    requires IsRun(ss, steps) && InstalledAt(ss, steps, i, n, d, TrustRule(proto, src, dst))
    requires (dst.port, proto) in ss[n].blockedPorts
    ensures (dst.port, proto) in ss[i].blockedPorts
    decreases n
  {
    assert Holds(ss[n], d, TrustRule(proto, src, dst));
    assert i < n - 1 ==> Holds(ss[n - 1], d, TrustRule(proto, src, dst));
    PortBlockedBefore(ss, steps, n, d, proto, src, dst);
    if i < n - 1 {
      PortBlockedAllAlong(ss, steps, i, n - 1, d, proto, src, dst);
    }
  }

  /** A rule to a blocked port is only ever the reverse half of a pair, installed by an allowed packet sent
      from that port. */
  lemma BlockedPortRulesAreReplies(ss: seq<State>, steps: seq<Step>, n: nat, d: nat, proto: nat, src: Endpoint, dst: Endpoint) returns (i: nat)
    requires IsRun(ss, steps) && n < |ss| && (proto == TCP || proto == UDP) && Holds(ss[n], d, TrustRule(proto, src, dst))
    requires (dst.port, proto) in ss[n].blockedPorts
    ensures InstalledAt(ss, steps, i, n, d, TrustRule(proto, src, dst))
    ensures var f := steps[i].frame; CountsForTrust(f) && Source(f.content.ip, f.content.ip.l4.value) == dst && src.port != dst.port
  {
    assert IsTrustRule(TrustRule(proto, src, dst));
    i := RuleOrigin(ss, steps, n, d, TrustRule(proto, src, dst));
    PortBlockedAllAlong(ss, steps, i, n, d, proto, src, dst);
    if SentToBlocked(ss[i], steps[i]) {
      BlockedPortDoesNothing(ss[i], steps[i], d, TrustRule(proto, src, dst));
    }
    InstallInRun(ss, steps, i);
  }

  /** What the flushes forget. */
  lemma FlushesForget(s: State, ip: Ip, port: nat, proto: nat, k: Key)
    ensures k in Next(s, BlockIp(ip)).trust <==> k in s.trust && k.a.ip != ip && k.b.ip != ip
    ensures k in Next(s, BlockIp(ip)).trust ==> Next(s, BlockIp(ip)).trust[k] == s.trust[k]
    ensures 0 <= port <= 65535 && (proto == 6 || proto == 17) ==>
              && (k in Next(s, BlockPort(port, proto)).trust <==>
                    k in s.trust && (k.proto != proto || (k.a.port != port && k.b.port != port)))
              && (k in Next(s, BlockPort(port, proto)).trust ==> Next(s, BlockPort(port, proto)).trust[k] == s.trust[k])
  {
  }

  // ---------- counters ----------

  /** The step is a packet from a registered switch with this verdict. */
  predicate Judged(s: State, a: Step, v: Verdict) {
    a.PacketIn? && a.dpid in s.net && Check(s, a.dpid, a.now, a.frame).verdict == v
  }

  predicate JudgedScan(s: State, a: Step) {
    a.PacketIn? && a.dpid in s.net && Check(s, a.dpid, a.now, a.frame).verdict.Scan?
  }

  function One(b: bool): nat { if b then 1 else 0 }

  /** How often each outcome came up in the first `n` steps. */
  function Tally(ss: seq<State>, steps: seq<Step>, n: nat): Stats
    requires n <= |steps| < |ss|
  {
    if n == 0 then Stats(0, 0, 0, 0, 0, 0, 0, 0)
    else Tallied(Tally(ss, steps, n - 1), ss[n - 1], steps[n - 1])
  }

  predicate SameOutcomes(t: Stats, u: Stats) {
    t.allowed == u.allowed && t.blocked == u.blocked && t.rateLimited == u.rateLimited && t.arpSpoof == u.arpSpoof
    && t.scanDetected == u.scanDetected
  }

  /** The counters after a step, as far as outcomes go. */
  function Tallied(t: Stats, s: State, a: Step): Stats {
    t.(allowed := t.allowed + One(Judged(s, a, Allowed)),
       blocked := t.blocked + One(Judged(s, a, IpBlocked) || Judged(s, a, NotListed) || Judged(s, a, PortBlocked)),
       rateLimited := t.rateLimited + One(Judged(s, a, RateLimited)),
       arpSpoof := t.arpSpoof + One(Judged(s, a, ArpSpoof)),
       scanDetected := t.scanDetected + One(JudgedScan(s, a)))
  }

  lemma StepTallies(s: State, a: Step)
    ensures SameOutcomes(Next(s, a).stats, Tallied(s.stats, s, a))
  {
    if a.PacketIn? && a.dpid in s.net {
      PacketTallies(s, a);
    }
  }

  lemma PacketTallies(s: State, a: Step)
    requires a.PacketIn? && a.dpid in s.net
    ensures SameOutcomes(Next(s, a).stats, Tallied(s.stats, s, a))
  {
    CheckTallies(s, a);
    CheckKeepsNet(s, a);
    RouteKeepsOutcomes(Routing(s, a.dpid, a.now, a.frame), a.dpid, a.frame);
  }

  lemma CheckKeepsNet(s: State, a: Step)
    requires a.PacketIn? && a.dpid in s.net
    ensures a.dpid in Routing(s, a.dpid, a.now, a.frame).net
  {
    CheckDoes(s, a.dpid, a.now, a.frame);
  }

  lemma CheckTallies(s: State, a: Step)
    requires a.PacketIn? && a.dpid in s.net
    ensures var c := Check(s, a.dpid, a.now, a.frame);
            SameOutcomes(Noted(c.state, a.dpid, a.frame, c.verdict).stats, Tallied(s.stats, s, a))
  {
    CheckDoes(s, a.dpid, a.now, a.frame);
  }

  lemma RouteKeepsOutcomes(s: State, dpid: nat, f: Frame)
    requires dpid in s.net
    ensures SameOutcomes(Routed(s, dpid, f).stats, s.stats)
  {
    RouteDoes(s, dpid, f);
  }

  /** Every counter counts the packets of its own outcome. */
  lemma {:induction false} CountersTally(ss: seq<State>, steps: seq<Step>, n: nat)
    requires IsRun(ss, steps) && n < |ss|
    ensures SameOutcomes(ss[n].stats, Tally(ss, steps, n))
  {
    if n > 0 {
      CountersTally(ss, steps, n - 1);
      TallyStep(ss, steps, n);
    }
  }

  lemma TallyStep(ss: seq<State>, steps: seq<Step>, n: nat)
    requires IsRun(ss, steps) && 0 < n < |ss| && SameOutcomes(ss[n - 1].stats, Tally(ss, steps, n - 1))
    ensures SameOutcomes(ss[n].stats, Tally(ss, steps, n))
  {
    assert Taken(ss[n - 1], steps[n - 1], ss[n]);
    StepTallies(ss[n - 1], steps[n - 1]);
  }

  // ---------- learned addresses ----------

  /** The step is an ARP packet in which `sender` claims `mac`. */
  predicate Claims(s: State, a: Step, sender: Ip, mac: Mac) {
    a.PacketIn? && a.dpid in s.net && a.frame.usable && a.frame.content == Arp(mac, sender)
  }

  lemma BindingStep(s: State, a: Step, sender: Ip)
    ensures var m := if a.PacketIn? && a.frame.content.Arp? then a.frame.content.mac else 0;
            if a.Handshake? then sender !in Next(s, a).arp
            else if sender in s.arp then sender in Next(s, a).arp && Next(s, a).arp[sender] == s.arp[sender]
            else if Claims(s, a, sender, m) then sender in Next(s, a).arp && Next(s, a).arp[sender] == m
            else sender !in Next(s, a).arp
  {
    if a.PacketIn? && a.dpid in s.net {
      PacketBinds(s, a);
    }
  }

  lemma CheckBinds(s: State, a: Step)
    requires a.PacketIn? && a.dpid in s.net
    ensures Check(s, a.dpid, a.now, a.frame).state.arp ==
              if a.frame.usable && a.frame.content.Arp? && a.frame.content.sender !in s.arp
              then s.arp[a.frame.content.sender := a.frame.content.mac] else s.arp
  {
    CheckDoes(s, a.dpid, a.now, a.frame);
  }

  lemma PacketBinds(s: State, a: Step)
    requires a.PacketIn? && a.dpid in s.net
    ensures Next(s, a).arp ==
              if a.frame.usable && a.frame.content.Arp? && a.frame.content.sender !in s.arp
              then s.arp[a.frame.content.sender := a.frame.content.mac] else s.arp
  {
    CheckBinds(s, a);
    if Check(s, a.dpid, a.now, a.frame).verdict == Allowed {
      RouteDoes(Routing(s, a.dpid, a.now, a.frame), a.dpid, a.frame);
    }
  }

  /** Step `i` was the first claim of `sender` since the last handshake, and it was for `mac`. */
  ghost predicate FirstClaim(ss: seq<State>, steps: seq<Step>, i: nat, n: nat, sender: Ip, mac: Mac) {
    && i < n <= |steps| < |ss| && Claims(ss[i], steps[i], sender, mac) && sender !in ss[i].arp
    && forall j | i < j < n :: !steps[j].Handshake?
  }

  ghost predicate Claimed(ss: seq<State>, steps: seq<Step>, n: nat, sender: Ip, mac: Mac) {
    exists i: nat :: FirstClaim(ss, steps, i, n, sender, mac)
  }

  /** An address is bound exactly to the sender it was first claimed by since the last handshake; so a
      packet counts as spoofed exactly if an earlier one since then claimed another sender first. */
  lemma {:induction false} BindingIsFirstClaim(ss: seq<State>, steps: seq<Step>, n: nat, sender: Ip, mac: Mac)
    requires IsRun(ss, steps) && n < |ss|
    ensures (sender in ss[n].arp && ss[n].arp[sender] == mac) <==> Claimed(ss, steps, n, sender, mac)
  {
    if n > 0 {
      BindingIsFirstClaim(ss, steps, n - 1, sender, mac);
      ClaimStep(ss, steps, n, sender, mac);
    }
  }

  lemma ClaimStep(ss: seq<State>, steps: seq<Step>, n: nat, sender: Ip, mac: Mac)
    requires IsRun(ss, steps) && 0 < n < |ss|
    requires (sender in ss[n - 1].arp && ss[n - 1].arp[sender] == mac) <==> Claimed(ss, steps, n - 1, sender, mac)
    ensures (sender in ss[n].arp && ss[n].arp[sender] == mac) <==> Claimed(ss, steps, n, sender, mac)
  {
    assert Taken(ss[n - 1], steps[n - 1], ss[n]);
    BindingStep(ss[n - 1], steps[n - 1], sender);
    ClaimedStep(ss, steps, n, sender, mac);
  }

  lemma ClaimedStep(ss: seq<State>, steps: seq<Step>, n: nat, sender: Ip, mac: Mac)
    requires 0 < n <= |steps| < |ss|
    ensures Claimed(ss, steps, n, sender, mac) <==>
              || (Claims(ss[n - 1], steps[n - 1], sender, mac) && sender !in ss[n - 1].arp)
              || (!steps[n - 1].Handshake? && Claimed(ss, steps, n - 1, sender, mac))
  {
    if Claimed(ss, steps, n, sender, mac) {
      var i: nat :| FirstClaim(ss, steps, i, n, sender, mac);
      if i < n - 1 {
        assert FirstClaim(ss, steps, i, n - 1, sender, mac);
      }
    }
    if Claims(ss[n - 1], steps[n - 1], sender, mac) && sender !in ss[n - 1].arp {
      assert FirstClaim(ss, steps, n - 1, n, sender, mac);
    } else if !steps[n - 1].Handshake? && Claimed(ss, steps, n - 1, sender, mac) {
      var m := n - 1;
      var i: nat :| FirstClaim(ss, steps, i, m, sender, mac);
      assert FirstClaim(ss, steps, i, n, sender, mac);
    }
  }

  /** The step is a packet seen by switch `d` on `port` from `mac`. */
  predicate Seen(s: State, a: Step, d: nat, mac: Mac, port: nat) {
    && a.PacketIn? && a.dpid == d && d in s.net && a.frame.ethSrc == mac && a.frame.inPort == port
    && !Judged(s, a, Failed) && !Judged(s, a, Ignored)
  }

  ghost predicate SeenAtAll(s: State, a: Step, d: nat, mac: Mac) { exists port :: Seen(s, a, d, mac, port) }

  lemma MacStep(s: State, a: Step, d: nat, mac: Mac)
    ensures MacsOf(Next(s, a).macs, d) == MacsOf(s.macs, d) || (a.PacketIn? && a.dpid == d)
    ensures a.PacketIn? && Seen(s, a, d, mac, a.frame.inPort) ==>
              mac in MacsOf(Next(s, a).macs, d) && MacsOf(Next(s, a).macs, d)[mac] == a.frame.inPort
    ensures !(a.PacketIn? && Seen(s, a, d, mac, a.frame.inPort)) ==>
              && (mac in MacsOf(Next(s, a).macs, d) <==> mac in MacsOf(s.macs, d))
              && (mac in MacsOf(s.macs, d) ==> MacsOf(Next(s, a).macs, d)[mac] == MacsOf(s.macs, d)[mac])
  {
    if a.PacketIn? && a.dpid in s.net {
      PacketLearns(s, a);
    }
  }

  lemma PacketLearns(s: State, a: Step)
    requires a.PacketIn? && a.dpid in s.net
    ensures Next(s, a).macs ==
              if Judged(s, a, Failed) || Judged(s, a, Ignored) then s.macs
              else s.macs[a.dpid := MacsOf(s.macs, a.dpid)[a.frame.ethSrc := a.frame.inPort]]
  {
    CheckDoes(s, a.dpid, a.now, a.frame);
    if Check(s, a.dpid, a.now, a.frame).verdict == Allowed {
      RouteDoes(Routing(s, a.dpid, a.now, a.frame), a.dpid, a.frame);
    }
  }

  /** Step `i` was the last in which switch `d` saw `mac`, on `port`. */
  ghost predicate LastSeen(ss: seq<State>, steps: seq<Step>, i: nat, n: nat, d: nat, mac: Mac, port: nat) {
    && i < n <= |steps| < |ss| && Seen(ss[i], steps[i], d, mac, port)
    && forall j {:trigger SeenAtAll(ss[j], steps[j], d, mac)} | i < j < n :: !SeenAtAll(ss[j], steps[j], d, mac)
  }

  ghost predicate LastPort(ss: seq<State>, steps: seq<Step>, n: nat, d: nat, mac: Mac, port: nat) {
    exists i: nat :: LastSeen(ss, steps, i, n, d, mac, port)
  }

  lemma LastPortStep(ss: seq<State>, steps: seq<Step>, n: nat, d: nat, mac: Mac, port: nat)
    requires 0 < n <= |steps| < |ss|
    ensures LastPort(ss, steps, n, d, mac, port) <==>
              || Seen(ss[n - 1], steps[n - 1], d, mac, port)
              || (!SeenAtAll(ss[n - 1], steps[n - 1], d, mac) && LastPort(ss, steps, n - 1, d, mac, port))
  {
    hide Seen, SeenAtAll;
    if LastPort(ss, steps, n, d, mac, port) {
      var i: nat :| LastSeen(ss, steps, i, n, d, mac, port);
      if i < n - 1 {
        assert !SeenAtAll(ss[n - 1], steps[n - 1], d, mac);
        assert LastSeen(ss, steps, i, n - 1, d, mac, port);
      }
    }
    if Seen(ss[n - 1], steps[n - 1], d, mac, port) {
      assert LastSeen(ss, steps, n - 1, n, d, mac, port);
    } else if !SeenAtAll(ss[n - 1], steps[n - 1], d, mac) && LastPort(ss, steps, n - 1, d, mac, port) {
      var m := n - 1;
      var i: nat :| LastSeen(ss, steps, i, m, d, mac, port);
      assert LastSeen(ss, steps, i, n, d, mac, port);
    }
  }

  lemma LearnStep(ss: seq<State>, steps: seq<Step>, n: nat, d: nat, mac: Mac, port: nat)
    requires IsRun(ss, steps) && 0 < n < |ss|
    requires (mac in MacsOf(ss[n - 1].macs, d) && MacsOf(ss[n - 1].macs, d)[mac] == port) <==> LastPort(ss, steps, n - 1, d, mac, port)
    ensures (mac in MacsOf(ss[n].macs, d) && MacsOf(ss[n].macs, d)[mac] == port) <==> LastPort(ss, steps, n, d, mac, port)
  {
    assert Taken(ss[n - 1], steps[n - 1], ss[n]);
    MacStep(ss[n - 1], steps[n - 1], d, mac);
    LastPortStep(ss, steps, n, d, mac, port);
    if SeenAtAll(ss[n - 1], steps[n - 1], d, mac) {
      assert Seen(ss[n - 1], steps[n - 1], d, mac, steps[n - 1].frame.inPort);
    }
  }

  /** A switch knows for each sender the port on which it was last seen. */
  lemma {:induction false} LearnedIff(ss: seq<State>, steps: seq<Step>, n: nat, d: nat, mac: Mac, port: nat)
    requires IsRun(ss, steps) && n < |ss|
    ensures (mac in MacsOf(ss[n].macs, d) && MacsOf(ss[n].macs, d)[mac] == port) <==> LastPort(ss, steps, n, d, mac, port)
  {
    if n > 0 {
      LearnedIff(ss, steps, n - 1, d, mac, port);
      LearnStep(ss, steps, n, d, mac, port);
    }
  }

  // ---------- what packets do to their switch ----------

  /** A match on the given fields only. */
  function Fields(ethType: Option<nat>, inPort: Option<nat>, ethSrc: Option<Mac>, ethDst: Option<Mac>, ipSrc: Option<Ip>, arpSpa: Option<Ip>): Match {
    Match(ethType, inPort, ethSrc, ethDst, None, ipSrc, None, None, None, arpSpa)
  }

  /** A source over its rate and a spoofed sender get a drop rule for ten idle seconds, a known path of a
      packet that is not IPv4 gets a permanent rule, a flow that earned trust its pair; nothing else
      changes the switch, and no other switch changes. */
  lemma SwitchAfterPacket(s: State, a: Step)
    requires a.PacketIn? && a.dpid in s.net
    ensures var tb, f := s.net[a.dpid], a.frame;
            var known := MacsOf(Next(s, a).macs, a.dpid);
            Next(s, a).net ==
              if Judged(s, a, RateLimited) then
                s.net[a.dpid := tb[RuleId(200, Fields(Some(0x0800), None, None, None, Some(f.content.ip.src), None)) := Rule(Drop, 10, 0)]]
              else if Judged(s, a, ArpSpoof) then
                s.net[a.dpid := tb[RuleId(200, Fields(Some(0x0806), None, None, None, None, Some(f.content.sender))) := Rule(Drop, 10, 0)]]
              else if Judged(s, a, Allowed) && f.content.Arp? && f.ethDst in known then
                s.net[a.dpid := tb[RuleId(1, Fields(None, Some(f.inPort), Some(f.ethSrc), Some(f.ethDst), None, None)) := Rule(Output(known[f.ethDst]), 0, 0)]]
              else if Installs(s, a) then
                s.net[a.dpid := tb[Pair(a).0 := PairRule(f, PortOut(s, a), Pair(a).0)][Pair(a).1 := PairRule(f, PortOut(s, a), Pair(a).1)]]
              else s.net
  {
    VerdictIff(s, a.dpid, a.now, a.frame);
    if Judged(s, a, Allowed) {
      AllowedKeepsNet(s, a);
      RouteNet(Routing(s, a.dpid, a.now, a.frame), a.dpid, a.frame);
      RouteDoes(Routing(s, a.dpid, a.now, a.frame), a.dpid, a.frame);
    } else {
      RefusedNet(s, a);
    }
  }

  lemma AllowedKeepsNet(s: State, a: Step)
    requires Judged(s, a, Allowed)
    ensures Check(s, a.dpid, a.now, a.frame).state.net == s.net && a.frame.usable && !a.frame.content.Other?
  {
  }

  lemma RefusedNet(s: State, a: Step)
    requires a.PacketIn? && a.dpid in s.net && !Judged(s, a, Allowed)
    ensures var tb, f := s.net[a.dpid], a.frame;
            Check(s, a.dpid, a.now, f).state.net ==
              if Judged(s, a, RateLimited) then
                s.net[a.dpid := tb[RuleId(200, Fields(Some(0x0800), None, None, None, Some(f.content.ip.src), None)) := Rule(Drop, 10, 0)]]
              else if Judged(s, a, ArpSpoof) then
                s.net[a.dpid := tb[RuleId(200, Fields(Some(0x0806), None, None, None, None, Some(f.content.sender))) := Rule(Drop, 10, 0)]]
              else s.net
  {
  }

  lemma RouteNet(s: State, dpid: nat, f: Frame)
    requires dpid in s.net
    ensures var tb := s.net[dpid];
            Routed(s, dpid, f).net ==
              if OutPort(s, dpid, f).None? then s.net
              else if !f.content.Ip4? then
                s.net[dpid := tb[RuleId(1, Fields(None, Some(f.inPort), Some(f.ethSrc), Some(f.ethDst), None, None)) := Rule(Output(OutPort(s, dpid, f).value), 0, 0)]]
              else if CountsForTrust(f) && Earns(s, f.content.ip, f.content.ip.l4.value) then
                var a, out := PacketIn(dpid, 0.0, f), OutPort(s, dpid, f).value;
                s.net[dpid := tb[Pair(a).0 := PairRule(f, out, Pair(a).0)][Pair(a).1 := PairRule(f, out, Pair(a).1)]]
              else s.net
  {
    if CountsForTrust(f) && OutPort(s, dpid, f).Some? && Earns(s, f.content.ip, f.content.ip.l4.value) {
      var a, out := PacketIn(dpid, 0.0, f), OutPort(s, dpid, f).value;
      var tb := s.net[dpid];
      assert tb[Pair(a).0 := PairRule(f, out, Pair(a).0)][Pair(a).1 := PairRule(f, out, Pair(a).1)]
          == tb[Pair(a).0 := Rule(Output(out), 60, 300)][Pair(a).1 := Rule(Output(f.inPort), 60, 300)];
    }
  }

  // ---------- where trusted packets go ----------

  lemma PortOutIsLearned(s: State, a: Step)
    requires Installs(s, a)
    ensures a.frame.ethDst in MacsOf(Next(s, a).macs, a.dpid) && MacsOf(Next(s, a).macs, a.dpid)[a.frame.ethDst] == PortOut(s, a)
  {
    RouteDoes(Routing(s, a.dpid, a.now, a.frame), a.dpid, a.frame);
  }

  /** Every trust rule on a switch, in every run: packets in the direction of the packet that installed it
      leave by the port on which its destination was last seen then, replies by the port it came from; and
      it expires after 60 seconds of idleness or 300 in all.  Between equal endpoints the two rules are one,
      for replies. */
  lemma TrustRulesForward(ss: seq<State>, steps: seq<Step>, n: nat, d: nat, proto: nat, src: Endpoint, dst: Endpoint) returns (i: nat, out: nat)
    requires IsRun(ss, steps) && n < |ss| && (proto == TCP || proto == UDP) && Holds(ss[n], d, TrustRule(proto, src, dst))
    ensures InstalledAt(ss, steps, i, n, d, TrustRule(proto, src, dst))
    ensures var f := steps[i].frame;
            && CountsForTrust(f) && f.content.ip.proto == proto && LastPort(ss, steps, i + 1, d, f.ethDst, out)
            && var from, to := Source(f.content.ip, f.content.ip.l4.value), Destination(f.content.ip, f.content.ip.l4.value);
               && ((from == src && to == dst) || (from == dst && to == src))
               && ss[n].net[d][TrustRule(proto, src, dst)] == Rule(Output(if from == src && src != dst then out else f.inPort), 60, 300)
  {
    hide LastPort;
    var id := TrustRule(proto, src, dst);
    assert IsTrustRule(id);
    i := RuleOrigin(ss, steps, n, d, id);
    out := PortOut(ss[i], steps[i]);
    assert Taken(ss[i], steps[i], ss[i + 1]);
    PortOutIsLearned(ss[i], steps[i]);
    LearnedIff(ss, steps, i + 1, d, steps[i].frame.ethDst, out);
    assert ss[n].net[d][id] == PairRule(steps[i].frame, out, id);
  }

  /** A packet that a trust rule decides has the addresses and ports of the rule's flow. */
  lemma TrustedPacketMatches(tb: Table, proto: nat, src: Endpoint, dst: Endpoint, h: Match)
    requires Decides(tb, TrustRule(proto, src, dst), h)
    ensures h.ethType == Some(0x0800) && h.ipProto == Some(proto)
    ensures h.ipSrc == Some(src.ip) && h.ipDst == Some(dst.ip) && h.l4Src == Some(src.port) && h.l4Dst == Some(dst.port)
  {
  }

  // ---------- earning trust ----------

  /** The step is a packet of flow `k` that passed all checks and whose way is known. */
  predicate Vouches(s: State, a: Step, k: Key) {
    && a.PacketIn? && a.dpid in s.net && CountsForTrust(a.frame) && FrameKey(a.frame) == k && Judged(s, a, Allowed)
    && OutPort(Routing(s, a.dpid, a.now, a.frame), a.dpid, a.frame).Some?
  }

  /** How many such packets came since the flow got the entry it has after `n` steps. */
  function Vouchers(ss: seq<State>, steps: seq<Step>, n: nat, k: Key): nat
    requires n <= |steps| < |ss|
  {
    if n == 0 || k !in ss[n].trust then 0 else Vouchers(ss, steps, n - 1, k) + One(Vouches(ss[n - 1], steps[n - 1], k))
  }

  /** The checks alone do not count a packet. */
  lemma CheckEarnsNothing(s: State, a: Step, k: Key)
    requires a.PacketIn? && a.dpid in s.net
    ensures var e, e' := EntryOf(s.trust, k), EntryOf(Check(s, a.dpid, a.now, a.frame).state.trust, k);
            e'.count == e.count && e'.installed == e.installed
  {
    CheckDoes(s, a.dpid, a.now, a.frame);
  }

  lemma PacketEarns(s: State, a: Step, k: Key)
    requires a.PacketIn? && a.dpid in s.net && (EntryOf(s.trust, k).installed <==> EntryOf(s.trust, k).count >= 5)
    ensures var c := EntryOf(s.trust, k).count;
            && EntryOf(Next(s, a).trust, k).count == (if Vouches(s, a, k) && c < 5 then c + 1 else c)
            && (Vouches(s, a, k) ==> k in Next(s, a).trust && (Installs(s, a) <==> c == 4))
  {
    hide Check;
    CheckEarnsNothing(s, a, k);
    CheckKeepsNet(s, a);
    if Check(s, a.dpid, a.now, a.frame).verdict == Allowed {
      RouteTrusts(Routing(s, a.dpid, a.now, a.frame), a.dpid, a.frame);
    }
  }

  lemma EarnStep(s: State, a: Step, k: Key)
    requires TrustInv(s)
    ensures var c := EntryOf(s.trust, k).count;
            && (k in Next(s, a).trust ==> Next(s, a).trust[k].count == if Vouches(s, a, k) && c < 5 then c + 1 else c)
            && (Vouches(s, a, k) ==> k in Next(s, a).trust && (Installs(s, a) <==> c == 4))
  {
    if k in s.trust {
      assert EntryInv(s.patterns, k, s.trust[k]);
    }
    if a.PacketIn? && a.dpid in s.net {
      PacketEarns(s, a, k);
    }
  }

  /** A flow counts the allowed packets since its entry came up, as far as five, and is trusted exactly from
      the fifth on. */
  lemma {:induction false} TrustIsEarned(ss: seq<State>, steps: seq<Step>, n: nat, k: Key)
    requires IsRun(ss, steps) && n < |ss| && k in ss[n].trust
    ensures ss[n].trust[k].count == if Vouchers(ss, steps, n, k) < 5 then Vouchers(ss, steps, n, k) else 5
    ensures ss[n].trust[k].installed <==> Vouchers(ss, steps, n, k) >= 5
  {
    AlwaysInv(ss, steps, n);
    assert EntryInv(ss[n].patterns, k, ss[n].trust[k]);
    if n > 0 {
      AlwaysInv(ss, steps, n - 1);
      assert Taken(ss[n - 1], steps[n - 1], ss[n]);
      EarnStep(ss[n - 1], steps[n - 1], k);
      if k in ss[n - 1].trust {
        TrustIsEarned(ss, steps, n - 1, k);
      }
    }
  }

  /** The packet that installs a flow's rules is the fifth. */
  lemma FifthInstalls(ss: seq<State>, steps: seq<Step>, i: nat, k: Key)
    requires IsRun(ss, steps) && i < |steps| && Vouches(ss[i], steps[i], k)
    ensures k in ss[i + 1].trust && (Installs(ss[i], steps[i]) <==> Vouchers(ss, steps, i + 1, k) == 5)
  {
    assert Taken(ss[i], steps[i], ss[i + 1]);
    AlwaysInv(ss, steps, i);
    EarnStep(ss[i], steps[i], k);
    if k in ss[i].trust {
      TrustIsEarned(ss, steps, i, k);
    }
  }

  // ---------- the registry over a run ----------

  /** A request that may bring in pattern `p`. */
  ghost predicate Brings(a: Step, p: Pattern) {
    && a.AddPattern? && a.req.name == p.name && a.req.compiled == Some(p.compiled) && p.enabled && !p.builtin
    && 0 < |p.name| <= 64 && !a.req.blank && a.req.length <= 512 && !a.req.dangerous
    && forall i | 0 <= i < |p.name| :: var c := p.name[i]; 'A' <= c <= 'Z' || 'a' <= c <= 'z' || '0' <= c <= '9' || c in "_-"
  }

  lemma PacketKeepsPatterns(s: State, a: Step)
    requires a.PacketIn? && a.dpid in s.net
    ensures Next(s, a).patterns == s.patterns
  {
    hide Check;
    CheckDoes(s, a.dpid, a.now, a.frame);
    CheckKeepsNet(s, a);
    RouteDoes(Routing(s, a.dpid, a.now, a.frame), a.dpid, a.frame);
  }

  lemma PatternStep(s: State, a: Step, p: Pattern)
    requires RegistryInv(s.patterns)
    ensures p in Next(s, a).patterns && p !in s.patterns ==> Brings(a, p)
    ensures p in s.patterns && p !in Next(s, a).patterns ==> !p.builtin && a == RemovePattern(p.name)
  {
    match a
    case PacketIn(d, now, f) =>
      if d in s.net {
        PacketKeepsPatterns(s, a);
      }
    case RemovePattern(name) =>
      UnnamedRemoves(s.patterns, name);
    case _ =>
  }

  /** In every run, a pattern that was not there from the start came in by an acceptable request, and
      built-in patterns never go. */
  lemma {:induction false} PatternsAreRequested(ss: seq<State>, steps: seq<Step>, n: nat, p: Pattern)
    requires IsRun(ss, steps) && n < |ss|
    ensures p in ss[n].patterns && p !in ss[0].patterns ==> exists i :: 0 <= i < n && Brings(steps[i], p)
    ensures p in ss[0].patterns && p.builtin ==> p in ss[n].patterns
  {
    if n > 0 {
      PatternsAreRequested(ss, steps, n - 1, p);
      AlwaysInv(ss, steps, n - 1);
      assert Taken(ss[n - 1], steps[n - 1], ss[n]);
      PatternStep(ss[n - 1], steps[n - 1], p);
    }
  }
}
