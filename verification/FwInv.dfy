/** What every step of the firewall keeps. */
module FwInv {
  import opened FwTable
  import opened FwRate
  import opened FwDpi
  import opened FwModel

  // ---------- what the checks do ----------

  /** The packet gets past the address checks and is counted against its sender's rate. */
  predicate Arrives(s: State, f: Frame) {
    f.usable && f.content.Ip4? && IpCheck(s, f.content.ip.src) == Allowed
  }

  predicate WithinRate(s: State, now: real, f: Frame)
    requires f.content.Ip4?
  {
    Passes(TimesOf(s.tracker, f.content.ip.src), now, s.limit, s.window)
  }

  /** The packet gets as far as payload inspection. */
  predicate ReachesDpi(s: State, now: real, f: Frame) {
    && Arrives(s, f) && WithinRate(s, now, f)
    && f.content.ip.proto == TCP && f.content.ip.l4.Some?
    && PortCheck(s, f.content.ip.l4.value.dstPort, TCP) == Allowed
    && FlagCheck(f.content.ip.l4.value.flags) == Allowed
  }

  function FrameKey(f: Frame): Key
    requires CountsForTrust(f)
  {
    FlowKey(f.content.ip, f.content.ip.l4.value)
  }

  /** The entry of the packet's flow after inspection. */
  function EntryAfter(s: State, f: Frame): Entry
    requires CountsForTrust(f)
  {
    var seg := f.content.ip.l4.value;
    Inspected(s.patterns, EntryOf(s.trust, FrameKey(f)), Source(f.content.ip, seg) == FrameKey(f).a, seg.payload)
  }

  /** At most a drop rule of priority 200 was added to one switch. */
  ghost predicate DropRuleAdded(net: map<nat, Table>, net': map<nat, Table>, dpid: nat) {
    || net' == net
    || (dpid in net && exists id: RuleId :: (IsRateDrop(id) || IsArpDrop(id)) && net' == net[dpid := net[dpid][id := Rule(Drop, 10, 0)]])
  }

  /** All that the checks change, and when. */
  ghost predicate CheckEffect(s: State, dpid: nat, now: real, f: Frame, r: Checked) {
    && r.state == s.(net := r.state.net, arp := r.state.arp, tracker := r.state.tracker, trust := r.state.trust,
                     stats := s.stats.(dpiBlocked := r.state.stats.dpiBlocked))
    && DropRuleAdded(s.net, r.state.net, dpid)
    && r.state.tracker == (if Arrives(s, f)
                           then s.tracker[f.content.ip.src := Track(TimesOf(s.tracker, f.content.ip.src), now, s.limit, s.window)]
                           else s.tracker)
    && r.state.trust == (if ReachesDpi(s, now, f) then s.trust[FrameKey(f) := EntryAfter(s, f)] else s.trust)
    && (r.verdict == DpiBlocked <==> ReachesDpi(s, now, f) && EntryAfter(s, f).blocked)
    && r.state.stats.dpiBlocked == s.stats.dpiBlocked
         + (if r.verdict == DpiBlocked && !EntryOf(s.trust, FrameKey(f)).blocked then 1 else 0)
    && (f.content.Ip4? && r.verdict == Allowed ==> Arrives(s, f) && WithinRate(s, now, f))
    && (f.content.Ip4? && f.content.ip.proto == TCP && r.verdict == Allowed ==> ReachesDpi(s, now, f))
  }

  lemma ArrivalDoes(s: State, dpid: nat, now: real, f: Frame)
    requires dpid in s.net && Arrives(s, f)
    ensures CheckEffect(s, dpid, now, f, Check(s, dpid, now, f))
  {
    var r1 := RateCheck(s, dpid, f.content.ip.src, now);
    if r1.verdict == Allowed {
      assert Check(s, dpid, now, f) == TransportCheck(r1.state, f.content.ip);
    } else {
      assert IsRateDrop(RateDropRule(f.content.ip.src));
    }
  }

  lemma CheckDoes(s: State, dpid: nat, now: real, f: Frame)
    requires dpid in s.net
    ensures CheckEffect(s, dpid, now, f, Check(s, dpid, now, f))
  {
    if Arrives(s, f) {
      ArrivalDoes(s, dpid, now, f);
    } else if f.usable && f.content.Arp? {
      assert IsArpDrop(ArpDropRule(f.content.sender));
    }
  }

  // ---------- installing trust ----------

  /** The state in which an allowed packet is routed. */
  function Routing(s: State, dpid: nat, now: real, f: Frame): State
    requires dpid in s.net
  {
    Noted(Check(s, dpid, now, f).state, dpid, f, Allowed)
  }

  /** The packet is allowed and makes its flow trusted. */
  predicate Installs(s: State, a: Step) {
    && a.PacketIn? && a.dpid in s.net && CountsForTrust(a.frame)
    && Check(s, a.dpid, a.now, a.frame).verdict == Allowed
    && OutPort(Routing(s, a.dpid, a.now, a.frame), a.dpid, a.frame).Some?
    && Earns(Routing(s, a.dpid, a.now, a.frame), a.frame.content.ip, a.frame.content.ip.l4.value)
  }

  /** The pair of rules an installing packet puts on its switch. */
  function Pair(a: Step): (RuleId, RuleId)
    requires a.PacketIn? && CountsForTrust(a.frame)
  {
    var ip, seg := a.frame.content.ip, a.frame.content.ip.l4.value;
    (TrustRule(ip.proto, Source(ip, seg), Destination(ip, seg)), TrustRule(ip.proto, Destination(ip, seg), Source(ip, seg)))
  }

  /** The flow a trust rule belongs to. */
  function RuleKey(id: RuleId): Key {
    var m := id.fields;
    if m.ipProto.Some? && m.ipSrc.Some? && m.ipDst.Some? && m.l4Src.Some? && m.l4Dst.Some?
    then TrustKey(m.ipProto.value, Endpoint(m.ipSrc.value, m.l4Src.value), Endpoint(m.ipDst.value, m.l4Dst.value))
    else Key(0, Endpoint(0, 0), Endpoint(0, 0))
  }

  /** Forwarding an allowed packet: what it does to the switches and to trust. */
  ghost predicate RouteEffect(s: State, dpid: nat, f: Frame, s': State)
    requires dpid in s.net
  {
    && s' == s.(net := s'.net, trust := s'.trust, stats := s.stats.(trustInstalled := s'.stats.trustInstalled))
    && s'.net.Keys == s.net.Keys
    && (forall d | d in s.net && d != dpid :: s'.net[d] == s.net[d])
    && (forall id {:trigger id in s.net[dpid]} {:trigger s.net[dpid][id]} | id in s.net[dpid] && id.priority > 1 ::
          id in s'.net[dpid] && (id.priority < TRUST_PRIORITY ==> s'.net[dpid][id] == s.net[dpid][id]))
  }

  lemma RouteDoes(s: State, dpid: nat, f: Frame)
    requires dpid in s.net
    ensures RouteEffect(s, dpid, f, Routed(s, dpid, f))
  {
  }

  /** What it does to the flow's own entry. */
  lemma RouteTrusts(s: State, dpid: nat, f: Frame)
    requires dpid in s.net
    ensures var s' := Routed(s, dpid, f);
            if !CountsForTrust(f) || OutPort(s, dpid, f).None? then
              s'.trust == s.trust && s'.stats == s.stats
            else
              var e := EntryOf(s.trust, FrameKey(f));
              if e.installed then s' == s
              else
                && s'.trust == s.trust[FrameKey(f) := e.(count := e.count + 1, installed := e.count + 1 >= TRUST_K)]
                && s'.stats == s.stats.(trustInstalled := s.stats.trustInstalled + if e.count + 1 >= TRUST_K then 1 else 0)
  {
  }

  /** Forwarding the packet makes its flow trusted, and `id` is one of the two rules. */
  predicate Pairs(s: State, dpid: nat, f: Frame, id: RuleId) {
    && CountsForTrust(f) && OutPort(s, dpid, f).Some? && Earns(s, f.content.ip, f.content.ip.l4.value)
    && (id == Pair(PacketIn(dpid, 0.0, f)).0 || id == Pair(PacketIn(dpid, 0.0, f)).1)
  }

  /** What the two rules do: packets in the direction of the installing one leave by the port it left by,
      replies by the port it came from. */
  function PairRule(f: Frame, out: nat, id: RuleId): Rule
    requires CountsForTrust(f)
  {
    Rule(Output(if id == Pair(PacketIn(0, 0.0, f)).1 then f.inPort else out), 60, 300)
  }

  /** Which rules it adds or replaces. */
  lemma RouteAdds(s: State, dpid: nat, f: Frame, id: RuleId)
    requires dpid in s.net && id in Routed(s, dpid, f).net[dpid]
    ensures var r := Routed(s, dpid, f).net[dpid][id];
            || (id in s.net[dpid] && r == s.net[dpid][id] && !Pairs(s, dpid, f, id))
            || (IsPathRule(id) && r.action.Output? && r.idle == 0 && r.hard == 0)
            || (Pairs(s, dpid, f, id) && r == PairRule(f, OutPort(s, dpid, f).value, id))
  {
    if OutPort(s, dpid, f).Some? && !f.content.Ip4? {
      assert IsPathRule(PathRule(f.inPort, f.ethSrc, f.ethDst));
    }
  }

  // ---------- the invariant ----------

  ghost predicate NetInv(net: map<nat, Table>) {
    forall d {:trigger net[d]} | d in net :: TableInv(net[d])
  }

  predicate EntryInv(ps: seq<Pattern>, k: Key, e: Entry) {
    && Clean(ps, e)
    && e.count <= TRUST_K && (e.installed <==> e.count == TRUST_K)
    && (k.proto == TCP || k.proto == UDP) && AtMost(k.a, k.b)
  }

  ghost predicate TrustInv(s: State) {
    forall k {:trigger s.trust[k]} | k in s.trust :: EntryInv(s.patterns, k, s.trust[k])
  }

  function InstalledKeys(trust: map<Key, Entry>): set<Key> {
    set k | k in trust && trust[k].installed
  }

  /** In every reachable state: each registered switch sends IPv4 to the controller or along trust
      rules; unblocked flows are clean; a flow is installed exactly when it has earned full trust;
      pattern names are unique; and no more flows are installed than were counted. */
  ghost predicate Inv(s: State) {
    && NetInv(s.net) && TrustInv(s) && RegistryInv(s.patterns)
    && |InstalledKeys(s.trust)| <= s.stats.trustInstalled
  }

  lemma InitialInv(s: State)
    requires Initial(s)
    ensures Inv(s)
  {
    assert InstalledKeys(s.trust) == {};
  }

  lemma DropRuleKeepsTables(net: map<nat, Table>, net': map<nat, Table>, dpid: nat)
    requires NetInv(net) && DropRuleAdded(net, net', dpid)
    ensures NetInv(net')
  {
  }

  lemma EntryAfterInv(s: State, f: Frame)
    requires TrustInv(s) && CountsForTrust(f)
    ensures EntryInv(s.patterns, FrameKey(f), EntryAfter(s, f))
    ensures EntryAfter(s, f).installed == EntryOf(s.trust, FrameKey(f)).installed
  {
    var e := EntryOf(s.trust, FrameKey(f));
    assert EntryInv(s.patterns, FrameKey(f), e);
    InspectionKeepsClean(s.patterns, e, Source(f.content.ip, f.content.ip.l4.value) == FrameKey(f).a, f.content.ip.l4.value.payload);
  }

  lemma CheckKeepsInv(s: State, dpid: nat, now: real, f: Frame)
    requires Inv(s) && dpid in s.net
    ensures Inv(Check(s, dpid, now, f).state)
  {
    var r := Check(s, dpid, now, f);
    CheckDoes(s, dpid, now, f);
    DropRuleKeepsTables(s.net, r.state.net, dpid);
    if ReachesDpi(s, now, f) {
      EntryAfterInv(s, f);
      assert InstalledKeys(r.state.trust) == InstalledKeys(s.trust);
    }
  }

  lemma PairIsKnown(a: Step)
    requires a.PacketIn? && CountsForTrust(a.frame)
    ensures IsTrustRule(Pair(a).0) && IsTrustRule(Pair(a).1)
  {
    var ip, seg := a.frame.content.ip, a.frame.content.ip.l4.value;
    assert Pair(a).0 == TrustRule(ip.proto, Source(ip, seg), Destination(ip, seg));
    assert Pair(a).1 == TrustRule(ip.proto, Destination(ip, seg), Source(ip, seg));
  }

  lemma RouteKeepsTables(s: State, dpid: nat, f: Frame)
    requires NetInv(s.net) && dpid in s.net
    ensures NetInv(Routed(s, dpid, f).net)
  {
    var s' := Routed(s, dpid, f);
    RouteDoes(s, dpid, f);
    forall d | d in s'.net ensures TableInv(s'.net[d]) {
      assert TableInv(s.net[d]);
      if d == dpid {
        forall id | id in s'.net[d] ensures KnownRule(id, s'.net[d][id]) {
          RouteAdds(s, dpid, f, id);
          if CountsForTrust(f) { PairIsKnown(PacketIn(dpid, 0.0, f)); }
        }
      }
    }
  }

  lemma RouteKeepsTrust(s: State, dpid: nat, f: Frame)
    requires TrustInv(s) && dpid in s.net && |InstalledKeys(s.trust)| <= s.stats.trustInstalled
    ensures var s' := Routed(s, dpid, f); TrustInv(s') && |InstalledKeys(s'.trust)| <= s'.stats.trustInstalled
  {
    var s' := Routed(s, dpid, f);
    RouteTrusts(s, dpid, f);
    RouteDoes(s, dpid, f);
    if CountsForTrust(f) && OutPort(s, dpid, f).Some? {
      var k := FrameKey(f);
      assert EntryInv(s.patterns, k, EntryOf(s.trust, k));
      if !EntryOf(s.trust, k).installed {
        if s'.trust[k].installed {
          assert InstalledKeys(s'.trust) == InstalledKeys(s.trust) + {k};
        } else {
          assert InstalledKeys(s'.trust) == InstalledKeys(s.trust);
        }
      }
    }
  }

  lemma ReceivedKeepsInv(s: State, dpid: nat, now: real, f: Frame)
    requires Inv(s) && dpid in s.net
    ensures Inv(Received(s, dpid, now, f))
  {
    var r := Check(s, dpid, now, f);
    CheckKeepsInv(s, dpid, now, f);
    var s1 := Noted(r.state, dpid, f, r.verdict);
    if r.verdict == Allowed {
      assert TrustInv(s1);
      RouteKeepsTables(s1, dpid, f);
      RouteKeepsTrust(s1, dpid, f);
      RouteDoes(s1, dpid, f);
    }
  }

  lemma {:induction false} FewerInstalled(trust: map<Key, Entry>, trust': map<Key, Entry>)
    requires forall k | k in trust' :: k in trust && trust'[k] == trust[k]
    ensures |InstalledKeys(trust')| <= |InstalledKeys(trust)|
  {
    var a, b := InstalledKeys(trust'), InstalledKeys(trust);
    assert b == a + (b - a);
  }

  lemma FlushKeepsInv(s: State, ip: Ip, port: nat, proto: nat)
    requires Inv(s)
    ensures Inv(FlushedIp(s, ip)) && Inv(FlushedPort(s, port, proto))
  {
    forall d | d in s.net ensures TableInv(WithoutIp(s.net[d], ip)) && TableInv(WithoutPort(s.net[d], port, proto)) {
      FlushesKeepTables(s.net[d], ip, port, proto);
    }
    FewerInstalled(s.trust, FlushedIp(s, ip).trust);
    FewerInstalled(s.trust, FlushedPort(s, port, proto).trust);
  }

  lemma AddPatternKeepsInv(s: State, req: PatternRequest)
    requires Inv(s) && Acceptable(s.patterns, req)
    ensures Inv(Next(s, AddPattern(req)))
  {
    forall d | d in s.net ensures TableInv(WithoutTrust(s.net[d])) {
      FlushesKeepTables(s.net[d], 0, 0, 0);
    }
    var p := Pattern(req.name, req.compiled.value, true, false);
    assert (s.patterns + [p])[..|s.patterns|] == s.patterns;
    forall q | q in s.patterns ensures q.name != p.name {
    }
    DistinctAppend(s.patterns, p);
    assert InstalledKeys(map[]) == {};
  }

  lemma RemovalKeepsTrust(s: State, ps: seq<Pattern>)
    requires TrustInv(s) && Among(ps, s.patterns)
    ensures TrustInv(s.(patterns := ps))
  {
    forall k | k in s.trust ensures EntryInv(ps, k, s.trust[k]) {
      assert EntryInv(s.patterns, k, s.trust[k]);
      RemovalKeepsClean(s.patterns, ps, s.trust[k]);
    }
  }

  lemma RemovePatternKeepsInv(s: State, name: string)
    requires Inv(s)
    ensures Inv(Next(s, RemovePattern(name)))
  {
    RemovalKeepsRegistry(s.patterns, name);
    RemovalKeepsTrust(s, Unnamed(s.patterns, name));
  }

  lemma GreetingKeepsInv(s: State, d: nat)
    requires Inv(s)
    ensures Inv(Greeted(s, d))
  {
  }

  lemma ExpiryKeepsInv(s: State, d: nat, id: RuleId)
    requires Inv(s)
    ensures Inv(Next(s, Expire(d, id)))
  {
    if d in s.net && CanExpire(s.net[d], id) {
      assert TableInv(s.net[d]);
    }
  }

  /** Every step keeps the invariant. */
  lemma StepKeepsInv(s: State, a: Step)
    requires Inv(s)
    ensures Inv(Next(s, a))
  {
    match a
    case Handshake(d) => GreetingKeepsInv(s, d);
    case PacketIn(d, now, f) => if d in s.net { ReceivedKeepsInv(s, d, now, f); }
    case BlockIp(ip) => FlushKeepsInv(s.(blockedIps := s.blockedIps + {ip}), ip, 0, 0);
    case UnblockIp(ip) =>
    case BlockPort(port, proto) =>
      if ValidPort(port, proto) { FlushKeepsInv(s.(blockedPorts := s.blockedPorts + {(port, proto)}), 0, port, proto); }
    case UnblockPort(port, proto) =>
    case SetRate(limit, window) =>
    case AddPattern(req) => if Acceptable(s.patterns, req) { AddPatternKeepsInv(s, req); }
    case RemovePattern(name) => RemovePatternKeepsInv(s, name);
    case Expire(d, id) => ExpiryKeepsInv(s, d, id);
  }

  /** The invariant holds in every state of every run. */
  lemma {:induction false} AlwaysInv(ss: seq<State>, steps: seq<Step>, n: nat)
    requires IsRun(ss, steps) && n < |ss|
    ensures Inv(ss[n])
  {
    if n == 0 {
      InitialInv(ss[0]);
    } else {
      AlwaysInv(ss, steps, n - 1);
      assert Taken(ss[n - 1], steps[n - 1], ss[n]);
      StepKeepsInv(ss[n - 1], steps[n - 1]);
    }
  }
}
