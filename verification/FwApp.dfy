/** The controller application: its tables and counters, updated in place by the handlers.  Every
    handler is proved to take the step of the model that it stands for. */
module FwApp {
  import opened Options
  import opened FwTable
  import opened FwRate
  import opened FwDpi
  import opened FwModel

  class FirewallApp {
    /** The registered switches, each with the rules the messages sent to it have made. */
    var net: map<nat, Table>
    var macs: map<nat, map<Mac, nat>>
    var arp: map<Ip, Mac>
    var blockedIps: set<Ip>
    var blockedPorts: set<(nat, nat)>
    var allowedIps: set<Ip>
    var tracker: map<Ip, seq<real>>
    var limit: int
    var window: real
    var trust: map<Key, Entry>
    var stats: Stats
    const dpi: DpiEngine

    ghost function View(): State
      reads this, dpi
    {
      State(net, macs, arp, blockedIps, blockedPorts, allowedIps, tracker, limit, window, trust, dpi.patterns, stats)
    }

    constructor (engine: DpiEngine)
      requires RegistryInv(engine.patterns)
      ensures dpi == engine && Initial(View()) && limit == 1000 && window == 1.0 && allowedIps == {}
    {
      dpi := engine;
      net, macs, arp := map[], map[], map[];
      blockedIps, blockedPorts, allowedIps := {}, {}, {};
      tracker, limit, window := map[], 1000, 1.0;
      trust := map[];
      stats := Stats(0, 0, 0, 0, 0, 0, 0, 0);
    }

    method AddFlow(dpid: nat, id: RuleId, rule: Rule)
      requires dpid in net
      modifies `net
      ensures View() == WithRule(old(View()), dpid, id, rule)
    {
      net := net[dpid := net[dpid][id := rule]];
    }

    // ---------- checks ----------

    method CheckIpBlock(src: Ip) returns (v: Verdict)
      ensures v == IpCheck(View(), src)
    {
      if src in blockedIps {
        return IpBlocked;
      }
      if allowedIps != {} && src !in allowedIps {
        return NotListed;
      }
      v := Allowed;
    }

    /** Pops the times that left the window. */
    method PopExpired(times0: seq<real>, now: real) returns (times: seq<real>)
      ensures times == DropExpired(times0, now, window)
    {
      times := times0;
      while times != [] && now - times[0] >= window
        invariant DropExpired(times, now, window) == DropExpired(times0, now, window)
        decreases |times|
      {
        times := times[1..];
      }
    }

    method CheckIpRateLimit(dpid: nat, src: Ip, now: real) returns (v: Verdict)
      requires dpid in net
      modifies `tracker, `net
      ensures Checked(View(), v) == RateCheck(old(View()), dpid, src, now)
    {
      if src !in tracker {
        tracker := tracker[src := []];
      }
      var times := PopExpired(tracker[src], now);
      tracker := tracker[src := times];
      if |times| >= limit {
        assert times + [] == times;
        AddFlow(dpid, RateDropRule(src), Rule(Drop, 10, 0));
        return RateLimited;
      }
      tracker := tracker[src := times + [now]];
      v := Allowed;
    }

    method CheckPortBlock(port: nat, proto: nat) returns (v: Verdict)
      ensures v == PortCheck(View(), port, proto)
    {
      v := if (port, proto) in blockedPorts then PortBlocked else Allowed;
    }

    method CheckArpSpoof(dpid: nat, mac: Mac, src: Ip) returns (v: Verdict)
      requires dpid in net
      modifies `arp, `net
      ensures Checked(View(), v) == ArpCheck(old(View()), dpid, mac, src)
    {
      v := Allowed;
      if src !in arp {
        arp := arp[src := mac];
      } else if arp[src] != mac {
        AddFlow(dpid, ArpDropRule(src), Rule(Drop, 10, 0));
        v := ArpSpoof;
      }
    }

    method EntryFor(key: Key) returns (e: Entry)
      modifies `trust
      ensures trust == old(trust)[key := e] && e == EntryOf(old(trust), key)
    {
      if key !in trust {
        trust := trust[key := NewEntry];
      }
      e := trust[key];
      assert key in old(trust) ==> old(trust)[key := e] == old(trust);
    }

    method Fill(buf0: Bytes, payload: Bytes) returns (buf: Bytes)
      ensures buf == Filled(buf0, payload)
    {
      buf := buf0;
      var room := MAX_BUFFER - |buf|;
      if room > 0 {
        buf := buf + if room < |payload| then payload[..room] else payload;
      }
    }

    method CheckDpi(ip: Ipv4, seg: Transport) returns (v: Verdict)
      modifies `trust, `stats
      ensures Checked(View(), v) == DpiCheck(old(View()), ip, seg)
    {
      hide FlowKey, EntryOf, Filled, Flagged, Source;
      var key := FlowKey(ip, seg);
      var e := EntryFor(key);
      if e.blocked {
        return DpiBlocked;
      }
      if seg.payload == [] {
        return Allowed;
      }
      var forward := Source(ip, seg) == key.a;
      var buf := Fill(if forward then e.bufA else e.bufB, seg.payload);
      e := if forward then e.(bufA := buf) else e.(bufB := buf);
      var hit := dpi.Inspect(buf);
      v := Allowed;
      if hit.Some? {
        e := e.(blocked := true);
        stats := stats.(dpiBlocked := stats.dpiBlocked + 1);
        v := DpiBlocked;
      }
      trust := trust[key := e];
    }

    method TcpHandler(ip: Ipv4, seg: Transport) returns (v: Verdict)
      modifies `trust, `stats
      ensures Checked(View(), v) == TcpCheck(old(View()), ip, seg)
    {
      v := CheckPortBlock(seg.dstPort, TCP);
      if v != Allowed {
        return;
      }
      v := FlagCheck(seg.flags);
      if v != Allowed {
        return;
      }
      v := CheckDpi(ip, seg);
    }

    method TransportHandler(ip: Ipv4) returns (v: Verdict)
      modifies `trust, `stats
      ensures Checked(View(), v) == TransportCheck(old(View()), ip)
    {
      if ip.proto != TCP && ip.proto != UDP {
        return Allowed;
      }
      if ip.l4.None? {
        return Failed;
      }
      if ip.proto == TCP {
        v := TcpHandler(ip, ip.l4.value);
      } else {
        v := CheckPortBlock(ip.l4.value.dstPort, UDP);
      }
    }

    method Ipv4Handler(dpid: nat, now: real, ip: Ipv4) returns (v: Verdict)
      requires dpid in net
      modifies `tracker, `net, `trust, `stats
      ensures Checked(View(), v) == Ipv4Check(old(View()), dpid, now, ip)
    {
      v := CheckIpBlock(ip.src);
      if v != Allowed {
        return;
      }
      v := CheckIpRateLimit(dpid, ip.src, now);
      if v != Allowed {
        return;
      }
      v := TransportHandler(ip);
    }

    method Filter(dpid: nat, now: real, f: Frame) returns (v: Verdict)
      requires dpid in net
      modifies `tracker, `net, `trust, `stats, `arp
      ensures Checked(View(), v) == Check(old(View()), dpid, now, f)
    {
      if !f.usable {
        return Ignored;
      }
      match f.content {
        case Ip4(ip) => v := Ipv4Handler(dpid, now, ip);
        case Arp(mac, src) => v := CheckArpSpoof(dpid, mac, src);
        case Other => v := Ignored;
      }
    }

    // ---------- trust ----------

    method InstallTrustFlow(dpid: nat, ip: Ipv4, seg: Transport, inPort: nat, outPort: nat)
      requires dpid in net
      modifies `net
      ensures View() == Installed(old(View()), dpid, ip, seg, inPort, outPort)
    {
      AddFlow(dpid, TrustRule(ip.proto, Source(ip, seg), Destination(ip, seg)), Rule(Output(outPort), TRUST_IDLE, TRUST_HARD));
      AddFlow(dpid, TrustRule(ip.proto, Destination(ip, seg), Source(ip, seg)), Rule(Output(inPort), TRUST_IDLE, TRUST_HARD));
    }

    method RecordTrustOf(dpid: nat, ip: Ipv4, seg: Transport, inPort: nat, outPort: nat)
      requires dpid in net && (ip.proto == TCP || ip.proto == UDP)
      modifies `net, `trust, `stats
      ensures View() == RecordTrust(old(View()), dpid, ip, seg, inPort, outPort)
    {
      var key := FlowKey(ip, seg);
      var e := EntryFor(key);
      if e.installed {
        return;
      }
      trust := trust[key := e.(count := e.count + 1)];
      if trust[key].count < TRUST_K {
        return;
      }
      InstallTrustFlow(dpid, ip, seg, inPort, outPort);
      trust := trust[key := trust[key].(installed := true)];
      stats := stats.(trustInstalled := stats.trustInstalled + 1);
    }

    // ---------- messages from the switches ----------

    method HandshakeHandler(dpid: nat)
      modifies `net, `arp
      ensures View() == Next(old(View()), Handshake(dpid))
    {
      if dpid !in net {
        net := net[dpid := map[]];
      }
      arp := map[];
      AddFlow(dpid, MISS_RULE, CONTROLLER);
      AddFlow(dpid, IPV4_RULE, CONTROLLER);
    }

    method ApplyResult(v: Verdict)
      modifies `stats
      ensures stats == Counted(old(stats), v)
    {
      match v {
        case Allowed => stats := stats.(allowed := stats.allowed + 1);
        case IpBlocked => stats := stats.(blocked := stats.blocked + 1);
        case NotListed => stats := stats.(blocked := stats.blocked + 1);
        case PortBlocked => stats := stats.(blocked := stats.blocked + 1);
        case RateLimited => stats := stats.(rateLimited := stats.rateLimited + 1);
        case ArpSpoof => stats := stats.(arpSpoof := stats.arpSpoof + 1);
        case Scan(_) => stats := stats.(scanDetected := stats.scanDetected + 1);
        case DpiBlocked =>
        case Failed =>
        case Ignored =>
      }
    }

    /** Forwards an allowed packet; `out` is the port it leaves by, None for all. */
    method Forward(dpid: nat, f: Frame) returns (out: Option<nat>)
      requires dpid in net && dpid in macs
      modifies `net, `trust, `stats
      ensures View() == Routed(old(View()), dpid, f)
      ensures out == OutPort(old(View()), dpid, f)
    {
      out := if f.ethDst in macs[dpid] then Some(macs[dpid][f.ethDst]) else None;
      if out.Some? {
        if !f.content.Ip4? {
          AddFlow(dpid, PathRule(f.inPort, f.ethSrc, f.ethDst), Rule(Output(out.value), 0, 0));
        } else if CountsForTrust(f) {
          RecordTrustOf(dpid, f.content.ip, f.content.ip.l4.value, f.inPort, out.value);
        }
      }
    }

    /** Handles a packet sent to the controller; `out` tells whether and where it was forwarded. */
    method PacketInHandler(dpid: nat, now: real, f: Frame) returns (v: Verdict, forwarded: bool, out: Option<nat>)
      requires dpid in net
      modifies `net, `macs, `arp, `tracker, `trust, `stats
      ensures View() == Next(old(View()), PacketIn(dpid, now, f))
      ensures v == Check(old(View()), dpid, now, f).verdict
      ensures forwarded <==> v == Allowed
      ensures out == if forwarded then OutPort(Noted(Check(old(View()), dpid, now, f).state, dpid, f, v), dpid, f) else None
    {
      hide Check, Noted, Routed, OutPort;
      forwarded, out := false, None;
      v := Filter(dpid, now, f);
      if v == Failed || v == Ignored {
        return;
      }
      Note(dpid, f, v);
      if v == Allowed {
        out := Forward(dpid, f);
        forwarded := true;
      }
    }

    /** Counts the packet and learns its sender. */
    method Note(dpid: nat, f: Frame, v: Verdict)
      modifies `stats, `macs
      ensures View() == Noted(old(View()), dpid, f, v) && dpid in macs
    {
      hide Counted;
      stats := stats.(total := stats.total + 1);
      if dpid !in macs {
        macs := macs[dpid := map[]];
      }
      var known: map<Mac, nat> := macs[dpid];
      macs := macs[dpid := known[f.ethSrc := f.inPort]];
      ApplyResult(v);
    }

    // ---------- flushes ----------

    method DeleteFlows(dpid: nat, m: Match)
      requires dpid in net
      modifies `net
      ensures net == old(net)[dpid := Delete(old(net)[dpid], m)]
    {
      net := net[dpid := Delete(net[dpid], m)];
    }

    method ForgetKeys(keys: set<Key>)
      modifies `trust
      ensures trust == map k | k in old(trust) && k !in keys :: old(trust)[k]
    {
      var todo := keys;
      while todo != {}
        invariant todo <= keys
        invariant trust == map k | k in old(trust) && k !in keys - todo :: old(trust)[k]
      {
        var k :| k in todo;
        trust := trust - {k};
        todo := todo - {k};
      }
    }

    method FlushFlowsForIp(ip: Ip)
      modifies `net, `trust
      ensures View() == FlushedIp(old(View()), ip)
    {
      var todo := net.Keys;
      while todo != {}
        invariant net.Keys == old(net).Keys && trust == old(trust)
        invariant forall d {:trigger net[d]} | d in net :: net[d] == if d in todo then old(net)[d] else WithoutIp(old(net)[d], ip)
      {
        var d :| d in todo;
        DeleteFlows(d, SourceFlush(ip));
        DeleteFlows(d, DestinationFlush(ip));
        todo := todo - {d};
      }
      assert net == FlushedIp(old(View()), ip).net;
      ForgetKeys(set k | k in trust && KeyHasIp(k, ip));
      assert trust == FlushedIp(old(View()), ip).trust;
    }

    method FlushFlowsForPort(port: nat, proto: nat)
      requires proto == TCP || proto == UDP
      modifies `net, `trust
      ensures View() == FlushedPort(old(View()), port, proto)
    {
      var todo := net.Keys;
      while todo != {}
        invariant net.Keys == old(net).Keys && trust == old(trust)
        invariant forall d {:trigger net[d]} | d in net :: net[d] == if d in todo then old(net)[d] else WithoutPort(old(net)[d], port, proto)
      {
        var d :| d in todo;
        DeleteFlows(d, PortFlush(port, proto));
        todo := todo - {d};
      }
      assert net == FlushedPort(old(View()), port, proto).net;
      ForgetKeys(set k | k in trust && KeyHasPort(k, port, proto));
      assert trust == FlushedPort(old(View()), port, proto).trust;
    }

    method FlushAllTrustFlows()
      modifies `net, `trust, `stats
      ensures View() == FlushedAll(old(View()))
    {
      var todo := net.Keys;
      while todo != {}
        invariant net.Keys == old(net).Keys && stats == old(stats)
        invariant forall d {:trigger net[d]} | d in net :: net[d] == if d in todo then old(net)[d] else WithoutTrust(old(net)[d])
      {
        var d :| d in todo;
        DeleteFlows(d, AnyIpv4);
        AddFlow(d, IPV4_RULE, CONTROLLER);
        todo := todo - {d};
      }
      assert net == FlushedAll(old(View())).net;
      trust := map[];
      stats := stats.(trustInstalled := 0);
    }

    // ---------- requests of the administrator ----------

    method AddBlockedIp(ip: Ip)
      modifies `blockedIps, `net, `trust
      ensures View() == Next(old(View()), BlockIp(ip))
    {
      blockedIps := blockedIps + {ip};
      FlushFlowsForIp(ip);
    }

    method DelBlockedIp(ip: Ip) returns (found: bool)
      modifies `blockedIps
      ensures View() == Next(old(View()), UnblockIp(ip))
      ensures found <==> ip in old(blockedIps)
    {
      found := ip in blockedIps;
      if found {
        blockedIps := blockedIps - {ip};
      }
      assert !found ==> blockedIps - {ip} == blockedIps;
    }

    method AddBlockedPort(port: int, proto: int) returns (ok: bool)
      modifies `blockedPorts, `net, `trust
      ensures View() == Next(old(View()), BlockPort(port, proto))
      ensures ok <==> ValidPort(port, proto)
    {
      ok := 0 <= port <= 65535 && (proto == TCP || proto == UDP);
      if ok {
        blockedPorts := blockedPorts + {(port, proto)};
        FlushFlowsForPort(port, proto);
      }
    }

    method DelBlockedPort(port: int, proto: int) returns (ok: bool)
      modifies `blockedPorts
      ensures View() == Next(old(View()), UnblockPort(port, proto))
      ensures ok <==> ValidPort(port, proto)
    {
      ok := 0 <= port <= 65535 && (proto == TCP || proto == UDP);
      if ok {
        blockedPorts := blockedPorts - {(port, proto)};
      }
    }

    method SetRateLimit(newLimit: int, newWindow: int)
      modifies `limit, `window
      ensures View() == Next(old(View()), SetRate(newLimit, newWindow))
    {
      limit := newLimit;
      window := newWindow as real;
    }

    method AddDpiPattern(req: PatternRequest) returns (ok: bool)
      modifies dpi, `net, `trust, `stats
      ensures View() == Next(old(View()), AddPattern(req))
      ensures ok <==> Acceptable(old(dpi.patterns), req)
    {
      ok := dpi.AddPattern(req);
      if ok {
        FlushAllTrustFlows();
      }
    }

    method DelDpiPattern(name: string) returns (removed: bool)
      modifies dpi
      ensures View() == Next(old(View()), RemovePattern(name))
      ensures removed <==> Removable(old(dpi.patterns), name)
    {
      removed := dpi.RemovePattern(name);
    }
  }
}
