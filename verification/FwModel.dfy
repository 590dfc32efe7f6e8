/** The controller and its switches as one step system: every handler is one atomic step. */
module FwModel {
  import opened Options
  import opened FwTable
  import opened FwRate
  import opened FwDpi

  const TRUST_K: nat := 5

  /** A flow, whichever way its packets go. */
  datatype Key = Key(proto: nat, a: Endpoint, b: Endpoint)

  predicate AtMost(a: Endpoint, b: Endpoint) {
    a.ip < b.ip || (a.ip == b.ip && a.port <= b.port)
  }

  function TrustKey(proto: nat, src: Endpoint, dst: Endpoint): Key {
    if AtMost(src, dst) then Key(proto, src, dst) else Key(proto, dst, src)
  }

  /** Both directions of a flow share its key; the sender tells them apart exactly if the endpoints
      differ. */
  lemma KeyIsSymmetric(proto: nat, src: Endpoint, dst: Endpoint)
    ensures TrustKey(proto, src, dst) == TrustKey(proto, dst, src)
    ensures src != dst <==> (TrustKey(proto, src, dst).a == src <==> TrustKey(proto, dst, src).a != dst)
    ensures TrustKey(proto, src, dst) == Key(proto, src, dst) || TrustKey(proto, src, dst) == Key(proto, dst, src)
  {
  }

  datatype Stats = Stats(allowed: nat, blocked: nat, total: nat, arpSpoof: nat, rateLimited: nat, scanDetected: nat,
                         trustInstalled: nat, dpiBlocked: nat)

  datatype State = State(
    net: map<nat, Table>,                  // the registered switches
    macs: map<nat, map<Mac, nat>>, arp: map<Ip, Mac>,
    blockedIps: set<Ip>, blockedPorts: set<(nat, nat)>, allowedIps: set<Ip>,
    tracker: map<Ip, seq<real>>, limit: int, window: real,
    trust: map<Key, Entry>, patterns: seq<Pattern>, stats: Stats)

  ghost predicate Initial(s: State) {
    && s.net == map[] && s.macs == map[] && s.arp == map[] && s.blockedIps == {} && s.blockedPorts == {}
    && s.tracker == map[] && s.trust == map[] && s.stats == Stats(0, 0, 0, 0, 0, 0, 0, 0) && RegistryInv(s.patterns)
  }

  // ---------- packets ----------

  datatype Transport = Transport(srcPort: nat, dstPort: nat, flags: bv8, payload: Bytes)

  /** `l4` is None where the TCP or UDP header could not be decoded. */
  datatype Ipv4 = Ipv4(proto: nat, src: Ip, dst: Ip, l4: Option<Transport>)

  datatype Content = Ip4(ip: Ipv4) | Arp(mac: Mac, sender: Ip) | Other

  /** `usable` tells that the message carries the whole frame. */
  datatype Frame = Frame(usable: bool, inPort: nat, ethSrc: Mac, ethDst: Mac, content: Content)

  datatype ScanKind = Xmas | Null | SynFin | SynRst | Fin

  /** Failed: the handler gave up on a missing header. */
  datatype Verdict = Allowed | IpBlocked | NotListed | PortBlocked | RateLimited | ArpSpoof | Scan(kind: ScanKind) | DpiBlocked
                   | Failed | Ignored

  datatype Checked = Checked(state: State, verdict: Verdict)

  function Source(ip: Ipv4, seg: Transport): Endpoint { Endpoint(ip.src, seg.srcPort) }
  function Destination(ip: Ipv4, seg: Transport): Endpoint { Endpoint(ip.dst, seg.dstPort) }
  function FlowKey(ip: Ipv4, seg: Transport): Key { TrustKey(ip.proto, Source(ip, seg), Destination(ip, seg)) }

  function EntryOf(trust: map<Key, Entry>, key: Key): Entry {
    if key in trust then trust[key] else NewEntry
  }

  function TimesOf(tracker: map<Ip, seq<real>>, src: Ip): seq<real> {
    if src in tracker then tracker[src] else []
  }

  function MacsOf(macs: map<nat, map<Mac, nat>>, dpid: nat): map<Mac, nat> {
    if dpid in macs then macs[dpid] else map[]
  }

  // ---------- checks ----------

  function WithRule(s: State, dpid: nat, id: RuleId, r: Rule): State
    requires dpid in s.net
  {
    s.(net := s.net[dpid := s.net[dpid][id := r]])
  }

  function IpCheck(s: State, src: Ip): Verdict {
    if src in s.blockedIps then IpBlocked
    else if s.allowedIps != {} && src !in s.allowedIps then NotListed
    else Allowed
  }

  function RateCheck(s: State, dpid: nat, src: Ip, now: real): (r: Checked)
    requires dpid in s.net
    ensures r.state.net.Keys == s.net.Keys
  {
    var times := TimesOf(s.tracker, src);
    var s' := s.(tracker := s.tracker[src := Track(times, now, s.limit, s.window)]);
    if Passes(times, now, s.limit, s.window) then Checked(s', Allowed)
    else Checked(WithRule(s', dpid, RateDropRule(src), Rule(Drop, 10, 0)), RateLimited)
  }

  function PortCheck(s: State, port: nat, proto: nat): Verdict {
    if (port, proto) in s.blockedPorts then PortBlocked else Allowed
  }

  function FlagCheck(flags: bv8): Verdict {
    if flags & 0x29 == 0x29 then Scan(Xmas)
    else if flags == 0 then Scan(Null)
    else if flags & 0x03 == 0x03 then Scan(SynFin)
    else if flags & 0x06 == 0x06 then Scan(SynRst)
    else if flags == 0x01 then Scan(Fin)
    else Allowed
  }

  function DpiCheck(s: State, ip: Ipv4, seg: Transport): Checked {
    var key := FlowKey(ip, seg);
    var e := EntryOf(s.trust, key);
    var e' := Inspected(s.patterns, e, Source(ip, seg) == key.a, seg.payload);
    var news := if e'.blocked && !e.blocked then 1 else 0;
    Checked(s.(trust := s.trust[key := e'], stats := s.stats.(dpiBlocked := s.stats.dpiBlocked + news)),
            if e'.blocked then DpiBlocked else Allowed)
  }

  function TcpCheck(s: State, ip: Ipv4, seg: Transport): Checked {
    if PortCheck(s, seg.dstPort, TCP) != Allowed then Checked(s, PortCheck(s, seg.dstPort, TCP))
    else if FlagCheck(seg.flags) != Allowed then Checked(s, FlagCheck(seg.flags))
    else DpiCheck(s, ip, seg)
  }

  /** The checks specific to a transport protocol. */
  function TransportCheck(s: State, ip: Ipv4): Checked {
    if ip.proto != TCP && ip.proto != UDP then Checked(s, Allowed)
    else if ip.l4.None? then Checked(s, Failed)
    else if ip.proto == TCP then TcpCheck(s, ip, ip.l4.value)
    else Checked(s, PortCheck(s, ip.l4.value.dstPort, UDP))
  }

  function Ipv4Check(s: State, dpid: nat, now: real, ip: Ipv4): (r: Checked)
    requires dpid in s.net
    ensures r.state.net.Keys == s.net.Keys
  {
    if IpCheck(s, ip.src) != Allowed then Checked(s, IpCheck(s, ip.src))
    else
      var r := RateCheck(s, dpid, ip.src, now);
      if r.verdict != Allowed then r else TransportCheck(r.state, ip)
  }

  function ArpCheck(s: State, dpid: nat, mac: Mac, src: Ip): (r: Checked)
    requires dpid in s.net
    ensures r.state.net.Keys == s.net.Keys
  {
    if src !in s.arp then Checked(s.(arp := s.arp[src := mac]), Allowed)
    else if s.arp[src] != mac then Checked(WithRule(s, dpid, ArpDropRule(src), Rule(Drop, 10, 0)), ArpSpoof)
    else Checked(s, Allowed)
  }

  function Check(s: State, dpid: nat, now: real, f: Frame): (r: Checked)
    requires dpid in s.net
    ensures r.state.net.Keys == s.net.Keys
  {
    if !f.usable then Checked(s, Ignored)
    else match f.content
      case Ip4(ip) => Ipv4Check(s, dpid, now, ip)
      case Arp(mac, src) => ArpCheck(s, dpid, mac, src)
      case Other => Checked(s, Ignored)
  }

  // ---------- outcome ----------

  function Counted(t: Stats, v: Verdict): Stats {
    match v
    case Allowed => t.(allowed := t.allowed + 1)
    case IpBlocked | NotListed | PortBlocked => t.(blocked := t.blocked + 1)
    case RateLimited => t.(rateLimited := t.rateLimited + 1)
    case ArpSpoof => t.(arpSpoof := t.arpSpoof + 1)
    case Scan(_) => t.(scanDetected := t.scanDetected + 1)
    case DpiBlocked | Failed | Ignored => t
  }

  function Installed(s: State, dpid: nat, ip: Ipv4, seg: Transport, inPort: nat, outPort: nat): State
    requires dpid in s.net
  {
    var src, dst := Source(ip, seg), Destination(ip, seg);
    WithRule(WithRule(s, dpid, TrustRule(ip.proto, src, dst), Rule(Output(outPort), TRUST_IDLE, TRUST_HARD)),
             dpid, TrustRule(ip.proto, dst, src), Rule(Output(inPort), TRUST_IDLE, TRUST_HARD))
  }

  /** The packet that makes its flow trusted. */
  predicate Earns(s: State, ip: Ipv4, seg: Transport) {
    var e := EntryOf(s.trust, FlowKey(ip, seg));
    !e.installed && e.count + 1 >= TRUST_K
  }

  function RecordTrust(s: State, dpid: nat, ip: Ipv4, seg: Transport, inPort: nat, outPort: nat): State
    requires dpid in s.net
  {
    var key := FlowKey(ip, seg);
    var e := EntryOf(s.trust, key);
    if e.installed then s
    else if e.count + 1 < TRUST_K then s.(trust := s.trust[key := e.(count := e.count + 1)])
    else
      Installed(s, dpid, ip, seg, inPort, outPort)
        .(trust := s.trust[key := e.(count := e.count + 1, installed := true)],
          stats := s.stats.(trustInstalled := s.stats.trustInstalled + 1))
  }

  /** Where an allowed packet goes: a known port, or everywhere. */
  function OutPort(s: State, dpid: nat, f: Frame): Option<nat> {
    if f.ethDst in MacsOf(s.macs, dpid) then Some(s.macs[dpid][f.ethDst]) else None
  }

  function Learned(s: State, dpid: nat, f: Frame): State {
    s.(macs := s.macs[dpid := MacsOf(s.macs, dpid)[f.ethSrc := f.inPort]])
  }

  /** The frame belongs to a flow that can earn trust. */
  predicate CountsForTrust(f: Frame) {
    f.content.Ip4? && (f.content.ip.proto == TCP || f.content.ip.proto == UDP) && f.content.ip.l4.Some?
  }

  /** Rules and trust that follow from forwarding an allowed packet. */
  function Routed(s: State, dpid: nat, f: Frame): State
    requires dpid in s.net
  {
    match OutPort(s, dpid, f)
    case None => s
    case Some(out) =>
      if !f.content.Ip4? then WithRule(s, dpid, PathRule(f.inPort, f.ethSrc, f.ethDst), Rule(Output(out), 0, 0))
      else if CountsForTrust(f) then RecordTrust(s, dpid, f.content.ip, f.content.ip.l4.value, f.inPort, out)
      else s
  }

  /** The state after the checks, with the packet counted and its sender learned. */
  function Noted(s: State, dpid: nat, f: Frame, v: Verdict): State {
    Learned(s, dpid, f).(stats := Counted(s.stats.(total := s.stats.total + 1), v))
  }

  function Concluded(s: State, dpid: nat, f: Frame, v: Verdict): State
    requires dpid in s.net
  {
    if v == Failed || v == Ignored then s
    else if v == Allowed then Routed(Noted(s, dpid, f, v), dpid, f)
    else Noted(s, dpid, f, v)
  }

  function Received(s: State, dpid: nat, now: real, f: Frame): State
    requires dpid in s.net
  {
    var r := Check(s, dpid, now, f);
    Concluded(r.state, dpid, f, r.verdict)
  }

  // ---------- administration ----------

  function Greeted(s: State, dpid: nat): State {
    var tb := if dpid in s.net then s.net[dpid] else map[];
    s.(net := s.net[dpid := tb[MISS_RULE := CONTROLLER][IPV4_RULE := CONTROLLER]], arp := map[])
  }

  predicate KeyHasIp(k: Key, ip: Ip) { k.a.ip == ip || k.b.ip == ip }

  predicate KeyHasPort(k: Key, port: nat, proto: nat) { k.proto == proto && (k.a.port == port || k.b.port == port) }

  function FlushedIp(s: State, ip: Ip): State {
    s.(net := map d | d in s.net :: WithoutIp(s.net[d], ip),
       trust := map k | k in s.trust && !KeyHasIp(k, ip) :: s.trust[k])
  }

  function FlushedPort(s: State, port: nat, proto: nat): State {
    s.(net := map d | d in s.net :: WithoutPort(s.net[d], port, proto),
       trust := map k | k in s.trust && !KeyHasPort(k, port, proto) :: s.trust[k])
  }

  function FlushedAll(s: State): State {
    s.(net := map d | d in s.net :: WithoutTrust(s.net[d]), trust := map[], stats := s.stats.(trustInstalled := 0))
  }

  predicate ValidPort(port: int, proto: int) { 0 <= port <= 65535 && (proto == TCP || proto == UDP) }

  // ---------- steps ----------

  datatype Step =
    | Handshake(dpid: nat)
    | PacketIn(dpid: nat, now: real, frame: Frame)
    | BlockIp(ip: Ip)
    | UnblockIp(ip: Ip)
    | BlockPort(port: int, proto: int)
    | UnblockPort(port: int, proto: int)
    | SetRate(limit: int, window: int)
    | AddPattern(req: PatternRequest)
    | RemovePattern(name: string)
    | Expire(dpid: nat, rule: RuleId)

  function Next(s: State, a: Step): State {
    match a
    case Handshake(d) => Greeted(s, d)
    case PacketIn(d, now, f) => if d in s.net then Received(s, d, now, f) else s
    case BlockIp(ip) => FlushedIp(s.(blockedIps := s.blockedIps + {ip}), ip)
    case UnblockIp(ip) => s.(blockedIps := s.blockedIps - {ip})
    case BlockPort(port, proto) =>
      if ValidPort(port, proto) then FlushedPort(s.(blockedPorts := s.blockedPorts + {(port, proto)}), port, proto) else s
    case UnblockPort(port, proto) =>
      if ValidPort(port, proto) then s.(blockedPorts := s.blockedPorts - {(port, proto)}) else s
    case SetRate(limit, window) => s.(limit := limit, window := window as real)
    case AddPattern(req) =>
      if Acceptable(s.patterns, req)
      then FlushedAll(s.(patterns := s.patterns + [Pattern(req.name, req.compiled.value, true, false)]))
      else s
    case RemovePattern(name) => if Removable(s.patterns, name) then s.(patterns := Unnamed(s.patterns, name)) else s
    case Expire(d, id) => if d in s.net && CanExpire(s.net[d], id) then s.(net := s.net[d := s.net[d] - {id}]) else s
  }

  /** The step leads from `s` to `s'`. */
  ghost predicate Taken(s: State, a: Step, s': State) {
    s' == Next(s, a)
  }

  /** `ss` are the states of a run that takes the `steps`. */
  ghost predicate IsRun(ss: seq<State>, steps: seq<Step>) {
    && |ss| == |steps| + 1 && Initial(ss[0])
    && forall i, j {:trigger Taken(ss[i], steps[i], ss[j])} | 0 <= i < |steps| && j == i + 1 :: Taken(ss[i], steps[i], ss[j])
  }
}
