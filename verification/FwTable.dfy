/** The flow tables of the switches, as in sections 5.3, 5.5 and 6.4 of the OpenFlow Switch
    Specification 1.3: the matching rule of highest priority decides a packet, an added rule
    overwrites the one with the same match and priority, and a non-strict deletion removes every
    rule whose match is equal to or more specific than the given one. */
module FwTable {
  import opened Options

  /** IPv4 addresses, numbered in the order in which their text compares. */
  type Ip = nat
  type Mac = nat

  const IPV4: nat := 0x0800
  const ARP: nat := 0x0806
  const TCP: nat := 6
  const UDP: nat := 17

  /** The fields of a match; also the headers of a packet, where absent fields are None. */
  datatype Match = Match(ethType: Option<nat>, inPort: Option<nat>, ethSrc: Option<Mac>, ethDst: Option<Mac>,
                         ipProto: Option<nat>, ipSrc: Option<Ip>, ipDst: Option<Ip>,
                         l4Src: Option<nat>, l4Dst: Option<nat>, arpSpa: Option<Ip>)

  const Anything: Match := Match(None, None, None, None, None, None, None, None, None, None)
  const AnyIpv4: Match := Anything.(ethType := Some(IPV4))

  predicate Admits(field: Option<nat>, value: Option<nat>) {
    field.None? || field == value
  }

  /** Every packet with headers `h`, and every rule with match `h`, falls under `m`. */
  predicate Covers(m: Match, h: Match) {
    && Admits(m.ethType, h.ethType) && Admits(m.inPort, h.inPort)
    && Admits(m.ethSrc, h.ethSrc) && Admits(m.ethDst, h.ethDst)
    && Admits(m.ipProto, h.ipProto) && Admits(m.ipSrc, h.ipSrc) && Admits(m.ipDst, h.ipDst)
    && Admits(m.l4Src, h.l4Src) && Admits(m.l4Dst, h.l4Dst) && Admits(m.arpSpa, h.arpSpa)
  }

  datatype Action = ToController | Drop | Output(port: nat)

  datatype RuleId = RuleId(priority: nat, fields: Match)

  datatype Rule = Rule(action: Action, idle: nat, hard: nat)

  type Table = map<RuleId, Rule>

  function Delete(tb: Table, m: Match): (r: Table)
    ensures forall id :: id in r <==> id in tb && !Covers(m, id.fields)
    ensures forall id | id in r :: r[id] == tb[id]
  {
    map id | id in tb && !Covers(m, id.fields) :: tb[id]
  }

  /** Only a rule with a timeout expires. */
  predicate CanExpire(tb: Table, id: RuleId) {
    id in tb && (tb[id].idle > 0 || tb[id].hard > 0)
  }

  /** The rule decides packets with headers `h`. */
  ghost predicate Decides(tb: Table, id: RuleId, h: Match) {
    && id in tb && Covers(id.fields, h)
    && forall o | o in tb && Covers(o.fields, h) :: o.priority <= id.priority
  }

  // ---------- the rules of the firewall ----------

  const MISS_RULE: RuleId := RuleId(0, Anything)
  const IPV4_RULE: RuleId := RuleId(300, AnyIpv4)
  const CONTROLLER: Rule := Rule(ToController, 0, 0)

  const TRUST_PRIORITY: nat := 400
  const TRUST_IDLE: nat := 60
  const TRUST_HARD: nat := 300

  datatype Endpoint = Endpoint(ip: Ip, port: nat)

  /** The rule that forwards a trusted flow's packets from `src` to `dst`. */
  function TrustRule(proto: nat, src: Endpoint, dst: Endpoint): RuleId {
    RuleId(TRUST_PRIORITY, AnyIpv4.(ipProto := Some(proto), ipSrc := Some(src.ip), ipDst := Some(dst.ip),
                                    l4Src := Some(src.port), l4Dst := Some(dst.port)))
  }

  /** The drop rule of a source that exceeded its rate, and of a spoofed ARP sender. */
  function RateDropRule(src: Ip): RuleId {
    RuleId(200, AnyIpv4.(ipSrc := Some(src)))
  }

  function ArpDropRule(src: Ip): RuleId {
    RuleId(200, Anything.(ethType := Some(ARP), arpSpa := Some(src)))
  }

  function PathRule(inPort: nat, src: Mac, dst: Mac): RuleId {
    RuleId(1, Anything.(inPort := Some(inPort), ethSrc := Some(src), ethDst := Some(dst)))
  }

  ghost predicate IsTrustRule(id: RuleId) {
    exists proto, src, dst :: (proto == TCP || proto == UDP) && id == TrustRule(proto, src, dst)
  }

  ghost predicate IsPathRule(id: RuleId) {
    exists inPort, src, dst :: id == PathRule(inPort, src, dst)
  }

  ghost predicate IsRateDrop(id: RuleId) { exists src :: id == RateDropRule(src) }

  ghost predicate IsArpDrop(id: RuleId) { exists src :: id == ArpDropRule(src) }

  /** The only rules a switch ever holds, with what they do and how long they live. */
  ghost predicate KnownRule(id: RuleId, r: Rule) {
    || ((id == MISS_RULE || id == IPV4_RULE) && r == Rule(ToController, 0, 0))
    || (IsPathRule(id) && r.action.Output? && r.idle == 0 && r.hard == 0)
    || ((IsRateDrop(id) || IsArpDrop(id)) && r == Rule(Drop, 10, 0))
    || (IsTrustRule(id) && r.action.Output? && r.idle == 60 && r.hard == 300)
  }

  /** A registered switch sends IPv4 to the controller unless something trusted overrides that, and
      everything that no rule matches. */
  ghost predicate TableInv(tb: Table) {
    && IPV4_RULE in tb && MISS_RULE in tb && tb[IPV4_RULE] == Rule(ToController, 0, 0) && tb[MISS_RULE] == Rule(ToController, 0, 0)
    && forall id {:trigger tb[id]} | id in tb :: KnownRule(id, tb[id])
  }

  /** The rule that decides an IPv4 packet is the rule that sends it to the controller or a trust
      rule: the drop rules of priority 200 and the path rules never do. */
  lemma Ipv4IsControlled(tb: Table, id: RuleId, h: Match)
    requires TableInv(tb) && h.ethType == Some(IPV4) && Decides(tb, id, h)
    ensures (id == IPV4_RULE && tb[id].action == ToController) || IsTrustRule(id)
    ensures id.priority == 300 || id.priority == 400
  {
    assert Covers(IPV4_RULE.fields, h);
    assert KnownRule(id, tb[id]);
  }

  lemma {:induction false} HighestPriority(ids: set<RuleId>) returns (id: RuleId)
    requires ids != {}
    ensures id in ids && forall o | o in ids :: o.priority <= id.priority
    decreases ids
  {
    id :| id in ids;
    var rest := ids - {id};
    if rest != {} {
      var best := HighestPriority(rest);
      assert forall o | o in ids :: o == id || o in rest;
      if best.priority > id.priority {
        id := best;
      }
    } else {
      assert forall o | o in ids :: o == id || o in rest;
    }
  }

  /** Some rule decides every IPv4 packet. */
  lemma Ipv4IsDecided(tb: Table, h: Match) returns (id: RuleId)
    requires TableInv(tb) && h.ethType == Some(IPV4)
    ensures Decides(tb, id, h)
  {
    var ids := set o | o in tb && Covers(o.fields, h);
    assert IPV4_RULE in ids;
    id := HighestPriority(ids);
    assert forall o | o in tb && Covers(o.fields, h) :: o in ids;
  }

  // ---------- flushes ----------

  function SourceFlush(ip: Ip): Match { AnyIpv4.(ipSrc := Some(ip)) }
  function DestinationFlush(ip: Ip): Match { AnyIpv4.(ipDst := Some(ip)) }
  function PortFlush(port: nat, proto: nat): Match { AnyIpv4.(ipProto := Some(proto), l4Dst := Some(port)) }

  function WithoutIp(tb: Table, ip: Ip): Table {
    Delete(Delete(tb, SourceFlush(ip)), DestinationFlush(ip))
  }

  function WithoutPort(tb: Table, port: nat, proto: nat): Table {
    Delete(tb, PortFlush(port, proto))
  }

  function WithoutTrust(tb: Table): Table {
    Delete(tb, AnyIpv4)[IPV4_RULE := CONTROLLER]
  }

  /** What each flush does to a trust rule. */
  lemma FlushedTrustRules(tb: Table, proto: nat, src: Endpoint, dst: Endpoint, ip: Ip, port: nat, p: nat)
    ensures TrustRule(proto, src, dst) in WithoutIp(tb, ip) <==>
              TrustRule(proto, src, dst) in tb && src.ip != ip && dst.ip != ip
    ensures TrustRule(proto, src, dst) in WithoutPort(tb, port, p) <==>
              TrustRule(proto, src, dst) in tb && !(proto == p && dst.port == port)
    ensures TrustRule(proto, src, dst) !in WithoutTrust(tb)
  {
  }

  lemma FlushesKeepTables(tb: Table, ip: Ip, port: nat, proto: nat)
    requires TableInv(tb)
    ensures TableInv(WithoutIp(tb, ip)) && TableInv(WithoutPort(tb, port, proto)) && TableInv(WithoutTrust(tb))
  {
    assert !Covers(SourceFlush(ip), IPV4_RULE.fields) && !Covers(DestinationFlush(ip), IPV4_RULE.fields);
    assert !Covers(PortFlush(port, proto), IPV4_RULE.fields);
    assert !Covers(SourceFlush(ip), MISS_RULE.fields) && !Covers(DestinationFlush(ip), MISS_RULE.fields);
    assert !Covers(PortFlush(port, proto), MISS_RULE.fields) && !Covers(AnyIpv4, MISS_RULE.fields);
  }
}
