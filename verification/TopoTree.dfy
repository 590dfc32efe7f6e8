/** Tree topologies as values: what the recursive builder makes, and the shape of the result. */
module TopoTree {
  import opened TopoNames
  import opened TopoGraph

  datatype Port = Port(node: Name, port: nat)

  type PortMap = map<Name, map<nat, Port>>

  /** How far above the hosts a node was built, and its number. */
  datatype NodeInfo = NodeInfo(level: nat, num: nat)

  datatype Net = Net(info: map<Name, NodeInfo>, links: LinkMap, ports: PortMap, hostNum: nat, switchNum: nat)

  const EmptyNet: Net := Net(map[], map[], map[], 1, 1)

  function NameOf(i: NodeInfo): Name {
    if i.level > 0 then SwitchName(i.num) else HostName(i.num)
  }

  function PortsOf(ports: PortMap, a: Name): map<nat, Port> {
    if a in ports then ports[a] else map[]
  }

  /** The lowest port: 1 on a switch, 0 on a host. */
  function Base(t: Net, a: Name): nat {
    if a in t.info && t.info[a].level > 0 then 1 else 0
  }

  function AutoPort(t: Net, a: Name): nat {
    |PortsOf(t.ports, a)| + Base(t, a)
  }

  function WithPort(ports: PortMap, a: Name, p: nat, to: Port): PortMap {
    ports[a := PortsOf(ports, a)[p := to]]
  }

  // ---------- building ----------

  function AddSwitch(t: Net, level: nat): Net {
    t.(info := t.info[SwitchName(t.switchNum) := NodeInfo(level, t.switchNum)], switchNum := t.switchNum + 1)
  }

  function AddHost(t: Net): Net {
    t.(info := t.info[HostName(t.hostNum) := NodeInfo(0, t.hostNum)], hostNum := t.hostNum + 1)
  }

  function AddLink(t: Net, a: Name, b: Name): Net {
    var p, q := AutoPort(t, a), AutoPort(t, b);
    t.(ports := WithPort(WithPort(t.ports, a, p, Port(b, q)), b, q, Port(a, p)),
       links := t.links[IdOf(a, b, NextKey(KeysOf(t.links, a, b))) := Link(a, b, p, q)])
  }

  datatype Built = Built(net: Net, root: Name)

  function AddTree(t: Net, depth: nat, fanout: nat): Built
    decreases depth, 1, 0
  {
    if depth > 0 then
      var root := SwitchName(t.switchNum);
      Built(AddChildren(AddSwitch(t, depth), root, depth, fanout, fanout), root)
    else Built(AddHost(t), HostName(t.hostNum))
  }

  /** The net once the first `n` children hang below `root`. */
  function AddChildren(t: Net, root: Name, depth: nat, fanout: nat, n: nat): Net
    requires depth > 0
    decreases depth, 0, n
  {
    if n == 0 then t
    else
      var sub := AddTree(AddChildren(t, root, depth, fanout, n - 1), depth - 1, fanout);
      AddLink(sub.net, root, sub.root)
  }

  // ---------- sizes ----------

  function Power(b: nat, e: nat): nat {
    if e == 0 then 1 else b * Power(b, e - 1)
  }

  function Switches(depth: nat, fanout: nat): nat {
    if depth == 0 then 0 else 1 + fanout * Switches(depth - 1, fanout)
  }

  // ---------- the invariant ----------

  /** Every node has the name its kind and number give it, and numbers run up to the counters. */
  ghost predicate WellNamed(t: Net) {
    && t.hostNum >= 1 && t.switchNum >= 1
    && (forall n {:trigger t.info[n]} | n in t.info ::
          n == NameOf(t.info[n]) && 1 <= t.info[n].num < if t.info[n].level > 0 then t.switchNum else t.hostNum)
    && (forall k: nat {:trigger HostName(k)} | 1 <= k < t.hostNum :: HostName(k) in t.info)
    && (forall k: nat {:trigger SwitchName(k)} | 1 <= k < t.switchNum :: SwitchName(k) in t.info)
  }

  predicate PortLeads(ports: PortMap, a: Name, p: nat, to: Port) {
    a in ports && p in ports[a] && ports[a][p] == to
  }

  /** A link joins a node to its parent, one level up, and the port map knows both its ends. */
  ghost predicate LinkOk(t: Net, id: LinkId, l: Link) {
    && l.node1 in t.info && l.node2 in t.info && t.info[l.node1].level == t.info[l.node2].level + 1
    && id == IdOf(l.node1, l.node2, 1)
    && PortLeads(t.ports, l.node1, l.port1, Port(l.node2, l.port2))
    && PortLeads(t.ports, l.node2, l.port2, Port(l.node1, l.port1))
  }

  ghost predicate LinksOk(t: Net) {
    && (forall id {:trigger t.links[id]} | id in t.links :: LinkOk(t, id, t.links[id]))
    && (forall id, id' {:trigger t.links[id], t.links[id']} | id in t.links && id' in t.links && t.links[id].node2 == t.links[id'].node2 ::
          id == id')
  }

  /** The port map is its own inverse: port `p` of `a` leads to port `q` of `b` only if that leads back. */
  ghost predicate SelfInverse(ports: PortMap) {
    forall a, p, to {:trigger PortLeads(ports, a, p, to)} | PortLeads(ports, a, p, to) :: PortLeads(ports, to.node, to.port, Port(a, p))
  }

  /** Ports are numbered without gaps from `base`. */
  ghost predicate Gapless(ports: map<nat, Port>, base: nat) {
    forall p: nat {:trigger p in ports} :: p in ports <==> base <= p < base + |ports|
  }

  lemma MapGrows<K, V>(m: map<K, V>, k: K, v: V)
    requires k !in m
    ensures |m[k := v]| == |m| + 1
  {
    assert m[k := v].Keys == m.Keys + {k};
    assert |m[k := v].Keys| == |m[k := v]| && |m.Keys| == |m|;
  }

  lemma GaplessGrows(ports: map<nat, Port>, base: nat, to: Port)
    requires Gapless(ports, base)
    ensures Gapless(ports[|ports| + base := to], base) && |ports[|ports| + base := to]| == |ports| + 1
  {
    assert |ports| + base !in ports;
    MapGrows(ports, |ports| + base, to);
  }

  /** The ports of every node are numbered without gaps from its lowest. */
  ghost predicate Dense(t: Net) {
    t.ports.Keys <= t.info.Keys && forall a {:trigger t.ports[a]} | a in t.ports :: Gapless(t.ports[a], Base(t, a))
  }

  ghost predicate Good(t: Net) {
    WellNamed(t) && LinksOk(t) && SelfInverse(t.ports) && Dense(t)
  }

  predicate HasUplink(t: Net, n: Name) {
    exists id :: id in t.links && t.links[id].node2 == n
  }

  // ---------- adding a node ----------

  lemma FreshNames(t: Net)
    requires Good(t)
    ensures SwitchName(t.switchNum) !in t.info && HostName(t.hostNum) !in t.info
  {
    if SwitchName(t.switchNum) in t.info {
      var i := t.info[SwitchName(t.switchNum)];
      NamesAreDistinct(t.switchNum, i.num);
      NamesAreDistinct(i.num, t.switchNum);
    }
    if HostName(t.hostNum) in t.info {
      var i := t.info[HostName(t.hostNum)];
      NamesAreDistinct(i.num, t.hostNum);
      NamesAreDistinct(t.hostNum, i.num);
    }
  }

  /** A new node without links or ports changes nothing for the others. */
  lemma NodeKeepsRest(t: Net, n: Name, i: NodeInfo, t': Net)
    requires LinksOk(t) && SelfInverse(t.ports) && Dense(t) && n !in t.info
    requires t'.info == t.info[n := i] && t'.links == t.links && t'.ports == t.ports
    ensures LinksOk(t') && SelfInverse(t'.ports) && Dense(t')
  {
    forall id | id in t'.links ensures LinkOk(t', id, t'.links[id]) {
      assert LinkOk(t, id, t.links[id]);
    }
    forall a | a in t'.ports ensures Gapless(t'.ports[a], Base(t', a)) {
      assert Base(t', a) == Base(t, a);
    }
  }

  lemma SwitchKeepsGood(t: Net, level: nat)
    requires Good(t) && level > 0
    ensures Good(AddSwitch(t, level)) && SwitchName(t.switchNum) !in t.info
  {
    FreshNames(t);
    NodeKeepsRest(t, SwitchName(t.switchNum), NodeInfo(level, t.switchNum), AddSwitch(t, level));
  }

  lemma HostKeepsGood(t: Net)
    requires Good(t)
    ensures Good(AddHost(t)) && HostName(t.hostNum) !in t.info
  {
    FreshNames(t);
    NodeKeepsRest(t, HostName(t.hostNum), NodeInfo(0, t.hostNum), AddHost(t));
  }

  // ---------- adding a link ----------

  /** A link between a node and one a level below is that one's uplink. */
  lemma LinkIsUplink(t: Net, a: Name, b: Name, k: nat)
    requires LinksOk(t) && a in t.info && b in t.info && t.info[a].level == t.info[b].level + 1 && IdOf(a, b, k) in t.links
    ensures t.links[IdOf(a, b, k)].node2 == b && HasUplink(t, b)
  {
    var l := t.links[IdOf(a, b, k)];
    IdIsSymmetric(a, b, k);
    IdIsSymmetric(l.node1, l.node2, 1);
    assert LinkOk(t, IdOf(a, b, k), l);
  }

  /** Before its uplink is added, no link joins a node to its parent. */
  lemma NotYetLinked(t: Net, a: Name, b: Name)
    requires LinksOk(t) && a in t.info && b in t.info && t.info[a].level == t.info[b].level + 1 && !HasUplink(t, b)
    ensures KeysOf(t.links, a, b) == {} && forall k :: IdOf(a, b, k) !in t.links
  {
    forall k ensures IdOf(a, b, k) !in t.links {
      if IdOf(a, b, k) in t.links {
        LinkIsUplink(t, a, b, k);
      }
    }
  }

  /** What adding a link does when the nodes were not linked. */
  ghost predicate LinkAdded(t: Net, a: Name, b: Name, t': Net) {
    var p, q := AutoPort(t, a), AutoPort(t, b);
    && t'.info == t.info && t'.hostNum == t.hostNum && t'.switchNum == t.switchNum
    && t'.links == t.links[IdOf(a, b, 1) := Link(a, b, p, q)] && IdOf(a, b, 1) !in t.links
    && t'.ports == t.ports[a := PortsOf(t.ports, a)[p := Port(b, q)]][b := PortsOf(t.ports, b)[q := Port(a, p)]]
    && p !in PortsOf(t.ports, a) && q !in PortsOf(t.ports, b)
  }

  lemma LinkIsAdded(t: Net, a: Name, b: Name)
    requires Good(t) && a in t.info && b in t.info && t.info[a].level == t.info[b].level + 1 && !HasUplink(t, b)
    ensures LinkAdded(t, a, b, AddLink(t, a, b))
  {
    NotYetLinked(t, a, b);
    assert NextKey({}) == 1;
    assert a != b;
    assert Gapless(PortsOf(t.ports, a), Base(t, a)) && Gapless(PortsOf(t.ports, b), Base(t, b));
  }

  lemma LinkKeepsInverse(t: Net, a: Name, b: Name, t': Net)
    requires SelfInverse(t.ports) && LinkAdded(t, a, b, t') && a != b
    ensures SelfInverse(t'.ports)
  {
    forall c, p, to | PortLeads(t'.ports, c, p, to) ensures PortLeads(t'.ports, to.node, to.port, Port(c, p)) {
      if PortLeads(t.ports, c, p, to) {
        assert PortLeads(t.ports, to.node, to.port, Port(c, p));
      }
    }
  }

  lemma LinkKeepsDense(t: Net, a: Name, b: Name, t': Net)
    requires Dense(t) && LinkAdded(t, a, b, t') && a in t.info && b in t.info && a != b
    ensures Dense(t')
  {
    var p, q := AutoPort(t, a), AutoPort(t, b);
    assert Gapless(PortsOf(t.ports, a), Base(t, a)) && Gapless(PortsOf(t.ports, b), Base(t, b));
    GaplessGrows(PortsOf(t.ports, a), Base(t, a), Port(b, q));
    GaplessGrows(PortsOf(t.ports, b), Base(t, b), Port(a, p));
    forall c | c in t'.ports ensures Gapless(t'.ports[c], Base(t', c)) {
      assert c != a && c != b ==> c in t.ports && t'.ports[c] == t.ports[c];
    }
  }

  lemma LinkKeepsLinks(t: Net, a: Name, b: Name, t': Net)
    requires LinksOk(t) && LinkAdded(t, a, b, t') && a in t.info && b in t.info
    requires t.info[a].level == t.info[b].level + 1 && !HasUplink(t, b)
    ensures LinksOk(t')
  {
    forall id | id in t'.links ensures LinkOk(t', id, t'.links[id]) {
      if id in t.links && id != IdOf(a, b, 1) {
        assert LinkOk(t, id, t.links[id]);
      }
    }
  }

  lemma LinkKeepsGood(t: Net, a: Name, b: Name)
    requires Good(t) && a in t.info && b in t.info && t.info[a].level == t.info[b].level + 1 && !HasUplink(t, b)
    ensures LinkAdded(t, a, b, AddLink(t, a, b)) && Good(AddLink(t, a, b))
  {
    var t' := AddLink(t, a, b);
    LinkIsAdded(t, a, b);
    LinkKeepsInverse(t, a, b, t');
    LinkKeepsDense(t, a, b, t');
    LinkKeepsLinks(t, a, b, t');
  }

  /** The port is free, or leads there already, or only to itself. */
  predicate Available(ports: PortMap, a: Name, p: nat, to: Port) {
    p in PortsOf(ports, a) ==> PortsOf(ports, a)[p] == to || PortsOf(ports, a)[p] == Port(a, p)
  }

  /** A port in use elsewhere is lost: its partner still leads to it, but it no longer leads back. */
  lemma TakenPortBreaks(ports: PortMap, ports': PortMap, x: Port, other: Port)
    requires SelfInverse(ports) && PortLeads(ports', x.node, x.port, other) && !Available(ports, x.node, x.port, other)
    requires forall c, r, to | PortLeads(ports, c, r, to) && Port(c, r) != x && Port(c, r) != other :: PortLeads(ports', c, r, to)
    ensures !SelfInverse(ports')
  {
    var was := PortsOf(ports, x.node)[x.port];
    assert PortLeads(ports, x.node, x.port, was);
    assert PortLeads(ports, was.node, was.port, x);
    assert PortLeads(ports', was.node, was.port, x);
  }

  /** Mapping two given ports to each other keeps the port map its own inverse exactly if neither was in
      use for something else. */
  lemma InverseKeptIff(ports: PortMap, a: Name, p: nat, b: Name, q: nat)
    requires SelfInverse(ports)
    ensures SelfInverse(WithPort(WithPort(ports, a, p, Port(b, q)), b, q, Port(a, p))) <==>
              Available(ports, a, p, Port(b, q)) && Available(ports, b, q, Port(a, p))
  {
    var ports' := WithPort(WithPort(ports, a, p, Port(b, q)), b, q, Port(a, p));
    if !Available(ports, a, p, Port(b, q)) {
      TakenPortBreaks(ports, ports', Port(a, p), Port(b, q));
    } else if !Available(ports, b, q, Port(a, p)) {
      TakenPortBreaks(ports, ports', Port(b, q), Port(a, p));
    } else {
      forall c, r, to | PortLeads(ports', c, r, to) ensures PortLeads(ports', to.node, to.port, Port(c, r)) {
        if PortLeads(ports, c, r, to) {
          assert PortLeads(ports, to.node, to.port, Port(c, r));
        }
      }
    }
  }

  // ---------- the shape ----------

  /** The node that port `i` of `n` leads to. */
  function Behind(t: Net, n: Name, i: nat): Name {
    if i in PortsOf(t.ports, n) then PortsOf(t.ports, n)[i].node else ""
  }

  /** Port `i` of `n` leads down to a child, by a link that starts there. */
  ghost predicate ChildAt(t: Net, n: Name, i: nat) {
    && i in PortsOf(t.ports, n)
    && var to := PortsOf(t.ports, n)[i];
       && to.node in t.info
       && IdOf(n, to.node, 1) in t.links && t.links[IdOf(n, to.node, 1)] == Link(n, to.node, i, to.port)
  }

  /** `n` has children on its ports 1 to `m`, in the order in which they were built. */
  ghost predicate Parent(t: Net, n: Name, m: nat) {
    && (forall i: nat {:trigger ChildAt(t, n, i)} | 1 <= i <= m :: ChildAt(t, n, i))
    && (forall i: nat, j: nat {:trigger ChildAt(t, n, i), ChildAt(t, n, j)} | 1 <= i < j <= m && ChildAt(t, n, i) && ChildAt(t, n, j) ::
          t.info[Behind(t, n, i)].num < t.info[Behind(t, n, j)].num)
  }

  /** `n` is linked to its parent from its last port: `fanout` + 1 on a switch, 0 on a host. */
  ghost predicate UplinkedAt(t: Net, n: Name, fanout: nat) {
    && n in t.info
    && exists id :: id in t.links && t.links[id].node2 == n && t.links[id].port2 == if t.info[n].level > 0 then fanout + 1 else 0
  }

  /** `n` has all its links: down to its children and, unless it is the root, up to its parent. */
  ghost predicate Complete(t: Net, n: Name, fanout: nat, isRoot: bool) {
    && n in t.info
    && (if isRoot then !HasUplink(t, n) else UplinkedAt(t, n, fanout))
    && (t.info[n].level > 0 ==> Parent(t, n, fanout))
    && |PortsOf(t.ports, n)| == (if t.info[n].level > 0 then fanout else 0) + (if isRoot then 0 else 1)
  }

  /** Everything in `t` is still there in `t'`; new links join new nodes, or `top` to new nodes. */
  ghost predicate Extends(t: Net, t': Net, top: Name) {
    && t.hostNum <= t'.hostNum && t.switchNum <= t'.switchNum
    && (forall n {:trigger t.info[n]} {:trigger t'.info[n]} | n in t.info :: n in t'.info && t'.info[n] == t.info[n])
    && (forall id {:trigger t.links[id]} {:trigger t'.links[id]} | id in t.links :: id in t'.links && t'.links[id] == t.links[id])
    && (forall id {:trigger t'.links[id]} | id in t'.links && id !in t.links ::
          t'.links[id].node2 !in t.info && (t'.links[id].node1 in t.info ==> t'.links[id].node1 == top))
    && (forall n {:trigger PortsOf(t'.ports, n)} | n in t.info && n != top :: PortsOf(t'.ports, n) == PortsOf(t.ports, n))
  }

  lemma ExtendsTrans(t: Net, t1: Net, t2: Net, top: Name)
    requires Extends(t, t1, top) && (Extends(t1, t2, top) || (Extends(t1, t2, "") && "" !in t.info))
    ensures Extends(t, t2, top)
  {
  }

  /** Nothing that `t` knows of ports, links and nodes has changed, as far as `n` is concerned. */
  ghost predicate Known(t: Net, t': Net, n: Name) {
    && (forall i: nat {:trigger i in PortsOf(t.ports, n)} | i in PortsOf(t.ports, n) ::
          i in PortsOf(t'.ports, n) && PortsOf(t'.ports, n)[i] == PortsOf(t.ports, n)[i])
    && (forall c {:trigger t'.info[c]} {:trigger c in t'.info} | c in t.info :: c in t'.info && t'.info[c] == t.info[c])
    && (forall id {:trigger t'.links[id]} {:trigger id in t'.links} | id in t.links :: id in t'.links && t'.links[id] == t.links[id])
  }

  lemma ParentKept(t: Net, t': Net, n: Name, m: nat)
    requires Parent(t, n, m) && Known(t, t', n)
    ensures Parent(t', n, m)
  {
    forall i: nat | 1 <= i <= m
      ensures ChildAt(t, n, i) && ChildAt(t', n, i) && Behind(t', n, i) == Behind(t, n, i)
      ensures t'.info[Behind(t, n, i)] == t.info[Behind(t, n, i)]
    {
      assert ChildAt(t, n, i);
    }
  }

  lemma NoNewUplink(t: Net, t': Net, top: Name, n: Name)
    requires Extends(t, t', top) && n in t.info && HasUplink(t', n)
    ensures HasUplink(t, n)
  {
    var id :| id in t'.links && t'.links[id].node2 == n;
    assert id in t.links;
  }

  /** A complete node stays complete as the net grows elsewhere. */
  lemma CompleteKept(t: Net, t': Net, top: Name, n: Name, fanout: nat, isRoot: bool)
    requires Extends(t, t', top) && n in t.info && n != top && Complete(t, n, fanout, isRoot)
    ensures Complete(t', n, fanout, isRoot)
  {
    if HasUplink(t', n) {
      NoNewUplink(t, t', top, n);
    }
    if t.info[n].level > 0 {
      ParentKept(t, t', n, fanout);
    }
  }

  /** A link elsewhere changes nothing for a node. */
  lemma LinkKeepsComplete(t: Net, a: Name, b: Name, t': Net, n: Name, fanout: nat)
    requires LinkAdded(t, a, b, t') && n != a && n != b && Complete(t, n, fanout, false)
    ensures Complete(t', n, fanout, false)
  {
    var id :| id in t.links && t.links[id].node2 == n && t.links[id].port2 == if t.info[n].level > 0 then fanout + 1 else 0;
    assert t'.links[id] == t.links[id];
    if t.info[n].level > 0 {
      ParentKept(t, t', n, fanout);
    }
  }

  /** The uplink completes a subtree's root. */
  lemma UplinkCompletes(t: Net, a: Name, b: Name, t': Net, fanout: nat)
    requires Good(t) && LinkAdded(t, a, b, t') && a != b && Complete(t, b, fanout, true)
    ensures Complete(t', b, fanout, false)
  {
    assert t'.links[IdOf(a, b, 1)] == Link(a, b, AutoPort(t, a), AutoPort(t, b));
    if t.info[b].level > 0 {
      ParentKept(t, t', b, fanout);
    }
  }

  /** The first `m` children have numbers below `num`. */
  ghost predicate NumberedBelow(t: Net, n: Name, m: nat, num: nat) {
    forall i: nat {:trigger ChildAt(t, n, i)} | 1 <= i <= m :: ChildAt(t, n, i) && t.info[Behind(t, n, i)].num < num
  }

  /** The link to the next child. */
  lemma NextChild(t: Net, a: Name, b: Name, t': Net, m: nat)
    requires LinkAdded(t, a, b, t') && a != b && a in t.info && b in t.info && t.info[a].level > 0
    requires Parent(t, a, m) && |PortsOf(t.ports, a)| == m
    requires NumberedBelow(t, a, m, t.info[b].num)
    ensures Parent(t', a, m + 1) && |PortsOf(t'.ports, a)| == m + 1
  {
    ParentKept(t, t', a, m);
    assert ChildAt(t', a, m + 1) && Behind(t', a, m + 1) == b;
    forall i: nat | 1 <= i <= m ensures ChildAt(t', a, i) && t'.info[Behind(t', a, i)].num < t'.info[b].num {
      assert ChildAt(t, a, i) && ChildAt(t', a, i);
    }
  }

  lemma ExtendsLink(t: Net, s: Net, root: Name, b: Name, s': Net)
    requires Extends(t, s, root) && LinkAdded(s, root, b, s') && b !in t.info
    ensures Extends(t, s', root)
  {
    forall n | n in t.info && n != root ensures PortsOf(s'.ports, n) == PortsOf(t.ports, n) {
      assert PortsOf(s.ports, n) == PortsOf(t.ports, n);
    }
  }

  // ---------- the induction ----------

  /** The new nodes, other than `root`, are complete and below `depth`. */
  ghost predicate NewComplete(t: Net, t': Net, root: Name, depth: nat, fanout: nat) {
    forall n {:trigger Complete(t', n, fanout, false)} {:trigger t'.info[n]} | n in t'.info && n !in t.info && n != root ::
      Complete(t', n, fanout, false) && t'.info[n].level < depth
  }

  /** What building a subtree achieves. */
  ghost predicate TreeResult(t: Net, b: Built, depth: nat, fanout: nat) {
    && Good(b.net) && Extends(t, b.net, "")
    && b.root !in t.info && Complete(b.net, b.root, fanout, true)
    && b.net.info[b.root] == NodeInfo(depth, if depth > 0 then t.switchNum else t.hostNum)
    && NewComplete(t, b.net, b.root, depth, fanout)
    && b.net.hostNum == t.hostNum + Power(fanout, depth)
    && b.net.switchNum == t.switchNum + Switches(depth, fanout)
    && |b.net.links| + 1 == |t.links| + Power(fanout, depth) + Switches(depth, fanout)
  }

  /** What building the first `n` children of `root` achieves. */
  ghost predicate ChildrenResult(t: Net, t': Net, root: Name, depth: nat, fanout: nat, n: nat)
    requires depth > 0
  {
    && Good(t') && Extends(t, t', root)
    && !HasUplink(t', root) && Parent(t', root, n) && |PortsOf(t'.ports, root)| == n
    && NewComplete(t, t', root, depth, fanout)
    && t'.hostNum == t.hostNum + n * Power(fanout, depth - 1)
    && t'.switchNum == t.switchNum + n * Switches(depth - 1, fanout)
    && |t'.links| == |t.links| + n * (Power(fanout, depth - 1) + Switches(depth - 1, fanout))
  }

  lemma NamesAreNonempty(t: Net)
    requires WellNamed(t)
    ensures "" !in t.info
  {
    forall n | n in t.info ensures |n| > 0 {
      assert n == NameOf(t.info[n]);
    }
  }

  lemma HostResult(t: Net, fanout: nat)
    requires Good(t)
    ensures TreeResult(t, AddTree(t, 0, fanout), 0, fanout)
  {
    HostKeepsGood(t);
    var b := AddTree(t, 0, fanout);
    NewNodeIsBare(t, b.root);
    assert Complete(b.net, b.root, fanout, true);
  }

  /** A node that is not there yet has no links and no ports. */
  lemma NewNodeIsBare(t: Net, n: Name)
    requires Good(t) && n !in t.info
    ensures !HasUplink(t, n) && PortsOf(t.ports, n) == map[]
  {
    forall id | id in t.links ensures t.links[id].node2 != n {
      assert LinkOk(t, id, t.links[id]);
    }
  }

  lemma NoChildrenYet(t: Net, depth: nat, fanout: nat)
    requires Good(t) && depth > 0
    ensures ChildrenResult(AddSwitch(t, depth), AddSwitch(t, depth), SwitchName(t.switchNum), depth, fanout, 0)
  {
    SwitchKeepsGood(t, depth);
    NewNodeIsBare(t, SwitchName(t.switchNum));
  }

  lemma Distribute(n: nat, x: nat)
    requires n > 0
    ensures n * x == (n - 1) * x + x
  {
  }

  /** One more subtree, not yet linked. */
  lemma SubtreeJoins(t: Net, t1: Net, root: Name, depth: nat, fanout: nat, n: nat, sub: Built)
    requires depth > 0 && ChildrenResult(t, t1, root, depth, fanout, n) && root in t.info && t.info[root].level == depth
    requires TreeResult(t1, sub, depth - 1, fanout)
    ensures Extends(t, sub.net, root) && !HasUplink(sub.net, root) && Parent(sub.net, root, n) && |PortsOf(sub.net.ports, root)| == n
    ensures root in t1.info && t1.info[root] == t.info[root]
    ensures sub.root !in t.info && root in sub.net.info && sub.net.info[root] == t.info[root]
  {
    NamesAreNonempty(t1);
    assert root in t1.info && t1.info[root] == t.info[root];
    ExtendsTrans(t, t1, sub.net, root);
    if HasUplink(sub.net, root) {
      NoNewUplink(t1, sub.net, "", root);
    }
    assert PortsOf(sub.net.ports, root) == PortsOf(t1.ports, root);
    ParentKept(t1, sub.net, root, n);
  }

  lemma SubtreesComplete(t: Net, t1: Net, root: Name, depth: nat, fanout: nat, sub: Built, t2: Net, m: Name)
    requires Good(t1) && Good(sub.net) && Extends(t1, sub.net, "") && NewComplete(t, t1, root, depth + 1, fanout)
    requires NewComplete(t1, sub.net, sub.root, depth, fanout) && Complete(sub.net, sub.root, fanout, true)
    requires sub.net.info[sub.root].level == depth && LinkAdded(sub.net, root, sub.root, t2) && root in t.info && root != sub.root
    requires m in t2.info && m !in t.info && m != root
    ensures Complete(t2, m, fanout, false) && t2.info[m].level < depth + 1
  {
    if m == sub.root {
      UplinkCompletes(sub.net, root, sub.root, t2, fanout);
    } else {
      if m in t1.info {
        NamesAreNonempty(t1);
        assert sub.net.info[m] == t1.info[m];
        CompleteKept(t1, sub.net, "", m, fanout, false);
      }
      assert sub.net.info[m].level < depth + 1;
      LinkKeepsComplete(sub.net, root, sub.root, t2, m, fanout);
    }
  }

  /** Earlier children have smaller numbers. */
  lemma ChildNumbers(t1: Net, root: Name, depth: nat, n: nat, t2: Net, num: nat)
    requires depth > 0 && Good(t1) && root in t1.info && t1.info[root].level == depth && Parent(t1, root, n)
    requires Extends(t1, t2, "") && Parent(t2, root, n) && PortsOf(t2.ports, root) == PortsOf(t1.ports, root)
    requires num == if depth - 1 > 0 then t1.switchNum else t1.hostNum
    ensures NumberedBelow(t2, root, n, num)
  {
    forall i: nat | 1 <= i <= n ensures ChildAt(t2, root, i) && t2.info[Behind(t2, root, i)].num < num {
      assert ChildAt(t1, root, i) && ChildAt(t2, root, i);
      var c := Behind(t1, root, i);
      assert LinkOk(t1, IdOf(root, c, 1), t1.links[IdOf(root, c, 1)]);
      assert t2.info[c] == t1.info[c];
    }
  }

  lemma SubtreeNumbers(t1: Net, root: Name, depth: nat, n: nat, sub: Built, fanout: nat)
    requires depth > 0 && Good(t1) && root in t1.info && t1.info[root].level == depth && Parent(t1, root, n)
    requires TreeResult(t1, sub, depth - 1, fanout)
    ensures NumberedBelow(sub.net, root, n, sub.net.info[sub.root].num)
  {
    NamesAreNonempty(t1);
    assert PortsOf(sub.net.ports, root) == PortsOf(t1.ports, root);
    ParentKept(t1, sub.net, root, n);
    ChildNumbers(t1, root, depth, n, sub.net, sub.net.info[sub.root].num);
  }

  lemma ChildCounts(t: Net, t1: Net, root: Name, depth: nat, fanout: nat, n: nat, sub: Built, t2: Net)
    requires depth > 0 && n > 0 && ChildrenResult(t, t1, root, depth, fanout, n - 1) && TreeResult(t1, sub, depth - 1, fanout)
    requires LinkAdded(sub.net, root, sub.root, t2)
    ensures t2.hostNum == t.hostNum + n * Power(fanout, depth - 1)
    ensures t2.switchNum == t.switchNum + n * Switches(depth - 1, fanout)
    ensures |t2.links| == |t.links| + n * (Power(fanout, depth - 1) + Switches(depth - 1, fanout))
  {
    Distribute(n, Power(fanout, depth - 1));
    Distribute(n, Switches(depth - 1, fanout));
    Distribute(n, Power(fanout, depth - 1) + Switches(depth - 1, fanout));
    MapGrows(sub.net.links, IdOf(root, sub.root, 1), t2.links[IdOf(root, sub.root, 1)]);
  }

  lemma OneMoreChild(t: Net, t1: Net, root: Name, depth: nat, fanout: nat, n: nat, sub: Built)
    requires depth > 0 && n > 0 && ChildrenResult(t, t1, root, depth, fanout, n - 1) && root in t.info && t.info[root].level == depth
    requires TreeResult(t1, sub, depth - 1, fanout)
    ensures ChildrenResult(t, AddLink(sub.net, root, sub.root), root, depth, fanout, n)
  {
    var t2 := AddLink(sub.net, root, sub.root);
    SubtreeJoins(t, t1, root, depth, fanout, n - 1, sub);
    SubtreeNumbers(t1, root, depth, n - 1, sub, fanout);
    LinkKeepsGood(sub.net, root, sub.root);
    ExtendsLink(t, sub.net, root, sub.root, t2);
    NextChild(sub.net, root, sub.root, t2, n - 1);
    ChildCounts(t, t1, root, depth, fanout, n, sub, t2);
    forall m | m in t2.info && m !in t.info && m != root ensures Complete(t2, m, fanout, false) && t2.info[m].level < depth {
      SubtreesComplete(t, t1, root, depth - 1, fanout, sub, t2, m);
    }
  }

  /** Building a subtree always has that result. */
  lemma {:induction false} TreeBuilt(t: Net, depth: nat, fanout: nat)
    requires Good(t)
    ensures TreeResult(t, AddTree(t, depth, fanout), depth, fanout)
    decreases depth, 1, 0
  {
    if depth == 0 {
      HostResult(t, fanout);
    } else {
      ChildrenBuilt(t, depth, fanout, fanout);
      SwitchResult(t, depth, fanout, AddChildren(AddSwitch(t, depth), SwitchName(t.switchNum), depth, fanout, fanout));
    }
  }

  lemma {:induction false} ChildrenBuilt(t: Net, depth: nat, fanout: nat, n: nat)
    requires Good(t) && depth > 0
    ensures ChildrenResult(AddSwitch(t, depth), AddChildren(AddSwitch(t, depth), SwitchName(t.switchNum), depth, fanout, n),
                           SwitchName(t.switchNum), depth, fanout, n)
    decreases depth, 0, n
  {
    var root, t0 := SwitchName(t.switchNum), AddSwitch(t, depth);
    if n == 0 {
      NoChildrenYet(t, depth, fanout);
    } else {
      ChildrenBuilt(t, depth, fanout, n - 1);
      var t1 := AddChildren(t0, root, depth, fanout, n - 1);
      TreeBuilt(t1, depth - 1, fanout);
      OneMoreChild(t0, t1, root, depth, fanout, n, AddTree(t1, depth - 1, fanout));
    }
  }

  /** The next subtree can be built and then linked. */
  lemma ChildReady(t: Net, depth: nat, fanout: nat, n: nat)
    requires Good(t) && depth > 0
    ensures var root := SwitchName(t.switchNum);
            var t1 := AddChildren(AddSwitch(t, depth), root, depth, fanout, n);
            var sub := AddTree(t1, depth - 1, fanout);
            Good(t1) && root in sub.net.info && sub.root in sub.net.info
  {
    var root := SwitchName(t.switchNum);
    ChildrenBuilt(t, depth, fanout, n);
    var t1 := AddChildren(AddSwitch(t, depth), root, depth, fanout, n);
    TreeBuilt(t1, depth - 1, fanout);
    assert root in AddSwitch(t, depth).info && root in t1.info;
  }

  /** What extends the net with a new switch, at that switch, extends the net. */
  lemma ExtendsSwitch(t: Net, depth: nat, t': Net)
    requires Good(t) && Extends(AddSwitch(t, depth), t', SwitchName(t.switchNum))
    ensures Extends(t, t', "")
  {
    FreshNames(t);
    var t0 := AddSwitch(t, depth);
    forall n | n in t.info ensures n in t'.info && t'.info[n] == t.info[n] && PortsOf(t'.ports, n) == PortsOf(t.ports, n) {
      assert t0.info[n] == t.info[n];
    }
    forall id | id in t'.links && id !in t.links ensures t'.links[id].node2 !in t.info && t'.links[id].node1 !in t.info {
      assert t'.links[id].node2 !in t0.info;
    }
  }

  lemma SwitchResult(t: Net, depth: nat, fanout: nat, t': Net)
    requires Good(t) && depth > 0
    requires ChildrenResult(AddSwitch(t, depth), t', SwitchName(t.switchNum), depth, fanout, fanout)
    ensures TreeResult(t, Built(t', SwitchName(t.switchNum)), depth, fanout)
  {
    FreshNames(t);
    ExtendsSwitch(t, depth, t');
    var root, t0 := SwitchName(t.switchNum), AddSwitch(t, depth);
    assert t0.info[root] == NodeInfo(depth, t.switchNum) && t'.info[root] == t0.info[root];
    assert fanout * (Power(fanout, depth - 1) + Switches(depth - 1, fanout)) ==
           fanout * Power(fanout, depth - 1) + fanout * Switches(depth - 1, fanout);
    forall n | n in t'.info && n !in t.info && n != root ensures Complete(t', n, fanout, false) && t'.info[n].level < depth {
      assert n !in t0.info;
    }
  }

  // ---------- trees ----------

  /** The topology with the given depth and fanout. */
  function Tree(depth: nat, fanout: nat): Built { AddTree(EmptyNet, depth, fanout) }

  lemma TreeIsBuilt(depth: nat, fanout: nat)
    ensures TreeResult(EmptyNet, Tree(depth, fanout), depth, fanout)
  {
    assert Good(EmptyNet);
    TreeBuilt(EmptyNet, depth, fanout);
  }

  function Hosts(t: Net): set<Name> { set n | n in t.info && t.info[n].level == 0 }

  function HostNames(h: nat): set<Name> {
    if h <= 1 then {} else HostNames(h - 1) + {HostName(h - 1)}
  }

  function SwitchNames(h: nat): set<Name> {
    if h <= 1 then {} else SwitchNames(h - 1) + {SwitchName(h - 1)}
  }

  lemma {:induction false} HostNamesAre(h: nat, n: Name)
    ensures n in HostNames(h) <==> exists k: nat :: 1 <= k < h && n == HostName(k)
  {
    if h > 1 {
      HostNamesAre(h - 1, n);
    }
  }

  lemma {:induction false} SwitchNamesAre(h: nat, n: Name)
    ensures n in SwitchNames(h) <==> exists k: nat :: 1 <= k < h && n == SwitchName(k)
  {
    if h > 1 {
      SwitchNamesAre(h - 1, n);
    }
  }

  lemma {:induction false} HostNamesCount(h: nat)
    requires h >= 1
    ensures |HostNames(h)| == h - 1
  {
    if h > 1 {
      HostNamesCount(h - 1);
      if HostName(h - 1) in HostNames(h - 1) {
        HostNamesAre(h - 1, HostName(h - 1));
        var k: nat :| 1 <= k < h - 1 && HostName(h - 1) == HostName(k);
        NamesAreDistinct(h - 1, k);
      }
    }
  }

  lemma {:induction false} SwitchNamesCount(h: nat)
    requires h >= 1
    ensures |SwitchNames(h)| == h - 1
  {
    if h > 1 {
      SwitchNamesCount(h - 1);
      if SwitchName(h - 1) in SwitchNames(h - 1) {
        SwitchNamesAre(h - 1, SwitchName(h - 1));
        var k: nat :| 1 <= k < h - 1 && SwitchName(h - 1) == SwitchName(k);
        NamesAreDistinct(h - 1, k);
      }
    }
  }

  /** The counters tell how many nodes there are. */
  lemma NodesCount(t: Net)
    requires WellNamed(t)
    ensures |Hosts(t)| == t.hostNum - 1 && |t.info| == (t.hostNum - 1) + (t.switchNum - 1)
  {
    var hs, ss := HostNames(t.hostNum), SwitchNames(t.switchNum);
    HostNamesCount(t.hostNum);
    SwitchNamesCount(t.switchNum);
    forall n ensures n in Hosts(t) <==> n in hs {
      HostNamesAre(t.hostNum, n);
      if n in hs {
        var k: nat :| 1 <= k < t.hostNum && n == HostName(k);
        NamesAreDistinct(t.info[n].num, k);
      }
    }
    assert Hosts(t) == hs;
    forall n ensures n in t.info <==> n in hs + ss {
      HostNamesAre(t.hostNum, n);
      SwitchNamesAre(t.switchNum, n);
    }
    assert t.info.Keys == hs + ss;
    forall n | n in hs ensures n !in ss {
      HostNamesAre(t.hostNum, n);
      SwitchNamesAre(t.switchNum, n);
      var k: nat :| 1 <= k < t.hostNum && n == HostName(k);
      forall j: nat ensures SwitchName(j) != n {
        NamesAreDistinct(j, k);
      }
    }
    assert |hs + ss| == |hs| + |ss|;
    assert |t.info.Keys| == |t.info|;
  }

  // ---------- connected ----------

  ghost predicate Joins(t: Net, id: LinkId, a: Name, b: Name) {
    id in t.links && ((t.links[id].node1 == a && t.links[id].node2 == b) || (t.links[id].node1 == b && t.links[id].node2 == a))
  }

  ghost predicate IsWalk(t: Net, w: seq<Name>, ids: seq<LinkId>) {
    |w| == |ids| + 1 && forall i {:trigger ids[i]} | 0 <= i < |ids| :: Joins(t, ids[i], w[i], w[i + 1])
  }

  /** Every node but the root has an uplink and is below `depth`. */
  ghost predicate Rooted(t: Net, root: Name, depth: nat) {
    forall n {:trigger HasUplink(t, n)} | n in t.info && n != root :: HasUplink(t, n) && t.info[n].level < depth
  }

  lemma TreeIsRooted(b: Built, depth: nat, fanout: nat)
    requires TreeResult(EmptyNet, b, depth, fanout)
    ensures Rooted(b.net, b.root, depth)
  {
    forall n | n in b.net.info && n != b.root ensures HasUplink(b.net, n) && b.net.info[n].level < depth {
      assert Complete(b.net, n, fanout, false);
    }
  }

  /** Going up from a node leads to the root. */
  lemma {:induction false} Climb(t: Net, root: Name, depth: nat, n: Name) returns (w: seq<Name>, ids: seq<LinkId>)
    requires LinksOk(t) && Rooted(t, root, depth) && n in t.info
    ensures IsWalk(t, w, ids) && w[0] == n && w[|w| - 1] == root
    decreases depth - t.info[n].level
  {
    if n == root {
      w, ids := [n], [];
    } else {
      assert HasUplink(t, n);
      var id :| id in t.links && t.links[id].node2 == n;
      var up := t.links[id].node1;
      assert LinkOk(t, id, t.links[id]);
      w, ids := Climb(t, root, depth, up);
      assert Joins(t, id, n, up);
      WalkOn(t, [n, up], [id], w, ids);
      assert [n, up] + w[1..] == [n] + w;
      w, ids := [n] + w, [id] + ids;
    }
  }

  function Reversed<T>(s: seq<T>): (r: seq<T>)
    ensures |r| == |s| && forall i | 0 <= i < |s| :: r[i] == s[|s| - 1 - i]
  {
    if s == [] then [] else Reversed(s[1..]) + [s[0]]
  }

  lemma WalkBack(t: Net, w: seq<Name>, ids: seq<LinkId>)
    requires IsWalk(t, w, ids)
    ensures IsWalk(t, Reversed(w), Reversed(ids))
  {
    forall i | 0 <= i < |ids| ensures Joins(t, Reversed(ids)[i], Reversed(w)[i], Reversed(w)[i + 1]) {
      assert Joins(t, ids[|ids| - 1 - i], w[|ids| - 1 - i], w[|ids| - i]);
    }
  }

  lemma WalkOn(t: Net, w: seq<Name>, ids: seq<LinkId>, w': seq<Name>, ids': seq<LinkId>)
    requires IsWalk(t, w, ids) && IsWalk(t, w', ids') && w[|w| - 1] == w'[0]
    ensures IsWalk(t, w + w'[1..], ids + ids')
  {
    var v, js := w + w'[1..], ids + ids';
    forall i | 0 <= i < |js| ensures Joins(t, js[i], v[i], v[i + 1]) {
      if i < |ids| {
        assert Joins(t, ids[i], w[i], w[i + 1]);
      } else {
        assert Joins(t, ids'[i - |ids|], w'[i - |ids|], w'[i - |ids| + 1]);
      }
    }
  }

  /** Any two nodes are joined by a walk along links. */
  lemma Connected(depth: nat, fanout: nat, a: Name, c: Name) returns (w: seq<Name>, ids: seq<LinkId>)
    requires a in Tree(depth, fanout).net.info && c in Tree(depth, fanout).net.info
    ensures IsWalk(Tree(depth, fanout).net, w, ids) && w[0] == a && w[|w| - 1] == c
  {
    TreeIsBuilt(depth, fanout);
    var b := Tree(depth, fanout);
    TreeIsRooted(b, depth, fanout);
    var w1, ids1 := Climb(b.net, b.root, depth, a);
    var w2, ids2 := Climb(b.net, b.root, depth, c);
    WalkBack(b.net, w2, ids2);
    WalkOn(b.net, w1, ids1, Reversed(w2), Reversed(ids2));
    w, ids := w1 + Reversed(w2)[1..], ids1 + Reversed(ids2);
  }

  // ---------- acyclic ----------

  /** A closed walk that uses no link twice. */
  ghost predicate IsCycle(t: Net, w: seq<Name>, ids: seq<LinkId>) {
    && IsWalk(t, w, ids) && ids != [] && w[0] == w[|w| - 1]
    && forall i, j | 0 <= i < j < |ids| :: ids[i] != ids[j]
  }

  lemma {:induction false} LowestOf(t: Net, w: seq<Name>, n: nat) returns (i: nat)
    requires 0 < n <= |w| && forall k | 0 <= k < |w| :: w[k] in t.info
    ensures i < n && forall k | 0 <= k < n :: t.info[w[i]].level <= t.info[w[k]].level
  {
    if n == 1 {
      i := 0;
    } else {
      i := LowestOf(t, w, n - 1);
      if t.info[w[n - 1]].level < t.info[w[i]].level {
        i := n - 1;
      }
    }
  }

  /** The link between a node and one that is no lower is the node's uplink. */
  lemma LinkUp(t: Net, id: LinkId, a: Name, b: Name)
    requires LinksOk(t) && Joins(t, id, a, b) && a in t.info && b in t.info && t.info[a].level <= t.info[b].level
    ensures t.links[id].node2 == a
  {
    assert LinkOk(t, id, t.links[id]);
  }

  /** No closed walk is free of repeated links: its lowest node would have two uplinks. */
  lemma Acyclic(t: Net, w: seq<Name>, ids: seq<LinkId>)
    requires LinksOk(t)
    ensures !IsCycle(t, w, ids)
  {
    if IsCycle(t, w, ids) {
      WalkStays(t, w, ids);
      var n := |ids|;
      var i := LowestOf(t, w, n);
      var before := if i == 0 then n - 1 else i - 1;
      assert Joins(t, ids[i], w[i], w[i + 1]) && Joins(t, ids[before], w[before], w[before + 1]);
      assert w[before + 1] == w[i];
      LinkUp(t, ids[i], w[i], w[i + 1]);
      LinkUp(t, ids[before], w[i], w[before]);
    }
  }

  lemma WalkStays(t: Net, w: seq<Name>, ids: seq<LinkId>)
    requires LinksOk(t) && IsWalk(t, w, ids) && ids != []
    ensures forall k | 0 <= k < |w| :: w[k] in t.info
  {
    forall k | 0 <= k < |w| ensures w[k] in t.info {
      var i := if k < |ids| then k else k - 1;
      assert Joins(t, ids[i], w[i], w[i + 1]) && LinkOk(t, ids[i], t.links[ids[i]]);
    }
  }

  /** The shape of a tree topology: as many hosts as `fanout` to the power of `depth`, one link less
      than nodes, no cycle, and every node complete: child `i` on port `i`, the uplink on the last port.
      The port map is its own inverse. */
  lemma TreeShape(depth: nat, fanout: nat)
    ensures var b := Tree(depth, fanout);
            && |Hosts(b.net)| == Power(fanout, depth)
            && |b.net.links| + 1 == |b.net.info|
            && SelfInverse(b.net.ports)
            && b.root in b.net.info
            && (forall n | n in b.net.info :: Complete(b.net, n, fanout, n == b.root))
            && (forall w, ids :: !IsCycle(b.net, w, ids))
  {
    TreeIsBuilt(depth, fanout);
    var b := Tree(depth, fanout);
    NodesCount(b.net);
    forall w, ids ensures !IsCycle(b.net, w, ids) {
      Acyclic(b.net, w, ids);
    }
  }
}
