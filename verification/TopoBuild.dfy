/** The topology object, built in place. */
module TopoBuild {
  import opened Options
  import opened TopoNames
  import opened TopoGraph
  import T = TopoTree

  class TreeTopo {
    const g: MultiGraph
    var ports: T.PortMap
    var hostNum: nat
    var switchNum: nat
    ghost var info: map<Name, T.NodeInfo>

    ghost predicate Valid()
      reads this, g, g.repr
    {
      g.Valid() && info.Keys == g.node.Keys && forall n {:trigger info[n]} | n in info :: g.node[n] <==> info[n].level > 0
    }

    ghost function View(): T.Net
      reads this, g
    {
      T.Net(info, g.all, ports, hostNum, switchNum)
    }

    /** Builds the tree with the given depth and fanout. */
    constructor (depth: int, fanout: int)
      ensures Valid() && View() == T.Tree(Clip(depth), Clip(fanout)).net
    {
      g := new MultiGraph();
      ports, info := map[], map[];
      hostNum, switchNum := 1, 1;
      new;
      assert T.Good(View());
      var _ := AddTree(depth, fanout);
    }

    method AddHost(name: Name)
      requires Valid() && name !in info
      modifies g`node, `info
      ensures Valid() && info == old(info)[name := T.NodeInfo(0, hostNum)]
    {
      g.AddNode(name, false);
      info := info[name := T.NodeInfo(0, hostNum)];
    }

    method AddSwitch(name: Name, ghost level: nat)
      requires Valid() && name !in info && level > 0
      modifies g`node, `info
      ensures Valid() && info == old(info)[name := T.NodeInfo(level, switchNum)]
    {
      g.AddNode(name, true);
      info := info[name := T.NodeInfo(level, switchNum)];
    }

    /** Maps the ports of a new link; a port that is not given is the next one. */
    method AddPort(src: Name, dst: Name, sport0: Option<nat>, dport0: Option<nat>) returns (sport: nat, dport: nat)
      requires Valid() && src in info && dst in info
      modifies `ports
      ensures sport == if sport0.Some? then sport0.value else T.AutoPort(old(View()), src)
      ensures dport == if dport0.Some? then dport0.value else T.AutoPort(old(View()), dst)
      ensures ports == T.WithPort(T.WithPort(old(ports), src, sport, T.Port(dst, dport)), dst, dport, T.Port(src, sport))
    {
      var p, q := T.PortsOf(ports, src), T.PortsOf(ports, dst);
      if sport0.Some? {
        sport := sport0.value;
      } else {
        sport := |p| + if g.node[src] then 1 else 0;
      }
      if dport0.Some? {
        dport := dport0.value;
      } else {
        dport := |q| + if g.node[dst] then 1 else 0;
      }
      ports := T.WithPort(ports, src, sport, T.Port(dst, dport));
      ports := T.WithPort(ports, dst, dport, T.Port(src, sport));
    }

    method AddLink(a: Name, b: Name)
      requires Valid() && a in info && b in info
      modifies `ports, g, g.repr
      ensures Valid() && fresh(g.repr - old(g.repr)) && old(g.repr) <= g.repr
      ensures View() == T.AddLink(old(View()), a, b)
    {
      var p, q := AddPort(a, b, None, None);
      var _ := g.AddEdge(a, b, None, Link(a, b, p, q));
    }

    /** Adds a subtree and returns its root. */
    method AddTree(depth: int, fanout: int) returns (node: Name)
      requires Valid() && T.Good(View())
      modifies this, g, g.repr
      ensures Valid() && fresh(g.repr - old(g.repr)) && old(g.repr) <= g.repr
      ensures T.Built(View(), node) == T.AddTree(old(View()), Clip(depth), Clip(fanout))
      decreases Clip(depth), 1
    {
      hide T.Good, T.AddChildren, SwitchName, HostName, Shared, Between;
      if depth > 0 {
        node := PlantSwitch(depth);
        AddChildren(node, depth, fanout, old(View()));
      } else {
        node := PlantHost();
      }
    }

    method PlantSwitch(ghost level: nat) returns (node: Name)
      requires Valid() && T.Good(View()) && level > 0
      modifies `info, `switchNum, g`node
      ensures Valid() && node == SwitchName(old(switchNum)) && View() == T.AddSwitch(old(View()), level)
    {
      hide T.Good, SwitchName, HostName, Shared, Between;
      T.FreshNames(View());
      node := SwitchName(switchNum);
      AddSwitch(node, level);
      switchNum := switchNum + 1;
    }

    method PlantHost() returns (node: Name)
      requires Valid() && T.Good(View())
      modifies `info, `hostNum, g`node
      ensures Valid() && node == HostName(old(hostNum)) && View() == T.AddHost(old(View()))
    {
      hide T.Good, SwitchName, HostName, Shared, Between;
      T.FreshNames(View());
      node := HostName(hostNum);
      AddHost(node);
      hostNum := hostNum + 1;
    }

    method AddChildren(node: Name, depth: int, fanout: int, ghost t: T.Net)
      requires Valid() && depth > 0 && T.Good(t) && View() == T.AddSwitch(t, depth) && node == SwitchName(t.switchNum)
      modifies this, g, g.repr
      ensures Valid() && fresh(g.repr - old(g.repr)) && old(g.repr) <= g.repr
      ensures View() == T.AddChildren(old(View()), node, depth, Clip(fanout), Clip(fanout))
      decreases Clip(depth), 0
    {
      hide T.Good, T.AddSwitch, T.AddLink, T.AddTree;
      var i := 0;
      while i < fanout
        invariant 0 <= i && (i <= fanout || i == 0)
        invariant Valid() && fresh(g.repr - old(g.repr)) && old(g.repr) <= g.repr
        invariant View() == T.AddChildren(old(View()), node, depth, Clip(fanout), i)
      {
        AddChild(node, depth, fanout, t, i);
        i := i + 1;
      }
    }

    method AddChild(node: Name, depth: int, fanout: int, ghost t: T.Net, ghost i: nat)
      requires Valid() && depth > 0 && T.Good(t) && node == SwitchName(t.switchNum)
      requires View() == T.AddChildren(T.AddSwitch(t, depth), node, depth, Clip(fanout), i)
      modifies this, g, g.repr
      ensures Valid() && fresh(g.repr - old(g.repr)) && old(g.repr) <= g.repr
      ensures View() == T.AddChildren(T.AddSwitch(t, depth), node, depth, Clip(fanout), i + 1)
      decreases Clip(depth) - 1, 2
    {
      hide T.Good, T.AddLink, T.AddTree;
      T.ChildReady(t, depth, Clip(fanout), i);
      var child := AddTree(depth - 1, fanout);
      AddLink(node, child);
    }

    /** All links, each exactly once. */
    method Links() returns (r: seq<(LinkId, Link)>)
      requires Valid()
      ensures Lists(r, View().links, View().links.Keys)
    {
      r := g.Edges();
    }
  }

  /** Depths and fanouts below 0 count as 0. */
  function Clip(n: int): nat { if n > 0 then n else 0 }
}
