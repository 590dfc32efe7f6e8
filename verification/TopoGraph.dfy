/** The multigraph under a topology.  The links between two nodes sit in one table that is shared by
    both directions, so that adding a link through one is seen through the other. */
module TopoGraph {
  import opened Options
  import opened TopoNames

  type Name = string

  datatype Link = Link(node1: Name, node2: Name, port1: nat, port2: nat)

  /** A link's place: its nodes in the order of their names, and its key. */
  datatype LinkId = LinkId(lo: Name, hi: Name, key: nat)

  function IdOf(a: Name, b: Name, key: nat): LinkId {
    if Less(b, a) then LinkId(b, a, key) else LinkId(a, b, key)
  }

  type LinkMap = map<LinkId, Link>

  function Largest(s: set<nat>): (m: nat)
    ensures forall x | x in s :: x <= m
    ensures if s == {} then m == 0 else m in s
  {
    if s == {} then 0
    else
      LargestExists(s);
      var m :| m in s && forall x | x in s :: x <= m;
      m
  }

  lemma {:induction false} LargestExists(s: set<nat>)
    requires s != {}
    ensures exists m :: m in s && forall x | x in s :: x <= m
  {
    var x :| x in s;
    var rest := s - {x};
    if rest == {} {
      assert s == {x};
    } else {
      LargestExists(rest);
      var m :| m in rest && forall y | y in rest :: y <= m;
      var z := if x <= m then m else x;
      assert z in s && forall y | y in s :: y == x || y in rest;
    }
  }

  /** The keys of the links between two nodes. */
  function KeysOf(links: LinkMap, a: Name, b: Name): set<nat> {
    set id | id in links && id == IdOf(a, b, id.key) :: id.key
  }

  /** The key an unnamed link gets. */
  function NextKey(keys: set<nat>): (k: nat)
    ensures k !in keys && k > 0
  {
    Largest(keys) + 1
  }

  class LinkTable {
    var links: map<nat, Link>

    constructor ()
      ensures links == map[]
    {
      links := map[];
    }
  }

  /** `r` lists the links of `ids`, each exactly once. */
  ghost predicate Lists(r: seq<(LinkId, Link)>, all: LinkMap, ids: set<LinkId>) {
    && (forall i | 0 <= i < |r| :: r[i].0 in ids && r[i].0 in all && r[i].1 == all[r[i].0])
    && (forall i, j | 0 <= i < j < |r| :: r[i].0 != r[j].0)
    && (forall id | id in ids :: exists i :: 0 <= i < |r| && r[i].0 == id)
  }

  lemma OneMoreListed(r: seq<(LinkId, Link)>, all: LinkMap, ids: set<LinkId>, id: LinkId)
    requires Lists(r, all, ids) && id in all && id !in ids
    ensures Lists(r + [(id, all[id])], all, ids + {id})
  {
    var r' := r + [(id, all[id])];
    forall x | x in ids + {id} ensures exists i :: 0 <= i < |r'| && r'[i].0 == x {
      if x == id {
        assert r'[|r|].0 == x;
      } else {
        var i :| 0 <= i < |r| && r[i].0 == x;
        assert r'[i].0 == x;
      }
    }
  }

  /** The links of `all` between two nodes, by key. */
  function Between(all: LinkMap, a: Name, b: Name): map<nat, Link> {
    map k | k in KeysOf(all, a, b) :: all[IdOf(a, b, k)]
  }

  lemma BetweenKeys(all: LinkMap, a: Name, b: Name)
    ensures Between(all, a, b).Keys == KeysOf(all, a, b)
  {
  }

  lemma IdIsSymmetric(a: Name, b: Name, key: nat)
    ensures IdOf(a, b, key) == IdOf(b, a, key)
    ensures !Less(IdOf(a, b, key).hi, IdOf(a, b, key).lo)
    ensures IdOf(a, b, key) == LinkId(a, b, key) || IdOf(a, b, key) == LinkId(b, a, key)
  {
    LessIsTotal(a, b);
  }

  /** A new link shows between its own nodes only. */
  lemma BetweenAfter(all: LinkMap, a: Name, b: Name, key: nat, link: Link, x: Name, y: Name)
    ensures Between(all[IdOf(a, b, key) := link], x, y) ==
              if (x == a && y == b) || (x == b && y == a) then Between(all, x, y)[key := link] else Between(all, x, y)
  {
    LessIsTotal(a, b);
    LessIsTotal(x, y);
    var all' := all[IdOf(a, b, key) := link];
    if (x == a && y == b) || (x == b && y == a) {
      assert IdOf(x, y, key) == IdOf(a, b, key);
      assert KeysOf(all', x, y) == KeysOf(all, x, y) + {key};
    } else {
      assert KeysOf(all', x, y) == KeysOf(all, x, y);
    }
  }

  type EdgeMap = map<Name, map<Name, LinkTable>>

  predicate Joined(edge: EdgeMap, a: Name, b: Name) {
    a in edge && b in edge[a]
  }

  /** The two directions share a table. */
  ghost predicate Mirrored(edge: EdgeMap, repr: set<LinkTable>) {
    forall a, b {:trigger Joined(edge, a, b)} | Joined(edge, a, b) ::
      Joined(edge, b, a) && edge[a][b] == edge[b][a] && edge[a][b] in repr
  }

  /** Different pairs of nodes have different tables. */
  ghost predicate Separate(edge: EdgeMap) {
    forall a, b, c, d {:trigger Joined(edge, a, b), Joined(edge, c, d)} |
      Joined(edge, a, b) && Joined(edge, c, d) && edge[a][b] == edge[c][d] ::
      (a == c && b == d) || (a == d && b == c)
  }

  ghost predicate Shared(edge: EdgeMap, repr: set<LinkTable>) {
    Mirrored(edge, repr) && Separate(edge)
  }

  function Entered(edge: EdgeMap, a: Name): EdgeMap {
    if a in edge then edge else edge[a := map[]]
  }

  /** `edge` with a table for the pair. */
  function Tabled(edge: EdgeMap, a: Name, b: Name, table: LinkTable): (r: EdgeMap)
    requires a in edge && b in edge
    ensures r.Keys == edge.Keys
  {
    var edge' := edge[a := edge[a][b := table]];
    edge'[b := edge'[b][a := table]]
  }

  lemma EnteredJoins(edge: EdgeMap, a: Name, x: Name, y: Name)
    ensures Joined(Entered(edge, a), x, y) <==> Joined(edge, x, y)
    ensures Joined(edge, x, y) ==> Entered(edge, a)[x][y] == edge[x][y]
  {
  }

  lemma TabledJoins(edge: EdgeMap, a: Name, b: Name, table: LinkTable, x: Name, y: Name)
    requires a in edge && b in edge
    ensures Joined(Tabled(edge, a, b, table), x, y) <==> Joined(edge, x, y) || (x == a && y == b) || (x == b && y == a)
    ensures Joined(Tabled(edge, a, b, table), x, y) ==>
              Tabled(edge, a, b, table)[x][y] == if (x == a && y == b) || (x == b && y == a) then table else edge[x][y]
  {
  }

  lemma EnteredKeepsShared(edge: EdgeMap, repr: set<LinkTable>, a: Name)
    requires Shared(edge, repr)
    ensures Shared(Entered(edge, a), repr)
  {
    forall x, y ensures (Joined(Entered(edge, a), x, y) <==> Joined(edge, x, y)) && (Joined(edge, x, y) ==> Entered(edge, a)[x][y] == edge[x][y]) {
      EnteredJoins(edge, a, x, y);
    }
  }

  /** `edge'` has the new table for the pair, and the old ones for other pairs. */
  ghost predicate OnlyTabled(edge: EdgeMap, edge': EdgeMap, a: Name, b: Name, table: LinkTable) {
    forall x, y {:trigger Joined(edge', x, y)} ::
      && (Joined(edge', x, y) <==> Joined(edge, x, y) || (x == a && y == b) || (x == b && y == a))
      && (Joined(edge', x, y) ==> edge'[x][y] == if (x == a && y == b) || (x == b && y == a) then table else edge[x][y])
  }

  lemma TabledOnly(edge: EdgeMap, a: Name, b: Name, table: LinkTable)
    requires a in edge && b in edge && !Joined(edge, a, b)
    ensures OnlyTabled(edge, Tabled(edge, a, b, table), a, b, table)
  {
    forall x, y
      ensures Joined(Tabled(edge, a, b, table), x, y) <==> Joined(edge, x, y) || (x == a && y == b) || (x == b && y == a)
      ensures Joined(Tabled(edge, a, b, table), x, y) ==>
                Tabled(edge, a, b, table)[x][y] == if (x == a && y == b) || (x == b && y == a) then table else edge[x][y]
    {
      TabledJoins(edge, a, b, table, x, y);
    }
  }

  lemma TabledKeepsShared(edge: EdgeMap, repr: set<LinkTable>, a: Name, b: Name, table: LinkTable)
    requires Shared(edge, repr) && a in edge && b in edge && table !in repr && !Joined(edge, a, b)
    ensures Shared(Tabled(edge, a, b, table), repr + {table})
  {
    TabledOnly(edge, a, b, table);
  }

  /** A node that an edge names before it was added is no switch. */
  function WithDefault(node: map<Name, bool>, a: Name): map<Name, bool> {
    if a in node then node else node[a := false]
  }

  lemma ListsConcat(r: seq<(LinkId, Link)>, r': seq<(LinkId, Link)>, all: LinkMap, ids: set<LinkId>, ids': set<LinkId>)
    requires Lists(r, all, ids) && Lists(r', all, ids') && ids !! ids'
    ensures Lists(r + r', all, ids + ids')
  {
    forall id | id in ids + ids' ensures exists i :: 0 <= i < |r + r'| && (r + r')[i].0 == id {
      if id in ids {
        var i :| 0 <= i < |r| && r[i].0 == id;
        assert (r + r')[i].0 == id;
      } else {
        var i :| 0 <= i < |r'| && r'[i].0 == id;
        assert (r + r')[|r| + i].0 == id;
      }
    }
  }

  /** The links whose first node, in the order of names, is `src`, and whose second is in `dsts`. */
  function IdsFrom(all: LinkMap, src: Name, dsts: set<Name>): set<LinkId> {
    set id | id in all && id.lo == src && id.hi in dsts
  }

  /** The links of a pair with a key in `keys`. */
  function IdsKeyed(all: LinkMap, src: Name, dst: Name, keys: set<nat>): set<LinkId> {
    set id | id in all && id.lo == src && id.hi == dst && id.key in keys
  }

  function IdsOver(all: LinkMap, srcs: set<Name>): set<LinkId> {
    set id | id in all && id.lo in srcs
  }

  class MultiGraph {
    /** Each node, and whether it is a switch. */
    var node: map<Name, bool>
    var edge: EdgeMap

    ghost var repr: set<LinkTable>
    ghost var all: LinkMap

    /** The tables hold exactly the links of `all`. */
    ghost predicate Holding()
      reads this, repr
      requires Shared(edge, repr)
    {
      && (forall id {:trigger id in all} | id in all :: !Less(id.hi, id.lo) && Joined(edge, id.lo, id.hi))
      && (forall a, b {:trigger Joined(edge, a, b)} | Joined(edge, a, b) :: edge[a][b].links == Between(all, a, b))
    }

    ghost predicate Valid()
      reads this, repr
    {
      edge.Keys <= node.Keys && Shared(edge, repr) && Holding()
    }

    constructor ()
      ensures Valid() && fresh(repr) && node == map[] && all == map[]
    {
      node, edge, repr, all := map[], map[], {}, map[];
    }

    method AddNode(name: Name, isSwitch: bool)
      requires Valid()
      modifies `node
      ensures Valid() && node == old(node)[name := isSwitch]
    {
      node := node[name := isSwitch];
    }

    method Enter(a: Name)
      requires Valid() && a in node
      modifies `edge
      ensures Valid() && edge == Entered(old(edge), a)
    {
      EnteredKeepsShared(edge, repr, a);
      forall x, y ensures (Joined(Entered(edge, a), x, y) <==> Joined(edge, x, y)) && (Joined(edge, x, y) ==> Entered(edge, a)[x][y] == edge[x][y]) {
        EnteredJoins(edge, a, x, y);
      }
      if a !in edge {
        edge := edge[a := map[]];
      }
    }

    /** A new table shared by `a` and `b`. */
    method NewTable(a: Name, b: Name) returns (table: LinkTable)
      requires Valid() && a in edge && b in edge && !Joined(edge, a, b)
      modifies `edge, `repr
      ensures Valid() && fresh(table) && repr == old(repr) + {table}
      ensures edge == Tabled(old(edge), a, b, table)
    {
      hide Between, IdOf, Less, Tabled, Separate;
      table := new LinkTable();
      TabledKeepsShared(edge, repr, a, b, table);
      NoLinksBetween(a, b);
      TabledOnly(edge, a, b, table);
      repr := repr + {table};
      edge := Tabled(edge, a, b, table);
    }

    lemma JoinedByLink(a: Name, b: Name, k: nat)
      requires Valid() && IdOf(a, b, k) in all
      ensures Joined(edge, a, b)
    {
      assert Joined(edge, IdOf(a, b, k).lo, IdOf(a, b, k).hi);
    }

    lemma NoLinksBetween(a: Name, b: Name)
      requires Valid() && !Joined(edge, a, b)
      ensures Between(all, a, b) == map[] && Between(all, b, a) == map[]
    {
      forall k ensures IdOf(a, b, k) !in all && IdOf(b, a, k) !in all {
        IdIsSymmetric(a, b, k);
        if IdOf(a, b, k) in all {
          JoinedByLink(a, b, k);
        }
      }
    }

    /** The table shared by `a` and `b`, made if there is none. */
    method TableFor(a: Name, b: Name) returns (table: LinkTable)
      requires Valid() && a in node && b in node
      modifies `edge, `repr
      ensures Valid() && fresh(repr - old(repr)) && old(repr) <= repr
      ensures Joined(edge, a, b) && edge[a][b] == table && table in repr && table.links == Between(all, a, b)
    {
      hide Between, IdOf, Less;
      Enter(a);
      Enter(b);
      if b !in edge[a] {
        table := NewTable(a, b);
        TabledJoins(Entered(Entered(old(edge), a), b), a, b, table, a, b);
      } else {
        table := edge[a][b];
        assert Joined(edge, a, b) && Joined(edge, b, a);
        assert edge[b][a := table] == edge[b];
        assert edge[b := edge[b][a := table]] == edge;
        edge := edge[b := edge[b][a := table]];
      }
    }

    /** Adds a link, by its own key or the next free one. */
    method AddEdge(a: Name, b: Name, key: Option<nat>, link: Link) returns (k: nat)
      requires Valid()
      modifies this, repr
      ensures Valid() && fresh(repr - old(repr)) && old(repr) <= repr
      ensures node == WithDefault(WithDefault(old(node), a), b)
      ensures k == if key.None? then NextKey(KeysOf(old(all), a, b)) else key.value
      ensures all == old(all)[IdOf(a, b, k) := link]
    {
      hide IdOf, Less, Shared, Between, KeysOf, NextKey;
      node := WithDefault(node, a);
      node := WithDefault(node, b);
      var table := TableFor(a, b);
      BetweenKeys(all, a, b);
      k := if key.None? then NextKey(table.links.Keys) else key.value;
      Put(a, b, table, k, link);
    }

    method Put(a: Name, b: Name, table: LinkTable, k: nat, link: Link)
      requires Valid() && Joined(edge, a, b) && edge[a][b] == table && table in repr
      modifies `all, table
      ensures Valid() && all == old(all)[IdOf(a, b, k) := link]
    {
      hide Between, IdOf, Less;
      forall x, y ensures Between(all[IdOf(a, b, k) := link], x, y) ==
              if (x == a && y == b) || (x == b && y == a) then Between(all, x, y)[k := link] else Between(all, x, y) {
        BetweenAfter(all, a, b, k, link, x, y);
      }
      IdIsSymmetric(a, b, k);
      assert Joined(edge, b, a);
      all := all[IdOf(a, b, k) := link];
      table.links := table.links[k := link];
    }

    /** The links in one table, for a pair given in the order of names. */
    method ListTable(src: Name, dst: Name) returns (r: seq<(LinkId, Link)>)
      requires Valid() && Joined(edge, src, dst) && !Less(dst, src)
      ensures Lists(r, all, IdsFrom(all, src, {dst}))
    {
      var table := edge[src][dst];
      r := [];
      var todo := table.links.Keys;
      TableKeys(src, dst);
      while todo != {}
        invariant todo <= table.links.Keys && Lists(r, all, IdsKeyed(all, src, dst, table.links.Keys - todo))
      {
        var k :| k in todo;
        var id := LinkId(src, dst, k);
        OneMoreKey(all, src, dst, table.links.Keys, todo, k);
        OneMoreListed(r, all, IdsKeyed(all, src, dst, table.links.Keys - todo), id);
        r := r + [(id, table.links[k])];
        todo := todo - {k};
      }
      assert table.links.Keys - todo == table.links.Keys;
    }

    /** The table of a pair in the order of names holds the links of that pair. */
    lemma TableKeys(src: Name, dst: Name)
      requires Valid() && Joined(edge, src, dst) && !Less(dst, src)
      ensures forall k | k in edge[src][dst].links ::
                LinkId(src, dst, k) in all && edge[src][dst].links[k] == all[LinkId(src, dst, k)]
      ensures IdsKeyed(all, src, dst, edge[src][dst].links.Keys) == IdsFrom(all, src, {dst})
      ensures IdsKeyed(all, src, dst, {}) == {}
    {
      assert edge[src][dst].links == Between(all, src, dst);
      assert forall k :: IdOf(src, dst, k) == LinkId(src, dst, k);
    }

    /** The links of the pairs whose first node is `src`. */
    method ListFrom(src: Name) returns (r: seq<(LinkId, Link)>)
      requires Valid() && src in edge
      ensures Lists(r, all, IdsFrom(all, src, edge[src].Keys))
    {
      r := [];
      var todo := edge[src].Keys;
      while todo != {}
        invariant todo <= edge[src].Keys && Lists(r, all, IdsFrom(all, src, edge[src].Keys - todo))
      {
        var dst :| dst in todo;
        OneMoreName(all, src, edge[src].Keys, todo, dst);
        if !Less(dst, src) {
          var more := ListTable(src, dst);
          ListsConcat(r, more, all, IdsFrom(all, src, edge[src].Keys - todo), IdsFrom(all, src, {dst}));
          r := r + more;
        } else {
          NoneBackwards(src, dst);
        }
        todo := todo - {dst};
      }
      assert edge[src].Keys - todo == edge[src].Keys;
    }

    lemma NoneBackwards(src: Name, dst: Name)
      requires Valid() && Less(dst, src)
      ensures IdsFrom(all, src, {dst}) == {}
    {
    }

    /** All links, each exactly once: a pair is listed from one of its nodes only. */
    method Edges() returns (r: seq<(LinkId, Link)>)
      requires Valid()
      ensures Lists(r, all, all.Keys)
    {
      r := [];
      var todo := edge.Keys;
      while todo != {}
        invariant todo <= edge.Keys && Lists(r, all, IdsOver(all, edge.Keys - todo))
      {
        var src :| src in todo;
        var more := ListFrom(src);
        AllFrom(src);
        OneMoreSource(all, edge.Keys, todo, src);
        ListsConcat(r, more, all, IdsOver(all, edge.Keys - todo), IdsOver(all, {src}));
        r := r + more;
        todo := todo - {src};
      }
      AllListed();
      assert edge.Keys - todo == edge.Keys;
    }

    lemma AllFrom(src: Name)
      requires Valid() && src in edge
      ensures IdsFrom(all, src, edge[src].Keys) == IdsOver(all, {src})
    {
    }

    lemma AllListed()
      requires Valid()
      ensures IdsOver(all, edge.Keys) == all.Keys
    {
    }
  }

  lemma OneMoreName(all: LinkMap, src: Name, names: set<Name>, todo: set<Name>, dst: Name)
    requires dst in todo && todo <= names
    ensures IdsFrom(all, src, names - (todo - {dst})) == IdsFrom(all, src, names - todo) + IdsFrom(all, src, {dst})
    ensures IdsFrom(all, src, names - todo) !! IdsFrom(all, src, {dst})
  {
  }

  lemma OneMoreKey(all: LinkMap, src: Name, dst: Name, keys: set<nat>, todo: set<nat>, k: nat)
    requires k in todo && todo <= keys && LinkId(src, dst, k) in all
    ensures IdsKeyed(all, src, dst, keys - (todo - {k})) == IdsKeyed(all, src, dst, keys - todo) + {LinkId(src, dst, k)}
    ensures LinkId(src, dst, k) !in IdsKeyed(all, src, dst, keys - todo)
  {
  }

  lemma OneMoreSource(all: LinkMap, names: set<Name>, todo: set<Name>, src: Name)
    requires src in todo && todo <= names
    ensures IdsOver(all, names - (todo - {src})) == IdsOver(all, names - todo) + IdsOver(all, {src})
    ensures IdsOver(all, names - todo) !! IdsOver(all, {src})
  {
  }
}
