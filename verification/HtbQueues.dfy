/** Packets, the queues that hold them, and how they are counted. */
module HtbQueues {
  import opened HtbLinks

  datatype Packet = Packet(serial: nat, bytes: nat)

  type Queues = map<Id, seq<Packet>>

  // ---------- counting ----------

  /** The packets queued at the classes of `cs`. */
  ghost function BacklogOf(q: Queues, cs: set<Id>): nat
    requires cs <= q.Keys
  {
    if cs == {} then 0 else var c :| c in cs; |q[c]| + BacklogOf(q, cs - {c})
  }

  ghost function Backlog(q: Queues): nat {
    BacklogOf(q, q.Keys)
  }

  lemma {:induction false} BacklogSplit(q: Queues, cs: set<Id>, c: Id)
    requires cs <= q.Keys && c in cs
    ensures BacklogOf(q, cs) == |q[c]| + BacklogOf(q, cs - {c})
    decreases cs
  {
    var d :| d in cs && BacklogOf(q, cs) == |q[d]| + BacklogOf(q, cs - {d});
    if d != c {
      BacklogSplit(q, cs - {d}, c);
      BacklogSplit(q, cs - {c}, d);
      assert cs - {d} - {c} == cs - {c} - {d};
    }
  }

  lemma {:induction false} BacklogSame(q: Queues, q': Queues, cs: set<Id>)
    requires cs <= q.Keys && cs <= q'.Keys && forall c | c in cs :: q'[c] == q[c]
    ensures BacklogOf(q', cs) == BacklogOf(q, cs)
    decreases cs
  {
    if cs != {} {
      var c :| c in cs;
      BacklogSplit(q, cs, c);
      BacklogSplit(q', cs, c);
      BacklogSame(q, q', cs - {c});
    }
  }

  /** Changing one queue changes the backlog by the difference of its lengths. */
  lemma BacklogUpdate(q: Queues, c: Id, s: seq<Packet>)
    requires c in q
    ensures Backlog(q[c := s]) == Backlog(q) - |q[c]| + |s|
  {
    BacklogSplit(q, q.Keys, c);
    BacklogSplit(q[c := s], q.Keys, c);
    BacklogSame(q, q[c := s], q.Keys - {c});
    assert q[c := s].Keys == q.Keys;
  }

  lemma {:induction false} BacklogEmpty(q: Queues, cs: set<Id>)
    requires cs <= q.Keys && forall c | c in cs :: q[c] == []
    ensures BacklogOf(q, cs) == 0
    decreases cs
  {
    if cs != {} {
      var c :| c in cs;
      BacklogSplit(q, cs, c);
      BacklogEmpty(q, cs - {c});
    }
  }

  /** A packet queued anywhere makes the backlog positive. */
  lemma BacklogPositive(q: Queues, c: Id)
    requires c in q
    ensures Backlog(q) >= |q[c]|
  {
    BacklogSplit(q, q.Keys, c);
  }

  // ---------- the drop lists ----------

  function Without(s: seq<Id>, c: Id): (r: seq<Id>)
    ensures forall d :: d in r <==> d in s && d != c
  {
    if s == [] then []
    else if s[0] == c then Without(s[1..], c)
    else [s[0]] + Without(s[1..], c)
  }

  /** Each priority's drop list holds exactly the leaves active there. */
  ghost predicate DropsMatch(t: Topology, act: map<Id, set<nat>>, drops: map<nat, seq<Id>>) {
    && act.Keys == t.Keys
    && (forall p: nat :: p in drops <==> p < NUMPRIO)
    && (forall p: nat, c: Id {:trigger c in drops[p]} | p < NUMPRIO ::
          c in drops[p] <==> c in t && t[c].level == 0 && p in act[c])
  }

  /** Only leaves queue packets, and a leaf with packets is active. */
  ghost predicate QueuesMatch(t: Topology, act: map<Id, set<nat>>, q: Queues) {
    && act.Keys == t.Keys && q.Keys == t.Keys
    && (forall c {:trigger q[c]} | c in t && t[c].level > 0 :: q[c] == [])
    && (forall c {:trigger q[c]} | c in t && t[c].level == 0 && q[c] != [] :: act[c] != {})
  }

  /** The leaves' bookkeeping: drop lists, queues, and a deficit per level they can be served from. */
  ghost predicate LeavesInv(t: Topology, act: map<Id, set<nat>>, drops: map<nat, seq<Id>>, q: Queues, deficit: map<Id, seq<int>>) {
    && DropsMatch(t, act, drops) && QueuesMatch(t, act, q) && q.Keys == t.Keys
    && deficit.Keys == t.Keys && forall c {:trigger deficit[c]} | c in t :: |deficit[c]| == MAXDEPTH
  }

  ghost function ActiveLeaves(t: Topology, act: map<Id, set<nat>>): set<Id> {
    set c | c in t && t[c].level == 0 && c in act && act[c] != {}
  }

  lemma DropsFollow(t: Topology, act: map<Id, set<nat>>, act': map<Id, set<nat>>, drops: map<nat, seq<Id>>, c: Id)
    requires WellFormed(t) && act.Keys == t.Keys && act'.Keys == t.Keys && DropsMatch(t, act, drops)
    requires c in t && t[c].level == 0 && act[c] <= {t[c].prio} && act'[c] == {}
    requires forall d | d in t && t[d].level == 0 && d != c :: act'[d] == act[d]
    ensures DropsMatch(t, act', drops[t[c].prio := Without(drops[t[c].prio], c)])
  {
  }

  lemma DropsGrow(t: Topology, act: map<Id, set<nat>>, act': map<Id, set<nat>>, drops: map<nat, seq<Id>>, c: Id)
    requires WellFormed(t) && act.Keys == t.Keys && act'.Keys == t.Keys && DropsMatch(t, act, drops)
    requires c in t && t[c].level == 0 && act[c] == {} && act'[c] == {t[c].prio}
    requires forall d | d in t && t[d].level == 0 && d != c :: act'[d] == act[d]
    ensures DropsMatch(t, act', drops[t[c].prio := drops[t[c].prio] + [c]])
  {
  }

  lemma LeavesKept(t: Topology, act: map<Id, set<nat>>, act': map<Id, set<nat>>, drops: map<nat, seq<Id>>, q: Queues, deficit: map<Id, seq<int>>)
    requires LeavesInv(t, act, drops, q, deficit) && LeafActivityKept(t, act, act')
    ensures LeavesInv(t, act', drops, q, deficit)
  {
  }

  lemma EmptyLeafGone(t: Topology, act: map<Id, set<nat>>, act': map<Id, set<nat>>, q: Queues, c: Id)
    requires QueuesMatch(t, act, q) && act'.Keys == t.Keys && c in t && q[c] == []
    requires forall d | d in t && t[d].level == 0 && d != c :: act'[d] == act[d]
    ensures QueuesMatch(t, act', q)
  {
  }

  lemma FewerActive(t: Topology, act: map<Id, set<nat>>, act': map<Id, set<nat>>, c: Id)
    requires act.Keys == t.Keys && act'.Keys == t.Keys && c in t && t[c].level == 0 && act[c] != {} && act'[c] == {}
    requires forall d | d in t && t[d].level == 0 && d != c :: act'[d] == act[d]
    ensures |ActiveLeaves(t, act')| < |ActiveLeaves(t, act)|
  {
    assert c in ActiveLeaves(t, act);
    assert ActiveLeaves(t, act') == ActiveLeaves(t, act) - {c};
  }

  /** The deficit of a leaf after a packet: in debt, it gets its quantum and its turn ends. */
  function DeficitAfter(d: int, bytes: nat, quantum: int): int {
    if d - bytes < 0 then d - bytes + quantum else d - bytes
  }

  lemma HeadTaken(t: Topology, act: map<Id, set<nat>>, q: Queues, c: Id)
    requires QueuesMatch(t, act, q) && c in t && q[c] != []
    ensures QueuesMatch(t, act, q[c := q[c][1..]])
  {
  }

  /** `pkt` was the head of leaf `c`'s queue and left it. */
  ghost predicate HeadLeft(q: Queues, q': Queues, c: Id, pkt: Packet) {
    c in q && q[c] != [] && pkt == q[c][0] && q' == q[c := q[c][1..]]
  }

  /** Where the classifier sends a packet. */
  datatype Target = Direct | Refused | Leaf(cls: Id)

  /** The counted length is the number of packets held plus those that left uncounted. */
  ghost predicate CountInv(q: Queues, direct: seq<Packet>, ofbuf: seq<Packet>, qlen: int, lost: nat) {
    qlen == |direct| + |ofbuf| + Backlog(q) + lost
  }

  /** `pkt` was offered to `target`: it joined the leaf's queue or the direct queue if there was
      room for it, and was counted unless it was dropped. */
  ghost predicate Offered(pkt: Packet, target: Target, accepts: bool, limit: nat, q: Queues, direct: seq<Packet>, qlen: int,
                          q': Queues, direct': seq<Packet>, qlen': int)
  {
    && q' == (if target.Leaf? && accepts && target.cls in q then q[target.cls := q[target.cls] + [pkt]] else q)
    && direct' == direct + (if target.Direct? && |direct| < limit then [pkt] else [])
    && qlen' == qlen + (if target.Leaf? || (target.Direct? && |direct| < limit) then 1 else 0)
  }

  lemma PacketAdded(t: Topology, act: map<Id, set<nat>>, act': map<Id, set<nat>>, q: Queues, c: Id, pkt: Packet)
    requires QueuesMatch(t, act, q) && act'.Keys == t.Keys && c in t && t[c].level == 0 && act'[c] != {}
    requires forall d | d in t && t[d].level == 0 && d != c :: act'[d] == act[d]
    ensures QueuesMatch(t, act', q[c := q[c] + [pkt]])
  {
  }

  /** A drain has passed `i` packets: before it gets to packet `r` nothing has changed but the
      buffer; after that, packet `r` has been offered again. */
  ghost predicate Draining(all: seq<Packet>, r: nat, target: Target, accepts: bool, limit: nat, q: Queues, direct: seq<Packet>, qlen: int,
                           i: nat, rest: seq<Packet>, q': Queues, direct': seq<Packet>, qlen': int)
  {
    && r < |all|
    && if i <= r then rest == all[i..] && q' == q && direct' == direct && qlen' == qlen
       else Offered(all[r], target, accepts, limit, q, direct, qlen, q', direct', qlen')
  }

  lemma DrainStep(all: seq<Packet>, r: nat, rest: seq<Packet>, i: nat)
    requires r < |all| && (i <= r ==> rest == all[i..])
    ensures i <= r ==> rest[0] == all[i] && rest[1..] == all[i + 1..]
  {
  }

  lemma DeficitKept(t: Topology, act: map<Id, set<nat>>, drops: map<nat, seq<Id>>, q: Queues, deficit: map<Id, seq<int>>, c: Id, level: nat, d: int)
    requires LeavesInv(t, act, drops, q, deficit) && c in t && level < MAXDEPTH
    ensures LeavesInv(t, act, drops, q, deficit[c := deficit[c][level := d]])
  {
  }

  /** Nothing is held when the count is zero. */
  lemma NothingHeld(q: Queues, direct: seq<Packet>, ofbuf: seq<Packet>, qlen: int, lost: nat)
    requires CountInv(q, direct, ofbuf, qlen, lost) && qlen == 0
    ensures direct == [] && ofbuf == [] && forall c | c in q :: q[c] == []
  {
    forall c | c in q ensures q[c] == [] {
      BacklogPositive(q, c);
    }
  }

  lemma BacklogNone(q: Queues)
    requires forall c | c in q :: q[c] == []
    ensures Backlog(q) == 0
  {
    BacklogEmpty(q, q.Keys);
  }

  lemma TailGiven(t: Topology, act: map<Id, set<nat>>, q: Queues, c: Id, rest: seq<Packet>)
    requires QueuesMatch(t, act, q) && c in t && |rest| <= |q[c]|
    ensures QueuesMatch(t, act, q[c := rest])
  {
  }

  /** A leaf that gives up packets at the tail stays in order; with packets, it is active. */
  lemma TailKeepsLeaves(t: Topology, act: map<Id, set<nat>>, drops: map<nat, seq<Id>>, q: Queues, deficit: map<Id, seq<int>>, c: Id, rest: seq<Packet>)
    requires LeavesInv(t, act, drops, q, deficit) && c in t && |rest| <= |q[c]|
    ensures LeavesInv(t, act, drops, q[c := rest], deficit)
    ensures t[c].level == 0 && q[c] != [] ==> act[c] != {}
  {
    TailGiven(t, act, q, c, rest);
  }

  function NoDrops(): (r: map<nat, seq<Id>>)
    ensures forall p: nat :: p in r <==> p < NUMPRIO
  {
    map[0 := [], 1 := [], 2 := [], 3 := [], 4 := [], 5 := [], 6 := [], 7 := []]
  }

  /** Only leaves have packets. */
  ghost predicate OnlyLeavesQueue(t: Topology, q: Queues) {
    q.Keys == t.Keys && forall c {:trigger q[c]} | c in t && t[c].level > 0 :: q[c] == []
  }

  ghost predicate AllEmpty(t: Topology, q: Queues, done: set<Id>) {
    q.Keys == t.Keys && forall c {:trigger q[c]} | c in t && c in done :: q[c] == []
  }

  /** Inactive leaves without packets are in order. */
  lemma EmptyLeavesInOrder(t: Topology, act: map<Id, set<nat>>, q: Queues, deficit: map<Id, seq<int>>)
    requires act.Keys == t.Keys && forall c | c in t :: act[c] == {}
    requires AllEmpty(t, q, t.Keys)
    requires deficit.Keys == t.Keys && forall c {:trigger deficit[c]} | c in t :: |deficit[c]| == MAXDEPTH
    ensures LeavesInv(t, act, NoDrops(), q, deficit) && CountInv(q, [], [], 0, 0)
  {
    BacklogNone(q);
  }

  /** The leaf is not willing to drop, or has nothing to drop. */
  predicate Spared(q: Queues, willing: set<Id>, c: Id) {
    c !in willing || c !in q || q[c] == []
  }

  /** A packet was counted out; then the overflow buffer was emptied and the packet drawn from it, if any,
      was offered once more. */
  ghost predicate Departed(q: Queues, direct: seq<Packet>, ofbuf: seq<Packet>, qlen: int, random: nat, target: Target, accepts: bool, limit: nat,
                           q': Queues, direct': seq<Packet>, ofbuf': seq<Packet>, qlen': int)
  {
    && ofbuf' == []
    && if ofbuf == [] then q' == q && direct' == direct && qlen' == qlen - 1
       else Offered(ofbuf[random % |ofbuf|], target, accepts, limit, q, direct, qlen - 1, q', direct', qlen')
  }
}
