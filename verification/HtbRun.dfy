/** Whole runs of the scheduler, and the fairness of what it sends in them. */
module HtbRun {
  import opened Options
  import opened HtbLinks
  import opened HtbReach
  import opened HtbSweep
  import opened HtbTokens
  import opened HtbBilling
  import opened HtbChoice
  import opened HtbQueues
  import opened HtbFair
  import opened HtbScheduler

  /** What is asked of the scheduler. */
  datatype Op =
    | Put(pkt: Packet, target: Target, accepts: bool)
    | Take(time: int, limited: bool, rounds: seq<nat>, random: nat, target: Target, accepts: bool)
    | Cut(willing: set<Id>)

  predicate TargetIsLeaf(t: Topology, target: Target) {
    target.Leaf? ==> target.cls in t && t[target.cls].level == 0
  }

  /** The times at which packets are taken do not decrease, and packets are sent to leaves. */
  predicate Playable(t: Topology, now: int, ops: seq<Op>)
    decreases |ops|
  {
    ops == [] || match ops[0]
                 case Put(_, target, _) => TargetIsLeaf(t, target) && Playable(t, now, ops[1..])
                 case Cut(_) => Playable(t, now, ops[1..])
                 case Take(time, _, rounds, _, target, _) =>
                   now <= time && 0 < time && |rounds| == MAXDEPTH && TargetIsLeaf(t, target) && Playable(t, time, ops[1..])
  }

  lemma {:induction false} PlayableLater(t: Topology, now: int, now': int, ops: seq<Op>)
    requires Playable(t, now', ops) && now <= now'
    ensures Playable(t, now, ops)
    decreases |ops|
  {
    if ops != [] && !ops[0].Take? {
      PlayableLater(t, now, now', ops[1..]);
    }
  }

  function BytesOf(outs: seq<Out>, x: Id): nat {
    if outs == [] then 0
    else BytesOf(outs[..|outs| - 1], x) + if outs[|outs| - 1].leaf == x then outs[|outs| - 1].bytes else 0
  }

  lemma BytesGrow(outs: seq<Out>, o: Out, x: Id)
    ensures BytesOf(outs + [o], x) == BytesOf(outs, x) + if o.leaf == x then o.bytes else 0
  {
    assert (outs + [o])[..|outs|] == outs;
  }

  // ---------- the rounds behind a run ----------

  /** The places of a tree, the deficits of its members, and what happened there. */
  datatype Round = Round(ps: seq<Id>, ds: seq<Deficits>, beats: seq<Beat>)

  /** Every packet sent in the round is one of `outs`. */
  ghost predicate Backed(r: Round, outs: seq<Out>) {
    |r.ps| > |r.beats| && forall i | 0 <= i < |r.beats| && r.beats[i].Send? :: exists o | o in outs :: o.leaf == r.ps[i] && o.bytes == r.beats[i].bytes
  }

  /** A round from place `p0` and deficits `d0` to place `p` and deficits `d`, in which each member sent
      what `outs` says. */
  ghost predicate Tells(t: Topology, members: set<Id>, r: Round, outs: seq<Out>, p0: Id, d0: Deficits, p: Id, d: Deficits) {
    && IsRound(t, members, r.ps, r.ds, r.beats) && Backed(r, outs)
    && r.ps[0] == p0 && r.ds[0] == d0 && r.ps[|r.beats|] == p && r.ds[|r.beats|] == d
    && forall x | x in members :: Sent(r.ps, r.beats, |r.beats|, x) == BytesOf(outs, x)
  }

  lemma NothingTold(t: Topology, members: set<Id>, p: Id, d: Deficits)
    requires p in members && 0 !in members && forall x | x in members :: x in t && x in d
    ensures Tells(t, members, Round([p], [d], []), [], p, d, p, d)
  {
  }

  function Longer(r: Round, beat: Beat, p: Id, d: Deficits): Round {
    Round(r.ps + [p], r.ds + [d], r.beats + [beat])
  }

  lemma {:induction false} SentSoFar(ps: seq<Id>, ps': seq<Id>, beats: seq<Beat>, beats': seq<Beat>, n: nat, x: Id)
    requires n <= |beats| && n <= |ps| && ps <= ps' && beats <= beats'
    ensures Sent(ps', beats', n, x) == Sent(ps, beats, n, x)
  {
    if n > 0 {
      SentSoFar(ps, ps', beats, beats', n - 1, x);
    }
  }

  lemma OneMoreBeat(t: Topology, members: set<Id>, r: Round, beat: Beat, p': Id, d': Deficits)
    requires IsRound(t, members, r.ps, r.ds, r.beats)
    requires Beats(t, members, r.ps[|r.beats|], r.ds[|r.beats|], beat, p', d')
    ensures var r' := Longer(r, beat, p', d'); IsRound(t, members, r'.ps, r'.ds, r'.beats)
  {
    hide Beats;
    var r' := Longer(r, beat, p', d');
    forall i, j | 0 <= i < |r'.beats| && j == i + 1 ensures Beats(t, members, r'.ps[i], r'.ds[i], r'.beats[i], r'.ps[j], r'.ds[j]) {
      if i < |r.beats| {
        assert Beats(t, members, r.ps[i], r.ds[i], r.beats[i], r.ps[j], r.ds[j]);
      }
    }
  }

  lemma OneMoreSent(r: Round, beat: Beat, p: Id, d: Deficits, x: Id)
    requires |r.ps| == |r.beats| + 1
    ensures var r' := Longer(r, beat, p, d);
            Sent(r'.ps, r'.beats, |r'.beats|, x) == Sent(r.ps, r.beats, |r.beats|, x) + if r.ps[|r.beats|] == x && beat.Send? then beat.bytes else 0
  {
    var r' := Longer(r, beat, p, d);
    SentSoFar(r.ps, r'.ps, r.beats, r'.beats, |r.beats|, x);
    assert r'.ps[|r.beats|] == r.ps[|r.beats|];
  }

  /** An inner class is passed. */
  lemma TellSkip(t: Topology, members: set<Id>, r: Round, outs: seq<Out>, p0: Id, d0: Deficits, p: Id, d: Deficits) returns (r': Round)
    requires Tells(t, members, r, outs, p0, d0, p, d) && p in t && t[p].level > 0
    ensures Tells(t, members, r', outs, p0, d0, After(members, p), d)
  {
    r' := Longer(r, Skip, After(members, p), d);
    StaysInside(t, members, r.ps, r.ds, r.beats, |r.beats|);
    OneMoreBeat(t, members, r, Skip, After(members, p), d);
    forall x | x in members ensures Sent(r'.ps, r'.beats, |r'.beats|, x) == BytesOf(outs, x) {
      OneMoreSent(r, Skip, After(members, p), d, x);
    }
    forall i | 0 <= i < |r'.beats| && r'.beats[i].Send? ensures exists o | o in outs :: o.leaf == r'.ps[i] && o.bytes == r'.beats[i].bytes {
      assert r'.beats[i] == r.beats[i] && r'.ps[i] == r.ps[i];
    }
  }

  lemma {:induction false} TellSkips(t: Topology, members: set<Id>, r: Round, outs: seq<Out>, p0: Id, d0: Deficits, p: Id, d: Deficits, n: nat, q: Id)
    returns (r': Round)
    requires Tells(t, members, r, outs, p0, d0, p, d) && Skips(t, members, p, n, q)
    ensures Tells(t, members, r', outs, p0, d0, q, d)
    decreases n
  {
    r' := r;
    if n > 0 {
      r' := TellSkip(t, members, r, outs, p0, d0, p, d);
      r' := TellSkips(t, members, r', outs, p0, d0, After(members, p), d, n - 1, q);
    }
  }

  lemma TellMove(t: Topology, members: set<Id>, r: Round, outs: seq<Out>, p0: Id, d0: Deficits, p: Id, d: Deficits, q: Id) returns (r': Round)
    requires Tells(t, members, r, outs, p0, d0, p, d) && SkipsTo(t, members, p, q)
    ensures Tells(t, members, r', outs, p0, d0, q, d)
  {
    var n: nat :| Skips(t, members, p, n, q);
    r' := TellSkips(t, members, r, outs, p0, d0, p, d, n, q);
  }

  /** The leaf at the place sends a packet. */
  lemma TellSend(t: Topology, members: set<Id>, r: Round, outs: seq<Out>, p0: Id, d0: Deficits, p: Id, d: Deficits, o: Out, p': Id, d': Deficits)
    returns (r': Round)
    requires Tells(t, members, r, outs, p0, d0, p, d) && o.leaf == p && Beats(t, members, p, d, Send(o.bytes), p', d')
    ensures Tells(t, members, r', outs + [o], p0, d0, p', d')
  {
    hide Beats;
    r' := Longer(r, Send(o.bytes), p', d');
    OneMoreBeat(t, members, r, Send(o.bytes), p', d');
    forall x | x in members ensures Sent(r'.ps, r'.beats, |r'.beats|, x) == BytesOf(outs + [o], x) {
      OneMoreSent(r, Send(o.bytes), p', d', x);
      BytesGrow(outs, o, x);
    }
    forall i | 0 <= i < |r'.beats| && r'.beats[i].Send? ensures exists q | q in outs + [o] :: q.leaf == r'.ps[i] && q.bytes == r'.beats[i].bytes {
      if i < |r.beats| {
        assert r'.beats[i] == r.beats[i] && r'.ps[i] == r.ps[i];
        var q :| q in outs && q.leaf == r.ps[i] && q.bytes == r.beats[i].bytes;
        assert q in outs + [o];
      } else {
        assert o in outs + [o];
      }
    }
  }

  /** A packet of another tree's leaf. */
  lemma TellOther(t: Topology, members: set<Id>, r: Round, outs: seq<Out>, p0: Id, d0: Deficits, p: Id, d: Deficits, o: Out)
    requires Tells(t, members, r, outs, p0, d0, p, d) && o.leaf !in members
    ensures Tells(t, members, r, outs + [o], p0, d0, p, d)
  {
    forall x | x in members ensures Sent(r.ps, r.beats, |r.beats|, x) == BytesOf(outs + [o], x) {
      BytesGrow(outs, o, x);
    }
    forall i | 0 <= i < |r.beats| && r.beats[i].Send? ensures exists q | q in outs + [o] :: q.leaf == r.ps[i] && q.bytes == r.beats[i].bytes {
      var q :| q in outs && q.leaf == r.ps[i] && q.bytes == r.beats[i].bytes;
      assert q in outs + [o];
    }
  }

  // ---------- following a tree through a run ----------

  /** The round `r`, begun at `p0` with deficits `d0`, has come to where tree `z` stands. */
  ghost predicate OnTrack(t: Topology, k: Links, deficit: map<Id, seq<int>>, z: Slot, members: set<Id>, level: nat,
                          r: Round, outs: seq<Out>, p0: Id, d0: Deficits)
  {
    && Keyed(k) && z in k.tree && k.tree[z] == members
    && Tells(t, members, r, outs, p0, d0, PlaceOf(k, z), DeficitsOf(deficit, members, level))
  }

  /** The members of tree `z` never changed, and were served at one level only. */
  predicate Steady(z: Slot, members: set<Id>, level: nat, stirred: set<Slot>, outs: seq<Out>) {
    z !in stirred && forall o | o in outs && o.leaf in members :: o.level == level
  }

  lemma SteadyBefore(z: Slot, members: set<Id>, level: nat, s0: set<Slot>, s1: set<Slot>, outs: seq<Out>, more: seq<Out>)
    requires Steady(z, members, level, s1, outs + more) && s0 <= s1
    ensures Steady(z, members, level, s0, outs)
  {
    forall o | o in outs && o.leaf in members ensures o.level == level {
      assert o in outs + more;
    }
  }

  lemma TrackBegins(t: Topology, k: Links, deficit: map<Id, seq<int>>, z: Slot, level: nat) returns (r: Round)
    requires LinkInv(t, k) && z in k.tree && k.tree[z] != {} && level < MAXDEPTH
    requires deficit.Keys == t.Keys && forall x | x in t :: |deficit[x]| == MAXDEPTH
    ensures OnTrack(t, k, deficit, z, k.tree[z], level, r, [], PlaceOf(k, z), DeficitsOf(deficit, k.tree[z], level))
  {
    var members, d := k.tree[z], DeficitsOf(deficit, k.tree[z], level);
    r := Round([PlaceOf(k, z)], [d], []);
    assert 0 !in members;
    assert k.ptr[z] == 0 || k.ptr[z] in members;
    NothingTold(t, members, PlaceOf(k, z), d);
  }

  /** The place of the tree moved past inner classes. */
  lemma TrackDrift(t: Topology, k: Links, deficit: map<Id, seq<int>>, k': Links, s: set<Slot>, s': set<Slot>, z: Slot, members: set<Id>, level: nat,
                   r: Round, outs: seq<Out>, p0: Id, d0: Deficits) returns (r': Round)
    requires Drifted(t, k, k', s, s') && OnTrack(t, k, deficit, z, members, level, r, outs, p0, d0) && z !in s'
    ensures OnTrack(t, k', deficit, z, members, level, r', outs, p0, d0)
  {
    hide Tells, SkipsTo, PlaceOf;
    assert k'.tree[z] == k.tree[z];
    r' := TellMove(t, members, r, outs, p0, d0, PlaceOf(k, z), DeficitsOf(deficit, members, level), PlaceOf(k', z));
  }

  /** A leaf was served: one of the tree's own, or one elsewhere. */
  lemma TrackTurn(t: Topology, k: Links, d: map<Id, seq<int>>, k': Links, d': map<Id, seq<int>>, s: set<Slot>, s': set<Slot>,
                  home: Slot, o: Out, z: Slot, members: set<Id>, level: nat,
                  r: Round, outs: seq<Out>, p0: Id, d0: Deficits) returns (r': Round)
    requires Advanced(t, k, d, k', d', s, s', home, o.leaf, o.level, o.bytes)
    requires OnTrack(t, k, d, z, members, level, r, outs, p0, d0) && z !in s' && (o.leaf in members ==> o.level == level)
    ensures OnTrack(t, k', d', z, members, level, r', outs + [o], p0, d0)
  {
    hide Tells, SkipsTo, PlaceOf, Beats;
    var dz := DeficitsOf(d, members, level);
    assert k'.tree[z] == k.tree[z];
    if z == home {
      r' := TellMove(t, members, r, outs, p0, d0, PlaceOf(k, z), dz, o.leaf);
      r' := TellSend(t, members, r', outs, p0, d0, o.leaf, dz, o, PlaceOf(k', z), DeficitsOf(d', members, level));
    } else {
      assert DeficitsOf(d', members, level) == dz;
      r' := TellMove(t, members, r, outs, p0, d0, PlaceOf(k, z), dz, PlaceOf(k', z));
      TellOther(t, members, r', outs, p0, d0, PlaceOf(k', z), dz, o);
    }
  }

  /** Leaf `x` began with a deficit below its quantum, and none of its packets is longer than that. */
  ghost predicate WithinQuantum(t: Topology, d0: Deficits, outs: seq<Out>, x: Id) {
    && x in t && t[x].level == 0 && x in d0 && 0 <= d0[x] < t[x].quantum
    && forall o | o in outs && o.leaf == x :: o.bytes <= t[x].quantum
  }

  /** Any two such leaves sent bytes in proportion to their quanta, up to less than three quanta. */
  ghost predicate SharedFairly(t: Topology, members: set<Id>, d0: Deficits, outs: seq<Out>) {
    forall a, b {:trigger WithinQuantum(t, d0, outs, a), WithinQuantum(t, d0, outs, b)} |
      a in members && b in members && a != b && WithinQuantum(t, d0, outs, a) && WithinQuantum(t, d0, outs, b) ::
      0 - 3 * (t[a].quantum * t[b].quantum)
        < BytesOf(outs, a) * t[b].quantum - BytesOf(outs, b) * t[a].quantum
        < 3 * (t[a].quantum * t[b].quantum)
  }

  lemma BackedFits(t: Topology, members: set<Id>, r: Round, d0: Deficits, outs: seq<Out>, x: Id)
    requires IsRound(t, members, r.ps, r.ds, r.beats) && Backed(r, outs) && WithinQuantum(t, d0, outs, x)
    ensures FitsQuantum(t, r.ps, r.beats, x)
  {
    forall i | 0 <= i < |r.beats| && r.ps[i] == x && r.beats[i].Send? ensures r.beats[i].bytes <= t[x].quantum {
      var o :| o in outs && o.leaf == r.ps[i] && o.bytes == r.beats[i].bytes;
    }
  }

  lemma TrackIsFair(t: Topology, k: Links, deficit: map<Id, seq<int>>, z: Slot, members: set<Id>, level: nat,
                    r: Round, outs: seq<Out>, p0: Id, d0: Deficits)
    requires OnTrack(t, k, deficit, z, members, level, r, outs, p0, d0)
    ensures SharedFairly(t, members, d0, outs)
  {
    forall a, b {:trigger WithinQuantum(t, d0, outs, a), WithinQuantum(t, d0, outs, b)} |
      a in members && b in members && a != b && WithinQuantum(t, d0, outs, a) && WithinQuantum(t, d0, outs, b)
      ensures 0 - 3 * (t[a].quantum * t[b].quantum)
                < BytesOf(outs, a) * t[b].quantum - BytesOf(outs, b) * t[a].quantum
                < 3 * (t[a].quantum * t[b].quantum)
    {
      BackedFits(t, members, r, d0, outs, a);
      BackedFits(t, members, r, d0, outs, b);
      ServiceIsFair(t, members, r.ps, r.ds, r.beats, a, b);
    }
  }

  lemma SteadyDrift(t: Topology, k: Links, deficit: map<Id, seq<int>>, k': Links, s: set<Slot>, s': set<Slot>, z: Slot, members: set<Id>, level: nat,
                    r: Round, outs: seq<Out>, p0: Id, d0: Deficits) returns (r': Round)
    requires Drifted(t, k, k', s, s')
    requires Steady(z, members, level, s, outs) ==> OnTrack(t, k, deficit, z, members, level, r, outs, p0, d0)
    ensures Steady(z, members, level, s', outs) ==> OnTrack(t, k', deficit, z, members, level, r', outs, p0, d0)
  {
    r' := r;
    if Steady(z, members, level, s', outs) {
      r' := TrackDrift(t, k, deficit, k', s, s', z, members, level, r, outs, p0, d0);
    }
  }

  lemma SteadyTurn(t: Topology, k: Links, d: map<Id, seq<int>>, k': Links, d': map<Id, seq<int>>, s: set<Slot>, s': set<Slot>,
                   home: Slot, o: Out, z: Slot, members: set<Id>, level: nat,
                   r: Round, outs: seq<Out>, p0: Id, d0: Deficits) returns (r': Round)
    requires Advanced(t, k, d, k', d', s, s', home, o.leaf, o.level, o.bytes)
    requires Steady(z, members, level, s, outs) ==> OnTrack(t, k, d, z, members, level, r, outs, p0, d0)
    ensures Steady(z, members, level, s', outs + [o]) ==> OnTrack(t, k', d', z, members, level, r', outs + [o], p0, d0)
  {
    r' := r;
    if Steady(z, members, level, s', outs + [o]) {
      SteadyBefore(z, members, level, s, s', outs, [o]);
      assert o in outs + [o];
      r' := TrackTurn(t, k, d, k', d', s, s', home, o, z, members, level, r, outs, p0, d0);
    }
  }

  // ---------- runs ----------

  method PlayTake(s: Scheduler, op: Op, ghost z: Slot, ghost members: set<Id>, ghost level: nat,
                  ghost r: Round, ghost outs: seq<Out>, ghost p0: Id, ghost d0: Deficits)
    returns (ghost r': Round, ghost more: seq<Out>)
    requires s.Valid() && op.Take? && Playable(s.t, s.timing.now, [op])
    requires Steady(z, members, level, s.stirred, outs) ==> OnTrack(s.t, s.links, s.deficit, z, members, level, r, outs, p0, d0)
    modifies s
    ensures s.Valid() && s.timing.now <= op.time
    ensures s.served == old(s.served) + more
    ensures Steady(z, members, level, s.stirred, outs + more) ==> OnTrack(s.t, s.links, s.deficit, z, members, level, r', outs + more, p0, d0)
  {
    hide OnTrack, Steady, Drifted, Advanced, LinkInv, TimedInv, LeavesInv, CountInv, Billed, Departed, EventModes, Tried, NobodyServable, NobodySolvent, Chosen, Accounted, Rests;
    ghost var k, d, st := s.links, s.deficit, s.stirred;
    ghost var turn;
    var p, wake, c;
    p, wake, c, turn := s.Dequeue(op.time, op.limited, op.rounds, op.random, op.target, op.accepts);
    if old(s.direct) == [] && p.Some? {
      ghost var o := Out(op.time, c, p.value.bytes, turn.level);
      more := [o];
      r' := SteadyTurn(s.t, k, d, s.links, s.deficit, st, s.stirred, Home(s.t, c, turn.level, turn.prio), o, z, members, level, r, outs, p0, d0);
    } else {
      more := [];
      assert outs + more == outs;
      r' := SteadyDrift(s.t, k, d, s.links, st, s.stirred, z, members, level, r, outs, p0, d0);
    }
  }

  /** Any other operation. */
  method PlayOther(s: Scheduler, op: Op, ghost z: Slot, ghost members: set<Id>, ghost level: nat,
                   ghost r: Round, ghost outs: seq<Out>, ghost p0: Id, ghost d0: Deficits)
    returns (ghost r': Round)
    requires s.Valid() && !op.Take? && Playable(s.t, s.timing.now, [op])
    requires Steady(z, members, level, s.stirred, outs) ==> OnTrack(s.t, s.links, s.deficit, z, members, level, r, outs, p0, d0)
    modifies s
    ensures s.Valid() && s.timing.now == old(s.timing).now && s.served == old(s.served)
    ensures Steady(z, members, level, s.stirred, outs) ==> OnTrack(s.t, s.links, s.deficit, z, members, level, r', outs, p0, d0)
  {
    hide OnTrack, Steady, Calmed, LinkInv, TimedInv, LeavesInv, CountInv, Offered, Accounted;
    ghost var k, st := s.links, s.stirred;
    match op {
      case Put(pkt, target, accepts) =>
        var _ := s.Enqueue(pkt, target, accepts);
      case Cut(willing) =>
        var _, _ := s.Drop(willing);
    }
    CalmedDrifted(s.t, k, s.links, st, s.stirred);
    r' := SteadyDrift(s.t, k, s.deficit, s.links, st, s.stirred, z, members, level, r, outs, p0, d0);
  }

  lemma PlayableStep(t: Topology, now: int, now': int, ops: seq<Op>)
    requires ops != [] && Playable(t, now, ops) && now' <= if ops[0].Take? then ops[0].time else now
    ensures Playable(t, now, [ops[0]]) && Playable(t, now', ops[1..])
  {
    PlayableLater(t, now', if ops[0].Take? then ops[0].time else now, ops[1..]);
  }

  /** The leaves' records have the right shape. */
  lemma DeficitsShaped(s: Scheduler)
    requires s.Valid()
    ensures LinkInv(s.t, s.links) && Keyed(s.links) && s.deficit.Keys == s.t.Keys && forall x | x in s.t :: |s.deficit[x]| == MAXDEPTH
  {
  }

  /** Plays operations one after another.  If meanwhile the members of tree `z` stayed the same and were
      served at one level only, the packets `outs` that left the leaves make a round of that tree, and two
      leaves of the tree had their shares of the bytes. */
  method Play(s: Scheduler, ops: seq<Op>, ghost z: Slot, ghost level: nat) returns (ghost r: Round, ghost outs: seq<Out>)
    requires s.Valid() && Playable(s.t, s.timing.now, ops)
    requires z in s.links.tree && s.links.tree[z] != {} && level < MAXDEPTH
    modifies s
    ensures s.Valid() && s.served == old(s.served) + outs
    ensures Steady(z, old(s.links).tree[z], level, s.stirred, outs) ==>
              && Keyed(old(s.links))
              && OnTrack(s.t, s.links, s.deficit, z, old(s.links).tree[z], level, r, outs,
                         PlaceOf(old(s.links), z), DeficitsOf(old(s.deficit), old(s.links).tree[z], level))
    ensures Steady(z, old(s.links).tree[z], level, s.stirred, outs) ==>
              SharedFairly(s.t, old(s.links).tree[z], DeficitsOf(old(s.deficit), old(s.links).tree[z], level), outs)
  {
    hide OnTrack, Steady, SharedFairly, PlaceOf, DeficitsOf, LinkInv, TimedInv, LeavesInv, CountInv, Accounted;
    s.stirred := {};
    DeficitsShaped(s);
    ghost var members := s.links.tree[z];
    r := TrackBegins(s.t, s.links, s.deficit, z, level);
    ghost var p0, d0 := PlaceOf(s.links, z), DeficitsOf(s.deficit, members, level);
    outs := [];
    var i := 0;
    while i < |ops|
      invariant i <= |ops| && s.Valid() && Playable(s.t, s.timing.now, ops[i..])
      invariant s.served == old(s.served) + outs
      invariant Steady(z, members, level, s.stirred, outs) ==> OnTrack(s.t, s.links, s.deficit, z, members, level, r, outs, p0, d0)
    {
      ghost var now := s.timing.now;
      ghost var more := [];
      if ops[i].Take? {
        PlayableStep(s.t, now, ops[i].time, ops[i..]);
        r, more := PlayTake(s, ops[i], z, members, level, r, outs, p0, d0);
      } else {
        PlayableStep(s.t, now, now, ops[i..]);
        r := PlayOther(s, ops[i], z, members, level, r, outs, p0, d0);
        assert outs + more == outs;
      }
      PlayableStep(s.t, now, s.timing.now, ops[i..]);
      outs := outs + more;
      i := i + 1;
    }
    if Steady(z, members, level, s.stirred, outs) {
      TrackIsFair(s.t, s.links, s.deficit, z, members, level, r, outs, p0, d0);
    }
  }
}
