/** A run in which a trust rule is installed and then loses its flow. */
module FwOrphan {
  import opened Options
  import opened FwTable
  import opened FwRate
  import opened FwDpi
  import opened FwModel
  import opened FwInv
  import opened FwRuns

  // two hosts: address 1 on port 1 and address 2 on port 2 of switch 1
  const SRC: Endpoint := Endpoint(1, 100)
  const DST: Endpoint := Endpoint(2, 200)
  const FLOW: Key := Key(UDP, SRC, DST)

  const Start: State := State(map[], map[], map[], {}, {}, {}, map[], 1000, 1.0, map[], [], Stats(0, 0, 0, 0, 0, 0, 0, 0))

  /** Host 2 makes itself known. */
  const Hello: Step := PacketIn(1, 0.0, Frame(true, 2, 20, 10, Arp(20, 2)))

  /** Host 1 sends a datagram to host 2. */
  function Datagram(now: real): Step {
    PacketIn(1, now, Frame(true, 1, 10, 20, Ip4(Ipv4(UDP, 1, 2, Some(Transport(100, 200, 0, []))))))
  }

  /** The flow has sent `k` datagrams, the last one at `now`. */
  ghost predicate Sent(s: State, k: nat, now: real) {
    && 1 in s.net && s.blockedIps == {} && s.blockedPorts == {} && s.allowedIps == {}
    && s.limit == 1000 && s.window == 1.0
    && 1 in s.macs && 20 in s.macs[1]
    && EntryOf(s.trust, FLOW) == NewEntry.(count := k)
    && TimesOf(s.tracker, 1) == if k == 0 then [] else [now]
  }

  lemma Prepared()
    ensures Sent(Next(Next(Start, Handshake(1)), Hello), 0, 0.0)
  {
    var s := Next(Start, Handshake(1));
    assert 1 in s.net && s.arp == map[];
    assert Check(s, 1, 0.0, Hello.frame).verdict == Allowed;
  }

  /** A datagram a second passes all checks. */
  lemma Passing(s: State, k: nat, now: real)
    requires Sent(s, k, now)
    ensures Check(s, 1, now + 1.0, Datagram(now + 1.0).frame).verdict == Allowed
    ensures var s' := Check(s, 1, now + 1.0, Datagram(now + 1.0).frame).state;
            s' == s.(tracker := s.tracker[1 := [now + 1.0]])
  {
    var times := TimesOf(s.tracker, 1);
    assert DropExpired(times, now + 1.0, 1.0) == [] by {
      if k > 0 {
        assert times[1..] == [];
      }
    }
    assert [] + [now + 1.0] == [now + 1.0];
  }

  lemma SendsOne(s: State, k: nat, now: real)
    requires Sent(s, k, now) && k + 1 < TRUST_K
    ensures Sent(Next(s, Datagram(now + 1.0)), k + 1, now + 1.0)
  {
    Passing(s, k, now);
  }

  lemma SendsLast(s: State, now: real)
    requires Sent(s, TRUST_K - 1, now)
    ensures Installs(s, Datagram(now + 1.0)) && Pair(Datagram(now + 1.0)).0 == TrustRule(UDP, SRC, DST)
    ensures Holds(Next(s, Datagram(now + 1.0)), 1, TrustRule(UDP, SRC, DST)) && Trusted(Next(s, Datagram(now + 1.0)), FLOW)
  {
    Passing(s, TRUST_K - 1, now);
  }

  /** Five datagrams earn trust; then the port they come from is blocked. */
  const Script: seq<Step> := [Handshake(1), Hello, Datagram(1.0), Datagram(2.0), Datagram(3.0), Datagram(4.0), Datagram(5.0),
                              BlockPort(100, UDP)]

  function Play(s: State, steps: seq<Step>): (r: seq<State>)
    ensures |r| == |steps| + 1
  {
    if steps == [] then [s] else Play(s, steps[..|steps| - 1]) + [Next(Play(s, steps[..|steps| - 1])[|steps| - 1], steps[|steps| - 1])]
  }

  lemma {:induction false} PlayIsRun(s: State, steps: seq<Step>)
    requires Initial(s)
    ensures IsRun(Play(s, steps), steps) && Play(s, steps)[0] == s
    decreases |steps|
  {
    if steps != [] {
      var n := |steps| - 1;
      PlayIsRun(s, steps[..n]);
      var before, all := Play(s, steps[..n]), Play(s, steps);
      forall i, j | 0 <= i < |steps| && j == i + 1 ensures Taken(all[i], steps[i], all[j]) {
        if i < n {
          assert Taken(before[i], steps[..n][i], before[j]);
        }
      }
    }
  }

  lemma PreparedInRun(ss: seq<State>, steps: seq<Step>)
    requires IsRun(ss, steps) && |steps| > 2 && ss[0] == Start && steps[0] == Handshake(1) && steps[1] == Hello
    ensures Sent(ss[2], 0, 0.0)
  {
    assert Taken(ss[0], steps[0], ss[1]) && Taken(ss[1], steps[1], ss[2]);
    Prepared();
  }

  lemma SendsInRun(ss: seq<State>, steps: seq<Step>, i: nat, k: nat, now: real)
    requires IsRun(ss, steps) && i < |steps| && steps[i] == Datagram(now + 1.0) && Sent(ss[i], k, now) && k + 1 < TRUST_K
    ensures Sent(ss[i + 1], k + 1, now + 1.0)
  {
    assert Taken(ss[i], steps[i], ss[i + 1]);
    SendsOne(ss[i], k, now);
  }

  lemma AfterFour(ss: seq<State>)
    requires IsRun(ss, Script) && ss[0] == Start
    ensures Sent(ss[6], 4, 4.0)
  {
    PreparedInRun(ss, Script);
    SendsInRun(ss, Script, 2, 0, 0.0);
    SendsInRun(ss, Script, 3, 1, 1.0);
    SendsInRun(ss, Script, 4, 2, 2.0);
    SendsInRun(ss, Script, 5, 3, 3.0);
  }

  lemma LastInRun(ss: seq<State>, steps: seq<Step>, i: nat, now: real)
    requires IsRun(ss, steps) && i + 1 < |steps| && steps[i] == Datagram(now + 1.0) && steps[i + 1] == BlockPort(100, UDP)
    requires Sent(ss[i], TRUST_K - 1, now)
    ensures InstalledAt(ss, steps, i, i + 2, 1, TrustRule(UDP, SRC, DST)) && Trusted(ss[i + 1], FLOW) && FLOW !in ss[i + 2].trust
  {
    InstalledInRun(ss, steps, i, now);
    BlockedInRun(ss, steps, i + 1);
  }

  lemma InstalledInRun(ss: seq<State>, steps: seq<Step>, i: nat, now: real)
    requires IsRun(ss, steps) && i < |steps| && steps[i] == Datagram(now + 1.0) && Sent(ss[i], TRUST_K - 1, now)
    ensures InstallsRule(ss[i], steps[i], 1, TrustRule(UDP, SRC, DST))
    ensures Holds(ss[i + 1], 1, TrustRule(UDP, SRC, DST)) && Trusted(ss[i + 1], FLOW)
    ensures ss[i + 1].net[1][TrustRule(UDP, SRC, DST)] == PairRule(steps[i].frame, PortOut(ss[i], steps[i]), TrustRule(UDP, SRC, DST))
  {
    assert Taken(ss[i], steps[i], ss[i + 1]);
    SendsLast(ss[i], now);
    assert IsTrustRule(TrustRule(UDP, SRC, DST));
    StepOrigin(ss[i], steps[i], 1, TrustRule(UDP, SRC, DST));
  }

  lemma BlockedInRun(ss: seq<State>, steps: seq<Step>, i: nat)
    requires IsRun(ss, steps) && i < |steps| && steps[i] == BlockPort(100, UDP) && Holds(ss[i], 1, TrustRule(UDP, SRC, DST))
    ensures Holds(ss[i + 1], 1, TrustRule(UDP, SRC, DST)) && FLOW !in ss[i + 1].trust
    ensures ss[i + 1].net[1][TrustRule(UDP, SRC, DST)] == ss[i].net[1][TrustRule(UDP, SRC, DST)]
  {
    assert Taken(ss[i], steps[i], ss[i + 1]);
    PortFlushLeavesOrphans(ss[i], 100, UDP, 1, SRC, DST);
    assert IsTrustRule(TrustRule(UDP, SRC, DST));
    StepOrigin(ss[i], steps[i], 1, TrustRule(UDP, SRC, DST));
  }

  /** The rule installed by the last datagram stays on the switch when its source port is blocked, but its
      flow is gone. */
  lemma OrphanedRule() returns (ss: seq<State>)
    ensures IsRun(ss, Script)
    ensures InstalledAt(ss, Script, 6, 8, 1, TrustRule(UDP, SRC, DST)) && Trusted(ss[7], FLOW)
    ensures FLOW !in ss[8].trust && Orphaned(ss, Script, 6, 8, UDP, SRC, FLOW)
  {
    ss := Play(Start, Script);
    PlayIsRun(Start, Script);
    AfterFour(ss);
    LastInRun(ss, Script, 6, 4.0);
    assert OrphanedAt(ss, Script, 7, 8, UDP, SRC, FLOW);
  }
}
