/** Fairness of the deficit round robin among the leaves of one tree. */
module HtbFair {
  import opened HtbLinks
  import opened HtbReach
  import opened HtbSweep
  import opened HtbQueues

  // ---------- the place of a tree ----------

  /** The class after `p` in the circular order of the members. */
  function After(members: set<Id>, p: Id): Id {
    if NextAbove(members, p) != 0 then NextAbove(members, p) else Least(members)
  }

  /** Where the round robin of a tree stands: its cursor, or the first member when that is past the end. */
  function Place(members: set<Id>, cursor: Id): Id {
    if cursor != 0 then cursor else Least(members)
  }

  /** From place `p`, `n` inner classes were passed, up to place `c`. */
  ghost predicate Skips(t: Topology, members: set<Id>, p: Id, n: nat, c: Id)
    decreases n
  {
    if n == 0 then p == c
    else p in t && t[p].level > 0 && Skips(t, members, After(members, p), n - 1, c)
  }

  lemma {:induction false} SkipsMore(t: Topology, members: set<Id>, p: Id, n: nat, c: Id)
    requires Skips(t, members, p, n, c) && c in t && t[c].level > 0
    ensures Skips(t, members, p, n + 1, After(members, c))
    decreases n
  {
    if n > 0 {
      SkipsMore(t, members, After(members, p), n - 1, c);
    }
  }

  /** The place of every tree has moved past inner classes only. */
  ghost predicate OnlySkips(t: Topology, tree: Trees, cur: Cursors, cur': Cursors) {
    && cur.Keys == tree.Keys && cur'.Keys == tree.Keys
    && forall z {:trigger cur'[z]} | z in tree :: exists n: nat :: Skips(t, tree[z], Place(tree[z], cur[z]), n, Place(tree[z], cur'[z]))
  }

  /** One move of the search passes at most one inner class of one tree. */
  lemma StepSkips(t: Topology, tree: Trees, x: Config, y: Config, z: Slot)
    requires Leads(t, tree, x, y) && z in tree
    ensures var p, p' := Place(tree[z], CursorMap(tree, x.ptr, x.last)[z]), Place(tree[z], CursorMap(tree, y.ptr, y.last)[z]);
            p' == p || (p in t && t[p].level > 0 && p' == After(tree[z], p))
  {
    var s, c := Top(x), Here(t, tree, x);
    if c == 0 && |x.stk| > 1 {
      var u := x.stk[|x.stk| - 2];
      StackIsDistinct(t, tree, x.stk, |x.stk| - 2);
      if z == u {
        assert x.ptr[u] == s.cls && Height(t, s) > 0;
      }
    }
  }

  lemma OneMoreSkip(t: Topology, tree: Trees, cur: Cursors, cur1: Cursors, cur2: Cursors)
    requires OnlySkips(t, tree, cur, cur1) && cur2.Keys == tree.Keys
    requires forall z | z in tree ::
               var p, p' := Place(tree[z], cur1[z]), Place(tree[z], cur2[z]);
               p' == p || (p in t && t[p].level > 0 && p' == After(tree[z], p))
    ensures OnlySkips(t, tree, cur, cur2)
  {
    forall z | z in tree ensures exists n: nat :: Skips(t, tree[z], Place(tree[z], cur[z]), n, Place(tree[z], cur2[z])) {
      var p := Place(tree[z], cur1[z]);
      assert cur1[z] == cur1[z];
      var n: nat :| Skips(t, tree[z], Place(tree[z], cur[z]), n, p);
      if Place(tree[z], cur2[z]) != p {
        SkipsMore(t, tree[z], Place(tree[z], cur[z]), n, p);
      }
    }
  }

  /** A whole search passes inner classes only: it never passes a leaf. */
  lemma {:induction false} TraceSkips(t: Topology, tree: Trees, trace: seq<Config>)
    requires IsTrace(t, tree, trace)
    ensures var x, y := trace[0], trace[|trace| - 1];
            OnlySkips(t, tree, CursorMap(tree, x.ptr, x.last), CursorMap(tree, y.ptr, y.last))
    decreases |trace|
  {
    var n := |trace| - 1;
    if n == 0 {
      var cur := CursorMap(tree, trace[0].ptr, trace[0].last);
      forall z | z in tree ensures exists n: nat :: Skips(t, tree[z], Place(tree[z], cur[z]), n, Place(tree[z], cur[z])) {
        assert Skips(t, tree[z], Place(tree[z], cur[z]), 0, Place(tree[z], cur[z]));
      }
    } else {
      var shorter := ShorterTrace(t, tree, trace);
      TraceSkips(t, tree, shorter);
      forall z | z in tree ensures
        var cur1, cur2 := CursorMap(tree, trace[n - 1].ptr, trace[n - 1].last), CursorMap(tree, trace[n].ptr, trace[n].last);
        var p, p' := Place(tree[z], cur1[z]), Place(tree[z], cur2[z]);
        p' == p || (p in t && t[p].level > 0 && p' == After(tree[z], p))
      {
        StepSkips(t, tree, trace[n - 1], trace[n], z);
      }
      OneMoreSkip(t, tree, CursorMap(tree, trace[0].ptr, trace[0].last),
                  CursorMap(tree, trace[n - 1].ptr, trace[n - 1].last), CursorMap(tree, trace[n].ptr, trace[n].last));
    }
  }

  // ---------- rounds ----------

  /** What happens at the place of a tree: an inner class is passed, or a leaf sends a packet. */
  datatype Beat = Skip | Send(bytes: nat)

  type Deficits = map<Id, int>

  /** The place and the leaves' deficits before and after. */
  predicate Beats(t: Topology, members: set<Id>, p: Id, d: Deficits, beat: Beat, p': Id, d': Deficits) {
    && p in t && p in d
    && match beat
       case Skip => t[p].level > 0 && p' == After(members, p) && d' == d
       case Send(bytes) =>
         && t[p].level == 0
         && d' == d[p := DeficitAfter(d[p], bytes, t[p].quantum)]
         && p' == if d[p] < bytes then After(members, p) else p
  }

  /** A run of the round robin of a tree whose members stay the same and have packets all the time. */
  ghost predicate IsRound(t: Topology, members: set<Id>, ps: seq<Id>, ds: seq<Deficits>, beats: seq<Beat>) {
    && |ps| == |beats| + 1 && |ds| == |beats| + 1 && ps[0] in members
    && 0 !in members && (forall x | x in members :: x in t && x in ds[0])
    && forall i, j | 0 <= i < |beats| && j == i + 1 :: Beats(t, members, ps[i], ds[i], beats[i], ps[j], ds[j])
  }

  /** The bytes that leaf `x` sent in the first `n` beats, and how often its turn ended. */
  function Sent(ps: seq<Id>, beats: seq<Beat>, n: nat, x: Id): nat
    requires n <= |beats| && n <= |ps|
  {
    if n == 0 then 0
    else Sent(ps, beats, n - 1, x) + if ps[n - 1] == x && beats[n - 1].Send? then beats[n - 1].bytes else 0
  }

  predicate TurnEnds(p: Id, d: Deficits, beat: Beat, x: Id) {
    p == x && x in d && beat.Send? && d[x] < beat.bytes
  }

  function Turns(ps: seq<Id>, ds: seq<Deficits>, beats: seq<Beat>, n: nat, x: Id): nat
    requires n <= |beats| && n <= |ps| && n <= |ds|
  {
    if n == 0 then 0
    else Turns(ps, ds, beats, n - 1, x) + if TurnEnds(ps[n - 1], ds[n - 1], beats[n - 1], x) then 1 else 0
  }

  /** The leaves' deficits on one level. */
  function OnLevel(deficit: map<Id, seq<int>>, level: nat): Deficits {
    map c | c in deficit && level < |deficit[c]| :: deficit[c][level]
  }

  lemma OnLevelAfter(deficit: map<Id, seq<int>>, level: nat, c: Id, d: int)
    requires c in deficit && level < |deficit[c]|
    ensures OnLevel(deficit[c := deficit[c][level := d]], level) == OnLevel(deficit, level)[c := d]
  {
  }

  /** Ending or continuing the turn of a leaf is one beat. */
  lemma TurnIsBeat(t: Topology, members: set<Id>, deficit: map<Id, seq<int>>, level: nat, c: Id, bytes: nat, ptr': Id, deficit': map<Id, seq<int>>)
    requires c in t && c != 0 && t[c].level == 0 && c in deficit && level < |deficit[c]|
    requires deficit' == deficit[c := deficit[c][level := DeficitAfter(deficit[c][level], bytes, t[c].quantum)]]
    requires ptr' == if deficit[c][level] < bytes then NextAbove(members, c) else c
    ensures Beats(t, members, c, OnLevel(deficit, level), Send(bytes), Place(members, ptr'), OnLevel(deficit', level))
  {
    OnLevelAfter(deficit, level, c, DeficitAfter(deficit[c][level], bytes, t[c].quantum));
  }

  lemma AfterIsMember(members: set<Id>, p: Id)
    requires p in members && 0 !in members
    ensures After(members, p) in members
  {
  }

  lemma {:induction false} StaysInside(t: Topology, members: set<Id>, ps: seq<Id>, ds: seq<Deficits>, beats: seq<Beat>, n: nat)
    requires IsRound(t, members, ps, ds, beats) && n <= |beats|
    ensures ps[n] in members && forall x | x in members :: x in ds[n]
  {
    if n > 0 {
      StaysInside(t, members, ps, ds, beats, n - 1);
      assert Beats(t, members, ps[n - 1], ds[n - 1], beats[n - 1], ps[n], ds[n]);
      AfterIsMember(members, ps[n - 1]);
    }
  }

  lemma OneTurn(turns: int, quantum: int)
    ensures (turns + 1) * quantum == turns * quantum + quantum
  {
  }

  /** What a leaf sent is paid for by its turns and its deficit. */
  lemma {:induction false} SentIsPaid(t: Topology, members: set<Id>, ps: seq<Id>, ds: seq<Deficits>, beats: seq<Beat>, n: nat, x: Id)
    requires IsRound(t, members, ps, ds, beats) && n <= |beats| && x in members
    ensures x in ds[0] && x in ds[n]
    ensures Sent(ps, beats, n, x) == Turns(ps, ds, beats, n, x) * t[x].quantum + ds[0][x] - ds[n][x]
  {
    StaysInside(t, members, ps, ds, beats, n);
    if n > 0 {
      SentIsPaid(t, members, ps, ds, beats, n - 1, x);
      OneTurn(Turns(ps, ds, beats, n - 1, x), t[x].quantum);
      assert Beats(t, members, ps[n - 1], ds[n - 1], beats[n - 1], ps[n], ds[n]);
    }
  }

  /** The place is behind `a` and has not passed `b`. */
  function Between(a: Id, p: Id, b: Id): int { if a < p <= b then 1 else 0 }

  lemma BeatAlternates(t: Topology, members: set<Id>, p: Id, d: Deficits, beat: Beat, p': Id, d': Deficits, a: Id, b: Id)
    requires Beats(t, members, p, d, beat, p', d') && p in members && 0 !in members
    requires a in members && b in members && a < b && a in t && b in t && t[a].level == 0 && t[b].level == 0
    ensures (if TurnEnds(p, d, beat, a) then 1 else 0) - (if TurnEnds(p, d, beat, b) then 1 else 0) == Between(a, p', b) - Between(a, p, b)
  {
  }

  /** The turns of two leaves alternate: their numbers differ by at most one. */
  lemma {:induction false} TurnsAlternate(t: Topology, members: set<Id>, ps: seq<Id>, ds: seq<Deficits>, beats: seq<Beat>, n: nat, a: Id, b: Id)
    requires IsRound(t, members, ps, ds, beats) && n <= |beats|
    requires a in members && b in members && a < b && t[a].level == 0 && t[b].level == 0
    ensures Turns(ps, ds, beats, n, a) - Turns(ps, ds, beats, n, b) == Between(a, ps[n], b) - Between(a, ps[0], b)
  {
    if n > 0 {
      TurnsAlternate(t, members, ps, ds, beats, n - 1, a, b);
      StaysInside(t, members, ps, ds, beats, n - 1);
      assert Beats(t, members, ps[n - 1], ds[n - 1], beats[n - 1], ps[n], ds[n]);
      BeatAlternates(t, members, ps[n - 1], ds[n - 1], beats[n - 1], ps[n], ds[n], a, b);
    }
  }

  /** A packet keeps every deficit between 0 and the quantum exactly if it is no longer than the quantum. */
  lemma DeficitStaysIff(quantum: int, bytes: nat)
    requires quantum > 0
    ensures (forall d | 0 <= d < quantum :: 0 <= DeficitAfter(d, bytes, quantum) < quantum) <==> bytes <= quantum
  {
    if bytes > quantum {
      assert DeficitAfter(0, bytes, quantum) < 0;
    }
  }

  /** No packet of leaf `x` is longer than its quantum. */
  ghost predicate FitsQuantum(t: Topology, ps: seq<Id>, beats: seq<Beat>, x: Id)
    requires x in t && |beats| <= |ps|
  {
    forall i | 0 <= i < |beats| && ps[i] == x && beats[i].Send? :: beats[i].bytes <= t[x].quantum
  }

  lemma {:induction false} DeficitStays(t: Topology, members: set<Id>, ps: seq<Id>, ds: seq<Deficits>, beats: seq<Beat>, n: nat, x: Id)
    requires IsRound(t, members, ps, ds, beats) && n <= |beats| && x in members && FitsQuantum(t, ps, beats, x)
    requires 0 <= ds[0][x] < t[x].quantum
    ensures x in ds[n] && 0 <= ds[n][x] < t[x].quantum
  {
    StaysInside(t, members, ps, ds, beats, n);
    if n > 0 {
      DeficitStays(t, members, ps, ds, beats, n - 1, x);
      assert Beats(t, members, ps[n - 1], ds[n - 1], beats[n - 1], ps[n], ds[n]);
    }
  }

  lemma Scale(r: int, q: int, m: int)
    requires 0 - q < r < q && m > 0
    ensures 0 - q * m < r * m < q * m
  {
  }

  lemma Expand(ta: int, tb: int, qa: int, qb: int, ra: int, rb: int)
    ensures (ta * qa + ra) * qb - (tb * qb + rb) * qa == ta * (qa * qb) - tb * (qa * qb) + ra * qb - rb * qa
  {
    assert (ta * qa + ra) * qb == ta * qa * qb + ra * qb && (tb * qb + rb) * qa == tb * qb * qa + rb * qa;
    assert ta * qa * qb == ta * (qa * qb) && tb * qb * qa == tb * (qa * qb);
  }

  lemma Gap(ta: int, tb: int, m: int)
    requires -1 <= ta - tb <= 1 && m > 0
    ensures 0 - m <= ta * m - tb * m <= m
  {
    assert ta * m - tb * m == (ta - tb) * m;
    if ta - tb == 1 {
      assert (ta - tb) * m == m;
    } else if ta == tb {
      assert (ta - tb) * m == 0;
    } else {
      assert (ta - tb) * m == 0 - m;
    }
  }

  /** `x` is what two services differ by, split into whole turns `g` and remainders `y` and `z`. */
  lemma Within3(x: int, g: int, y: int, z: int, m: int)
    requires x == g + y - z && 0 - m <= g <= m && 0 - m < y < m && 0 - m < z < m
    ensures 0 - 3 * m < x < 3 * m
  {
  }

  lemma Product(qa: int, qb: int)
    requires qa > 0 && qb > 0
    ensures qa * qb > 0 && qb * qa == qa * qb
  {
  }

  lemma Cross(ta: nat, tb: nat, qa: int, qb: int, ra: int, rb: int, x: int)
    requires -1 <= ta - tb <= 1 && qa > 0 && qb > 0 && 0 - qa < ra < qa && 0 - qb < rb < qb
    requires x == (ta * qa + ra) * qb - (tb * qb + rb) * qa
    ensures 0 - 3 * (qa * qb) < x < 3 * (qa * qb)
  {
    Expand(ta, tb, qa, qb, ra, rb);
    Product(qa, qb);
    Scale(ra, qa, qb);
    Scale(rb, qb, qa);
    Gap(ta, tb, qa * qb);
    Within3(x, ta * (qa * qb) - tb * (qa * qb), ra * qb, rb * qa, qa * qb);
  }

  /** Two leaves of one tree that have packets all the time, none longer than its leaf's quantum, share
      the service in proportion to their quanta: over any run, what they sent, counted in quanta, differs
      by less than three. */
  lemma ServiceIsFair(t: Topology, members: set<Id>, ps: seq<Id>, ds: seq<Deficits>, beats: seq<Beat>, a: Id, b: Id)
    requires IsRound(t, members, ps, ds, beats)
    requires a in members && b in members && a != b && t[a].level == 0 && t[b].level == 0
    requires FitsQuantum(t, ps, beats, a) && FitsQuantum(t, ps, beats, b)
    requires 0 <= ds[0][a] < t[a].quantum && 0 <= ds[0][b] < t[b].quantum
    ensures var n := |beats|;
            0 - 3 * (t[a].quantum * t[b].quantum)
              < Sent(ps, beats, n, a) * t[b].quantum - Sent(ps, beats, n, b) * t[a].quantum
              < 3 * (t[a].quantum * t[b].quantum)
  {
    var n := |beats|;
    var ta, tb := Turns(ps, ds, beats, n, a), Turns(ps, ds, beats, n, b);
    SentIsPaid(t, members, ps, ds, beats, n, a);
    SentIsPaid(t, members, ps, ds, beats, n, b);
    DeficitStays(t, members, ps, ds, beats, n, a);
    DeficitStays(t, members, ps, ds, beats, n, b);
    if a < b {
      TurnsAlternate(t, members, ps, ds, beats, n, a, b);
    } else {
      TurnsAlternate(t, members, ps, ds, beats, n, b, a);
    }
    Cross(ta, tb, t[a].quantum, t[b].quantum, ds[0][a] - ds[n][a], ds[0][b] - ds[n][b],
          Sent(ps, beats, n, a) * t[b].quantum - Sent(ps, beats, n, b) * t[a].quantum);
  }

  // ---------- what operations do to the rounds ----------

  /** Where the round robin of tree `s` stands. */
  function PlaceOf(k: Links, s: Slot): Id
    requires s in k.tree && s in k.ptr && s in k.last
  {
    Place(k.tree[s], Cursor(k.tree[s], k.ptr[s], k.last[s]))
  }

  predicate Keyed(k: Links) { k.ptr.Keys == k.tree.Keys && k.last.Keys == k.tree.Keys }

  /** Trees outside `stirred` kept their members, pointers and remembered identifiers. */
  ghost predicate Calm(k: Links, k': Links, stirred: set<Slot>) {
    && Keyed(k) && Keyed(k') && k'.tree.Keys == k.tree.Keys
    && forall s {:trigger k'.tree[s]} {:trigger k'.ptr[s]} {:trigger k'.last[s]} | s in k.tree && s !in stirred ::
         k'.tree[s] == k.tree[s] && k'.ptr[s] == k.ptr[s] && k'.last[s] == k.last[s]
  }

  /** The same, where `stirred` has grown from `before`. */
  ghost predicate Calmed(k: Links, k': Links, before: set<Slot>, stirred: set<Slot>) {
    before <= stirred && Calm(k, k', stirred)
  }

  lemma CalmedTrans(k: Links, k1: Links, k2: Links, s0: set<Slot>, s1: set<Slot>, s2: set<Slot>)
    requires Calmed(k, k1, s0, s1) && Calmed(k1, k2, s1, s2)
    ensures Calmed(k, k2, s0, s2)
  {
    forall s | s in k.tree && s !in s2 ensures k2.tree[s] == k.tree[s] && k2.ptr[s] == k.ptr[s] && k2.last[s] == k.last[s] {
      assert s !in s1;
      assert k1.tree[s] == k.tree[s];
    }
  }

  /** Changes that leave trees, pointers and remembered identifiers alone are calm. */
  lemma StaysCalm(k: Links, k': Links, s: set<Slot>)
    requires Keyed(k) && k'.tree == k.tree && k'.ptr == k.ptr && k'.last == k.last
    ensures Calmed(k, k', s, s)
  {
  }

  lemma CalmedSame(k: Links, k1: Links, k': Links, s0: set<Slot>, s1: set<Slot>)
    requires Calmed(k, k1, s0, s1) && k'.tree == k1.tree && k'.ptr == k1.ptr && k'.last == k1.last
    ensures Calmed(k, k', s0, s1)
  {
    forall s | s in k.tree && s !in s1 ensures k'.tree[s] == k.tree[s] && k'.ptr[s] == k.ptr[s] && k'.last[s] == k.last[s] {
      assert k1.tree[s] == k.tree[s];
    }
  }

  lemma {:induction false} SkipsOn(t: Topology, members: set<Id>, p: Id, n: nat, q: Id, m: nat, r: Id)
    requires Skips(t, members, p, n, q) && Skips(t, members, q, m, r)
    ensures Skips(t, members, p, n + m, r)
    decreases n
  {
    if n > 0 {
      SkipsOn(t, members, After(members, p), n - 1, q, m, r);
    }
  }

  /** Place `q` is reached from `p` past inner classes only. */
  ghost predicate SkipsTo(t: Topology, members: set<Id>, p: Id, q: Id) {
    exists n: nat :: Skips(t, members, p, n, q)
  }

  lemma SkipsToSelf(t: Topology, members: set<Id>, p: Id)
    ensures SkipsTo(t, members, p, p)
  {
    assert Skips(t, members, p, 0, p);
  }

  lemma SkipsToTrans(t: Topology, members: set<Id>, p: Id, q: Id, r: Id)
    requires SkipsTo(t, members, p, q) && SkipsTo(t, members, q, r)
    ensures SkipsTo(t, members, p, r)
  {
    var n: nat :| Skips(t, members, p, n, q);
    var m: nat :| Skips(t, members, q, m, r);
    SkipsOn(t, members, p, n, q, m, r);
  }

  /** Trees outside `stirred` kept their members, and their places moved past inner classes only. */
  ghost predicate Drifts(t: Topology, k: Links, k': Links, stirred: set<Slot>) {
    && Keyed(k) && Keyed(k') && k'.tree.Keys == k.tree.Keys
    && forall s {:trigger k'.tree[s]} | s in k.tree && s !in stirred ::
         k'.tree[s] == k.tree[s] && SkipsTo(t, k.tree[s], PlaceOf(k, s), PlaceOf(k', s))
  }

  ghost predicate Drifted(t: Topology, k: Links, k': Links, before: set<Slot>, stirred: set<Slot>) {
    before <= stirred && Drifts(t, k, k', stirred)
  }

  lemma CalmedDrifted(t: Topology, k: Links, k': Links, s0: set<Slot>, s1: set<Slot>)
    requires Calmed(k, k', s0, s1)
    ensures Drifted(t, k, k', s0, s1)
  {
    forall s | s in k.tree && s !in s1 ensures k'.tree[s] == k.tree[s] && SkipsTo(t, k.tree[s], PlaceOf(k, s), PlaceOf(k', s)) {
      assert k'.tree[s] == k.tree[s];
      SkipsToSelf(t, k.tree[s], PlaceOf(k, s));
    }
  }

  lemma DriftedTrans(t: Topology, k: Links, k1: Links, k2: Links, s0: set<Slot>, s1: set<Slot>, s2: set<Slot>)
    requires Drifted(t, k, k1, s0, s1) && Drifted(t, k1, k2, s1, s2)
    ensures Drifted(t, k, k2, s0, s2)
  {
    forall s | s in k.tree && s !in s2 ensures k2.tree[s] == k.tree[s] && SkipsTo(t, k.tree[s], PlaceOf(k, s), PlaceOf(k2, s)) {
      assert s !in s1;
      assert k1.tree[s] == k.tree[s] && k2.tree[s] == k1.tree[s];
      SkipsToTrans(t, k.tree[s], PlaceOf(k, s), PlaceOf(k1, s), PlaceOf(k2, s));
    }
  }

  /** A search drifts. */
  lemma SearchDrifts(t: Topology, k: Links, k': Links, s0: set<Slot>)
    requires Keyed(k) && Keyed(k') && k'.tree == k.tree
    requires OnlySkips(t, k.tree, CursorMap(k.tree, k.ptr, k.last), CursorMap(k.tree, k'.ptr, k'.last))
    ensures Drifted(t, k, k', s0, s0)
  {
    var cur, cur' := CursorMap(k.tree, k.ptr, k.last), CursorMap(k.tree, k'.ptr, k'.last);
    forall s | s in k.tree ensures SkipsTo(t, k.tree[s], PlaceOf(k, s), PlaceOf(k', s)) {
      assert cur'[s] == Cursor(k.tree[s], k'.ptr[s], k'.last[s]);
      var n: nat :| Skips(t, k.tree[s], Place(k.tree[s], cur[s]), n, Place(k.tree[s], cur'[s]));
      assert Skips(t, k.tree[s], PlaceOf(k, s), n, PlaceOf(k', s));
    }
  }

  /** The deficits of a tree's members on one level. */
  function DeficitsOf(deficit: map<Id, seq<int>>, members: set<Id>, level: nat): Deficits {
    map x | x in members && x in deficit && level < |deficit[x]| :: deficit[x][level]
  }

  /** Leaf `c` sent `bytes` on `level`: only its deficit there changed, by the rules of its turn. */
  predicate DeficitTaken(t: Topology, d: map<Id, seq<int>>, d': map<Id, seq<int>>, c: Id, level: nat, bytes: nat) {
    && c in t && c in d && level < |d[c]|
    && d' == d[c := d[c][level := DeficitAfter(d[c][level], bytes, t[c].quantum)]]
  }

  /** Trees outside `stirred` kept their members; in tree `home` the place moved past inner classes to leaf
      `c`, which then sent: one beat; in the others, past inner classes only. */
  ghost predicate Advances(t: Topology, k: Links, d: map<Id, seq<int>>, k': Links, d': map<Id, seq<int>>, stirred: set<Slot>,
                           home: Slot, c: Id, level: nat, bytes: nat)
  {
    && Keyed(k) && Keyed(k') && k'.tree.Keys == k.tree.Keys && DeficitTaken(t, d, d', c, level, bytes)
    && forall s {:trigger k'.tree[s]} | s in k.tree && s !in stirred ::
         && k'.tree[s] == k.tree[s]
         && if s == home
            then c in k.tree[s] && SkipsTo(t, k.tree[s], PlaceOf(k, s), c)
                 && Beats(t, k.tree[s], c, DeficitsOf(d, k.tree[s], level), Send(bytes), PlaceOf(k', s), DeficitsOf(d', k.tree[s], level))
            else c !in k.tree[s] && SkipsTo(t, k.tree[s], PlaceOf(k, s), PlaceOf(k', s))
  }

  ghost predicate Advanced(t: Topology, k: Links, d: map<Id, seq<int>>, k': Links, d': map<Id, seq<int>>, before: set<Slot>, stirred: set<Slot>,
                           home: Slot, c: Id, level: nat, bytes: nat)
  {
    before <= stirred && Advances(t, k, d, k', d', stirred, home, c, level, bytes)
  }

  lemma DriftThenAdvance(t: Topology, k: Links, d: map<Id, seq<int>>, k1: Links, k': Links, d': map<Id, seq<int>>,
                         s0: set<Slot>, s1: set<Slot>, s2: set<Slot>, home: Slot, c: Id, level: nat, bytes: nat)
    requires Drifted(t, k, k1, s0, s1) && Advanced(t, k1, d, k', d', s1, s2, home, c, level, bytes)
    ensures Advanced(t, k, d, k', d', s0, s2, home, c, level, bytes)
  {
    forall s | s in k.tree && s !in s2
      ensures k'.tree[s] == k.tree[s]
      ensures if s == home
              then c in k.tree[s] && SkipsTo(t, k.tree[s], PlaceOf(k, s), c)
                   && Beats(t, k.tree[s], c, DeficitsOf(d, k.tree[s], level), Send(bytes), PlaceOf(k', s), DeficitsOf(d', k.tree[s], level))
              else c !in k.tree[s] && SkipsTo(t, k.tree[s], PlaceOf(k, s), PlaceOf(k', s))
    {
      assert s !in s1;
      assert k1.tree[s] == k.tree[s] && k'.tree[s] == k1.tree[s];
      SkipsToTrans(t, k.tree[s], PlaceOf(k, s), PlaceOf(k1, s), if s == home then c else PlaceOf(k', s));
    }
  }

  lemma AdvanceThenCalm(t: Topology, k: Links, d: map<Id, seq<int>>, k1: Links, d': map<Id, seq<int>>, k': Links,
                        s0: set<Slot>, s1: set<Slot>, s2: set<Slot>, home: Slot, c: Id, level: nat, bytes: nat)
    requires Advanced(t, k, d, k1, d', s0, s1, home, c, level, bytes) && Calmed(k1, k', s1, s2)
    ensures Advanced(t, k, d, k', d', s0, s2, home, c, level, bytes)
  {
    forall s | s in k.tree && s !in s2
      ensures k'.tree[s] == k.tree[s] && PlaceOf(k', s) == PlaceOf(k1, s)
    {
      assert s !in s1;
      assert k1.tree[s] == k.tree[s] && k'.tree[s] == k1.tree[s];
    }
  }

  /** The end of a turn, for a leaf that only its home tree holds. */
  lemma TurnAdvances(t: Topology, k: Links, d: map<Id, seq<int>>, k': Links, d': map<Id, seq<int>>, stirred: set<Slot>,
                     home: Slot, c: Id, level: nat, bytes: nat)
    requires Keyed(k) && k'.tree == k.tree && k'.last == k.last && c in t && t[c].level == 0 && c != 0
    requires AtCursor(t, k, home, c) && OnlyIn(k.tree, home, c)
    requires DeficitTaken(t, d, d', c, level, bytes)
    requires k'.ptr == if d[c][level] < bytes then k.ptr[home := NextAbove(k.tree[home], c)] else k.ptr
    ensures Advanced(t, k, d, k', d', stirred, stirred, home, c, level, bytes)
  {
    forall s | s in k.tree && s !in stirred
      ensures k'.tree[s] == k.tree[s]
      ensures if s == home
              then c in k.tree[s] && SkipsTo(t, k.tree[s], PlaceOf(k, s), c)
                   && Beats(t, k.tree[s], c, DeficitsOf(d, k.tree[s], level), Send(bytes), PlaceOf(k', s), DeficitsOf(d', k.tree[s], level))
              else c !in k.tree[s] && SkipsTo(t, k.tree[s], PlaceOf(k, s), PlaceOf(k', s))
    {
      SkipsToSelf(t, k.tree[s], PlaceOf(k, s));
      if s == home {
        assert DeficitsOf(d', k.tree[s], level) == DeficitsOf(d, k.tree[s], level)[c := DeficitAfter(d[c][level], bytes, t[c].quantum)];
      }
    }
  }
}
