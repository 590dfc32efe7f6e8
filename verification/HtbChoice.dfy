/** Which packet a dequeue takes: the modes the due events give, the lowest level that has something to
    serve, its most urgent priority, and the leaf whose turn it is there. */
module HtbChoice {
  import opened HtbLinks
  import opened HtbReach
  import opened HtbSweep
  import opened HtbTokens
  import opened HtbQueues

  // ---------- leaves dropped on the way ----------

  /** Some leaves without packets became inactive; the others are as before. */
  ghost predicate Pruned(t: Topology, act: map<Id, set<nat>>, act': map<Id, set<nat>>, q: Queues) {
    && act.Keys == t.Keys && act'.Keys == t.Keys
    && forall d {:trigger act'[d]} | d in t && t[d].level == 0 :: act'[d] == act[d] || (d in q && q[d] == [] && act'[d] == {})
  }

  lemma PrunedTrans(t: Topology, act: map<Id, set<nat>>, act1: map<Id, set<nat>>, act2: map<Id, set<nat>>, q: Queues)
    requires Pruned(t, act, act1, q) && Pruned(t, act1, act2, q)
    ensures Pruned(t, act, act2, q)
  {
    forall d | d in t && t[d].level == 0 ensures act2[d] == act[d] || (d in q && q[d] == [] && act2[d] == {}) {
      assert act1[d] == act[d] || (d in q && q[d] == [] && act1[d] == {});
    }
  }

  lemma DroppedIsPruned(t: Topology, act: map<Id, set<nat>>, act': map<Id, set<nat>>, q: Queues, c: Id)
    requires act.Keys == t.Keys && act'.Keys == t.Keys && c in q && q[c] == [] && (c in t ==> act'[c] == {})
    requires forall d | d in t && t[d].level == 0 && d != c :: act'[d] == act[d]
    ensures Pruned(t, act, act', q)
  {
  }

  lemma KeptIsPruned(t: Topology, act: map<Id, set<nat>>, act': map<Id, set<nat>>, q: Queues)
    requires LeafActivityKept(t, act, act')
    ensures Pruned(t, act, act', q)
  {
  }

  // ---------- events ----------

  /** The modes after the events of the levels below `upto`: each class that was due has the mode its
      buckets call for, unless the handler was cut short; the others are as before. */
  ghost predicate EventModes(t: Topology, hysteresis: bool, mode: map<Id, Mode>, w: Timing, mode': map<Id, Mode>, upto: nat, limited: bool) {
    && TimingShaped(t, w) && mode.Keys == t.Keys && mode'.Keys == t.Keys
    && forall c {:trigger mode'[c]} | c in t ::
         if t[c].level < upto && c in Due(w, t[c].level)
         then mode'[c] == EventVerdict(t, hysteresis, mode, w, c).mode || (limited && mode'[c] == mode[c])
         else mode'[c] == mode[c]
  }

  /** Nothing has changed yet for the levels from `l` on. */
  ghost predicate LaterKept(t: Topology, w: Timing, w': Timing, l: nat) {
    && TimingShaped(t, w) && TimingShaped(t, w') && SameBuckets(w, w')
    && (forall j: nat {:trigger w'.wait[j]} | l <= j < MAXDEPTH :: w'.wait[j] == w.wait[j])
    && (forall c {:trigger w'.key[c]} | c in t && t[c].level >= l :: w'.key[c] == w.key[c])
  }

  /** The events of the levels below `l` have been handled. */
  ghost predicate Handled(t: Topology, hysteresis: bool, mode: map<Id, Mode>, w: Timing, mode': map<Id, Mode>, w': Timing, l: nat, limited: bool) {
    EventModes(t, hysteresis, mode, w, mode', l, limited) && LaterKept(t, w, w', l)
  }

  lemma HandledBegins(t: Topology, hysteresis: bool, mode: map<Id, Mode>, w: Timing, limited: bool)
    requires TimingShaped(t, w) && mode.Keys == t.Keys
    ensures Handled(t, hysteresis, mode, w, mode, w, 0, limited)
  {
  }

  /** Exactly the classes of `done`, all due, were handled on this level. */
  ghost predicate LevelDone(t: Topology, hysteresis: bool, mode: map<Id, Mode>, w: Timing, mode': map<Id, Mode>, w': Timing,
                            done: set<Id>, level: nat, limited: bool)
  {
    && EventsApplied(t, hysteresis, mode, w, mode', w', done)
    && done <= Due(w, level) && (!limited ==> done == Due(w, level))
    && OtherLevelsKept(t, w, w', level)
  }

  /** Caching the next event of the level changes none of that. */
  lemma LevelDoneCached(t: Topology, hysteresis: bool, mode: map<Id, Mode>, w: Timing, mode': map<Id, Mode>, w': Timing,
                        done: set<Id>, level: nat, limited: bool, event: int)
    requires LevelDone(t, hysteresis, mode, w, mode', w', done, level, limited) && level in w'.nearest
    ensures LevelDone(t, hysteresis, mode, w, mode', w'.(nearest := w'.nearest[level := event]), done, level, limited)
  {
  }

  /** A level without due classes is done as it is. */
  lemma NothingDone(t: Topology, hysteresis: bool, mode: map<Id, Mode>, w: Timing, level: nat, limited: bool)
    requires TimingShaped(t, w) && mode.Keys == t.Keys && Due(w, level) == {}
    ensures LevelDone(t, hysteresis, mode, w, mode, w, {}, level, limited)
  {
  }

  lemma DueIsOnLevel(t: Topology, mode: map<Id, Mode>, w: Timing, l: nat, c: Id)
    requires TimingInv(t, mode, w) && l < MAXDEPTH && c in Due(w, l)
    ensures c in t && t[c].level == l && mode[c] != CanSend
  {
    assert c in w.wait[l];
  }

  lemma SameDue(t: Topology, mode: map<Id, Mode>, w: Timing, mode1: map<Id, Mode>, w1: Timing, l: nat)
    requires TimingInv(t, mode, w) && TimingInv(t, mode1, w1) && LaterKept(t, w, w1, l) && l < MAXDEPTH
    ensures Due(w1, l) == Due(w, l)
  {
    assert w1.wait[l] == w.wait[l];
    forall c | c in w.wait[l] ensures c in t && w1.key[c] == w.key[c] {
      assert c in w1.wait[l];
    }
  }

  lemma ModesStep(t: Topology, hysteresis: bool, mode: map<Id, Mode>, w: Timing, mode1: map<Id, Mode>, w1: Timing,
                  mode2: map<Id, Mode>, w2: Timing, done: set<Id>, l: nat, limited: bool)
    requires TimingInv(t, mode, w) && TimingInv(t, mode1, w1) && l < MAXDEPTH
    requires Handled(t, hysteresis, mode, w, mode1, w1, l, limited)
    requires LevelDone(t, hysteresis, mode1, w1, mode2, w2, done, l, limited)
    ensures EventModes(t, hysteresis, mode, w, mode2, l + 1, limited)
  {
    SameDue(t, mode, w, mode1, w1, l);
    forall c | c in t
      ensures if t[c].level < l + 1 && c in Due(w, t[c].level)
              then mode2[c] == EventVerdict(t, hysteresis, mode, w, c).mode || (limited && mode2[c] == mode[c])
              else mode2[c] == mode[c]
    {
      assert mode1[c] == mode1[c];
      if c in done {
        DueIsOnLevel(t, mode1, w1, l, c);
      }
    }
  }

  lemma LaterStep(t: Topology, w: Timing, w1: Timing, w2: Timing, l: nat)
    requires LaterKept(t, w, w1, l) && OtherLevelsKept(t, w1, w2, l) && SameBuckets(w1, w2) && TimingShaped(t, w2)
    ensures LaterKept(t, w, w2, l + 1)
  {
    forall j: nat | l + 1 <= j < MAXDEPTH ensures w2.wait[j] == w.wait[j] {
      assert w1.wait[j] == w.wait[j];
    }
    forall c | c in t && t[c].level >= l + 1 ensures w2.key[c] == w.key[c] {
      assert w1.key[c] == w.key[c];
    }
  }

  /** Handling one more level. */
  lemma HandledStep(t: Topology, hysteresis: bool, mode: map<Id, Mode>, w: Timing, mode1: map<Id, Mode>, w1: Timing,
                     mode2: map<Id, Mode>, w2: Timing, done: set<Id>, l: nat, limited: bool)
    requires TimingInv(t, mode, w) && TimingInv(t, mode1, w1) && TimingInv(t, mode2, w2) && l < MAXDEPTH
    requires Handled(t, hysteresis, mode, w, mode1, w1, l, limited)
    requires LevelDone(t, hysteresis, mode1, w1, mode2, w2, done, l, limited)
    ensures Handled(t, hysteresis, mode, w, mode2, w2, l + 1, limited)
  {
    ModesStep(t, hysteresis, mode, w, mode1, w1, mode2, w2, done, l, limited);
    LaterStep(t, w, w1, w2, l);
  }

  /** A class that can send keeps its mode while events are handled. */
  lemma SendersStay(t: Topology, hysteresis: bool, mode: map<Id, Mode>, w: Timing, mode': map<Id, Mode>, upto: nat, limited: bool, c: Id)
    requires TimingInv(t, mode, w) && WellFormed(t) && EventModes(t, hysteresis, mode, w, mode', upto, limited) && c in t && mode[c] == CanSend
    ensures mode'[c] == CanSend
  {
    if c in Due(w, t[c].level) {
      DueIsOnLevel(t, mode, w, t[c].level, c);
    }
  }

  // ---------- the choice ----------

  /** `c` is next in round-robin order below the row of `level` at `prio`. */
  ghost predicate NextInTurn(t: Topology, k: Links, level: nat, prio: nat, c: Id) {
    && Layered(t, k.tree) && k.ptr.Keys == k.tree.Keys && k.last.Keys == k.tree.Keys
    && CursorsInside(k.tree, CursorMap(k.tree, k.ptr, k.last)) && Row(level, prio) in k.tree
    && exists n: nat, f: Found :: FoundAfter(t, k.tree, CursorMap(k.tree, k.ptr, k.last), Row(level, prio), n, f) && f.leaf == c
  }

  /** Only one leaf is. */
  lemma NextInTurnIsUnique(t: Topology, k: Links, level: nat, prio: nat, c: Id, d: Id)
    requires NextInTurn(t, k, level, prio, c) && NextInTurn(t, k, level, prio, d)
    ensures c == d
  {
    hide FoundAfter, Layered, CursorsInside, CursorMap;
    var cur := CursorMap(k.tree, k.ptr, k.last);
    var n: nat, f: Found :| FoundAfter(t, k.tree, cur, Row(level, prio), n, f) && f.leaf == c;
    var m: nat, g: Found :| FoundAfter(t, k.tree, cur, Row(level, prio), m, g) && g.leaf == d;
    FoundIsUnique(t, k.tree, cur, Row(level, prio), n, f, m, g);
  }

  /** From linkage `k`, leaves without packets were dropped from one row until, in `k1`, the leaf next in
      turn was `c`. */
  ghost predicate Picked(t: Topology, k: Links, q: Queues, k1: Links, level: nat, prio: nat, c: Id) {
    && LinkInv(t, k1) && k1.mode == k.mode && Pruned(t, k.act, k1.act, q)
    && MasksKeptBut(k.mask, k1.mask, level, {prio}) && level in k1.mask && prio in k1.mask[level]
    && NextInTurn(t, k1, level, prio, c)
  }

  lemma PickedNow(t: Topology, k: Links, q: Queues, k1: Links, level: nat, prio: nat, c: Id)
    requires LinkInv(t, k1) && k1.mode == k.mode && Pruned(t, k.act, k1.act, q)
    requires MasksKeptBut(k.mask, k1.mask, level, {prio}) && level < MAXDEPTH && prio in k1.mask[level]
    requires NextInTurn(t, k1, level, prio, c)
    ensures Picked(t, k, q, k1, level, prio, c)
  {
  }

  /** No priority of the level is more urgent than `prio`. */
  ghost predicate MostUrgent(mask: map<nat, set<nat>>, level: nat, prio: nat) {
    level in mask && prio in mask[level] && forall p: nat | p in mask[level] :: prio <= p
  }

  /** The same from the level's most urgent priority on. */
  ghost predicate Leveled(t: Topology, k: Links, q: Queues, k1: Links, level: nat, prio: nat, c: Id) {
    && LinkInv(t, k1) && k1.mode == k.mode && Pruned(t, k.act, k1.act, q)
    && LowMasksKept(k.mask, k1.mask, level) && MostUrgent(k1.mask, level, prio)
    && NextInTurn(t, k1, level, prio, c)
  }

  lemma PickedIsLeveled(t: Topology, k0: Links, k: Links, q: Queues, k1: Links, level: nat, prio: nat, c: Id)
    requires Picked(t, k, q, k1, level, prio, c) && k.mode == k0.mode && Pruned(t, k0.act, k.act, q)
    requires LowMasksKept(k0.mask, k.mask, level) && level in k.mask && prio == Least(k.mask[level])
    ensures Leveled(t, k0, q, k1, level, prio, c)
  {
    PrunedTrans(t, k0.act, k.act, k1.act, q);
    forall p: nat | p in k1.mask[level] ensures prio <= p {
      if p != prio {
        assert p in k.mask[level];
      }
    }
  }

  /** The linkage in which a leaf was chosen, and the row it was chosen from. */
  datatype Turn = Turn(links: Links, level: nat, prio: nat)

  /** `c` is what a dequeue takes: once the events of the levels up to that of the row are handled and
      leaves found empty are dropped, all rows of lower levels are empty, the row's priority is the most
      urgent of its level, and `c` is next in its round-robin order. */
  ghost predicate Chosen(t: Topology, hysteresis: bool, k: Links, w: Timing, q: Queues, turn: Turn, c: Id, limited: bool) {
    && LinkInv(t, turn.links)
    && EventModes(t, hysteresis, k.mode, w, turn.links.mode, turn.level + 1, limited)
    && Pruned(t, k.act, turn.links.act, q)
    && LowRowsEmpty(turn.links.mask, turn.level) && MostUrgent(turn.links.mask, turn.level, turn.prio)
    && NextInTurn(t, turn.links, turn.level, turn.prio, c)
  }

  lemma LeveledIsChosen(t: Topology, hysteresis: bool, k: Links, w: Timing, q: Queues, k1: Links, k2: Links, level: nat, prio: nat, c: Id,
                        limited: bool)
    requires EventModes(t, hysteresis, k.mode, w, k1.mode, level + 1, limited) && Pruned(t, k.act, k1.act, q)
    requires LowRowsEmpty(k1.mask, level) && Leveled(t, k1, q, k2, level, prio, c)
    ensures Chosen(t, hysteresis, k, w, q, Turn(k2, level, prio), c, limited)
  {
    PrunedTrans(t, k.act, k1.act, k2.act, q);
  }
}
