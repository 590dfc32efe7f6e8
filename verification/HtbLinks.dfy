/** The linkage of the hierarchical token bucket scheduler: the class tree, the
    per-priority feed trees and rows, and the invariant that ties them together.

    Red-black trees are finite sets of class identifiers; `rb_next` is the least
    larger element.  Identifier 0 names no class and stands for a null pointer.
    Priority bit masks are sets of priorities. */
module HtbLinks {

  const MAXDEPTH: nat := 8
  const NUMPRIO: nat := 8

  type Id = nat

  datatype Mode = CantSend | MayBorrow | CanSend

  /** A tree of classes at one priority: the row of a level, or the feed of an inner class. */
  datatype Slot = Row(level: nat, prio: nat) | Feed(cls: Id, prio: nat)

  /** The parameters of a class that stay fixed while packets flow. */
  datatype ClassInfo = ClassInfo(parent: Id, level: nat, prio: nat, quantum: int,
                                 buffer: nat, cbuffer: nat, mbuffer: nat)

  type Topology = map<Id, ClassInfo>

  /** Leaves have level 0; a parent sits strictly above its children, at most at level MAXDEPTH - 1. */
  ghost predicate WellFormed(t: Topology) {
    && 0 !in t
    && (forall c {:trigger t[c].level} | c in t :: t[c].level < MAXDEPTH)
    && (forall c {:trigger t[c].prio} | c in t :: t[c].prio < NUMPRIO)
    && (forall c {:trigger t[c].mbuffer} | c in t :: t[c].mbuffer > 0)
    && (forall c {:trigger t[c].parent} | c in t && t[c].parent != 0 ::
          t[c].parent in t && t[c].level < t[t[c].parent].level)
  }

  /** The linked part of the scheduler's state. */
  datatype Links = Links(mode: map<Id, Mode>, act: map<Id, set<nat>>, tree: map<Slot, set<Id>>,
                         mask: map<nat, set<nat>>, ptr: map<Slot, Id>, last: map<Slot, Id>)

  // ---------- sorted sets ----------

  function LeastFrom(s: set<Id>, i: Id, ghost w: Id): (m: Id)
    requires w in s && i <= w && forall x: Id | x in s :: i <= x
    ensures m in s && forall x: Id | x in s :: m <= x
    decreases w - i
  {
    if i in s then i else LeastFrom(s, i + 1, w)
  }

  /** The leftmost element, or null for an empty tree. */
  function Least(s: set<Id>): (m: Id)
    ensures s == {} ==> m == 0
    ensures s != {} ==> m in s && forall x: Id | x in s :: m <= x
  {
    if s == {} then 0
    else
      ghost var w :| w in s;
      LeastFrom(s, 0, w)
  }

  /** `rb_next`: the least element above `id`, or null. */
  function NextAbove(s: set<Id>, id: Id): (m: Id)
    ensures m != 0 ==> m in s && id < m && forall x: Id | x in s && id < x :: m <= x
    ensures m == 0 && 0 !in s ==> forall x: Id | x in s :: x <= id
  {
    var above := set x: Id | x in s && id < x;
    assert forall x: Id | x in s && id < x :: x in above;
    Least(above)
  }

  /** The least element not below `id`, or null. */
  function NextFrom(s: set<Id>, id: Id): (m: Id)
    ensures m != 0 ==> m in s && id <= m && forall x: Id | x in s && id <= x :: m <= x
    ensures m == 0 && 0 !in s ==> forall x: Id | x in s :: x < id
  {
    var from := set x: Id | x in s && id <= x;
    assert forall x: Id | x in s && id <= x :: x in from;
    Least(from)
  }

  // ---------- the link invariant ----------

  predicate IsSlot(t: Topology, s: Slot) {
    && s.prio < NUMPRIO
    && if s.Row? then s.level < MAXDEPTH else s.cls in t && t[s.cls].level > 0
  }

  /** Where a class belongs: in its level's row when it can send, in its parent's feed
      when it may borrow, at the priorities at which it is to be linked. */
  predicate Belongs(t: Topology, mode: map<Id, Mode>, linked: map<Id, set<nat>>, s: Slot, c: Id)
    requires c in t && mode.Keys == t.Keys && linked.Keys == t.Keys
  {
    && s.prio in linked[c]
    && if s.Row? then mode[c] == CanSend && t[c].level == s.level
       else mode[c] == MayBorrow && t[c].parent == s.cls
  }

  ghost predicate Shaped(t: Topology, k: Links) {
    && k.mode.Keys == t.Keys && k.act.Keys == t.Keys
    && (forall s :: s in k.tree <==> IsSlot(t, s))
    && k.ptr.Keys == k.tree.Keys && k.last.Keys == k.tree.Keys
    && (forall l: nat :: l in k.mask <==> l < MAXDEPTH)
    && (forall c: Id, p: nat {:trigger p in k.act[c]} | c in t && p in k.act[c] :: p < NUMPRIO)
    && (forall s {:trigger k.tree[s]} | s in k.tree :: k.tree[s] <= t.Keys)
  }

  /** Every tree holds exactly the classes that belong to it, given the priorities
      `linked[c]` at which each class is to be linked. */
  ghost predicate TreesMatch(t: Topology, k: Links, linked: map<Id, set<nat>>)
    requires Shaped(t, k) && linked.Keys == t.Keys
  {
    forall s, c {:trigger c in k.tree[s]} {:trigger Belongs(t, k.mode, linked, s, c)} | s in k.tree && c in t ::
      c in k.tree[s] <==> Belongs(t, k.mode, linked, s, c)
  }

  ghost predicate ActivityMatches(t: Topology, k: Links)
    requires Shaped(t, k)
  {
    && (forall c: Id, p: nat {:trigger k.tree[Feed(c, p)]} | c in t && t[c].level > 0 && p < NUMPRIO ::
          p in k.act[c] <==> k.tree[Feed(c, p)] != {})
    && (forall c {:trigger k.act[c]} | c in t && t[c].level == 0 :: k.act[c] <= {t[c].prio})
  }

  ghost predicate MasksMatch(t: Topology, k: Links)
    requires Shaped(t, k)
  {
    forall l: nat, p: nat {:trigger k.tree[Row(l, p)]} | l < MAXDEPTH && p < NUMPRIO ::
      p in k.mask[l] <==> k.tree[Row(l, p)] != {}
  }

  ghost predicate MasksBounded(t: Topology, k: Links)
    requires Shaped(t, k)
  {
    forall l: nat, p: nat | l < MAXDEPTH && p in k.mask[l] :: p < NUMPRIO
  }

  ghost predicate PointersInside(t: Topology, k: Links)
    requires Shaped(t, k)
  {
    forall s {:trigger k.ptr[s]} | s in k.tree :: k.ptr[s] == 0 || k.ptr[s] in k.tree[s]
  }

  /** The link invariant relative to `linked`; in a settled state `linked` is the
      activity itself. */
  ghost predicate LinkedAs(t: Topology, k: Links, linked: map<Id, set<nat>>) {
    && WellFormed(t)
    && Shaped(t, k)
    && linked.Keys == t.Keys
    && TreesMatch(t, k, linked)
    && ActivityMatches(t, k)
    && MasksMatch(t, k) && MasksBounded(t, k)
    && PointersInside(t, k)
  }

  ghost predicate LinkInv(t: Topology, k: Links) {
    LinkedAs(t, k, k.act)
  }

  // ---------- tree updates made by the loops ----------

  function SetIn(s: Slot, q: Id, prios: set<nat>): bool {
    s.Feed? && s.cls == q && s.prio in prios
  }

  predicate InRow(s: Slot, l: nat, prios: set<nat>) {
    s.Row? && s.level == l && s.prio in prios
  }

  function FeedWith(tree: map<Slot, set<Id>>, q: Id, prios: set<nat>, c: Id): map<Slot, set<Id>> {
    map s | s in tree :: if SetIn(s, q, prios) then tree[s] + {c} else tree[s]
  }

  function FeedWithout(tree: map<Slot, set<Id>>, q: Id, prios: set<nat>, c: Id): map<Slot, set<Id>> {
    map s | s in tree :: if SetIn(s, q, prios) then tree[s] - {c} else tree[s]
  }

  function RowWith(tree: map<Slot, set<Id>>, l: nat, prios: set<nat>, c: Id): map<Slot, set<Id>> {
    map s | s in tree :: if InRow(s, l, prios) then tree[s] + {c} else tree[s]
  }

  function RowWithout(tree: map<Slot, set<Id>>, l: nat, prios: set<nat>, c: Id): map<Slot, set<Id>> {
    map s | s in tree :: if InRow(s, l, prios) then tree[s] - {c} else tree[s]
  }

  /** The priorities of `prios` at which feed `q` is empty. */
  function EmptyFeeds(tree: map<Slot, set<Id>>, q: Id, prios: set<nat>): set<nat> {
    set p | p in prios && Feed(q, p) in tree && tree[Feed(q, p)] == {}
  }

  function EmptyRows(tree: map<Slot, set<Id>>, l: nat, prios: set<nat>): set<nat> {
    set p | p in prios && Row(l, p) in tree && tree[Row(l, p)] == {}
  }

  /** Round-robin pointers after `c` left feed `q`: a pointer at `c` is forgotten and its
      class remembered. */
  function ForgetPtr(ptr: map<Slot, Id>, q: Id, prios: set<nat>, c: Id): map<Slot, Id> {
    map s | s in ptr :: if SetIn(s, q, prios) && ptr[s] == c then 0 else ptr[s]
  }

  function RememberId(last: map<Slot, Id>, ptr: map<Slot, Id>, q: Id, prios: set<nat>, c: Id): map<Slot, Id>
    requires last.Keys == ptr.Keys
  {
    map s | s in last :: if SetIn(s, q, prios) && ptr[s] == c then c else last[s]
  }

  /** Row pointers after `c` left its row: a pointer at `c` moves on to the next class. */
  function AdvancePtr(ptr: map<Slot, Id>, tree: map<Slot, set<Id>>, l: nat, prios: set<nat>, c: Id): map<Slot, Id>
    requires tree.Keys == ptr.Keys
  {
    map s | s in ptr :: if InRow(s, l, prios) && ptr[s] == c then NextAbove(tree[s], c) else ptr[s]
  }

  /** `c` was linked into feed `q` at `m`, and `q` became active where its feed was empty. */
  ghost predicate FeedLinked(k: Links, k': Links, q: Id, c: Id, m: set<nat>) {
    && q in k.act
    && k'.tree == FeedWith(k.tree, q, m, c)
    && k'.act == k.act[q := k.act[q] + EmptyFeeds(k.tree, q, m)]
    && k'.mode == k.mode && k'.mask == k.mask && k'.ptr == k.ptr && k'.last == k.last
  }

  /** `c` was erased from feed `q` at `m`, and `q` became inactive where its feed is now empty. */
  ghost predicate FeedUnlinked(k: Links, k': Links, q: Id, c: Id, m: set<nat>) {
    && q in k.act && k.last.Keys == k.ptr.Keys
    && k'.tree == FeedWithout(k.tree, q, m, c)
    && k'.act == k.act[q := k.act[q] - EmptyFeeds(k'.tree, q, m)]
    && k'.ptr == ForgetPtr(k.ptr, q, m, c) && k'.last == RememberId(k.last, k.ptr, q, m, c)
    && k'.mode == k.mode && k'.mask == k.mask
  }

  /** `c` was added to its row at `m`. */
  ghost predicate RowLinked(k: Links, k': Links, l: nat, c: Id, m: set<nat>) {
    && l in k.mask
    && k'.tree == RowWith(k.tree, l, m, c) && k'.mask == k.mask[l := k.mask[l] + m]
    && k'.mode == k.mode && k'.act == k.act && k'.ptr == k.ptr && k'.last == k.last
  }

  /** `c` was erased from its row at `m`. */
  ghost predicate RowUnlinked(k: Links, k': Links, l: nat, c: Id, m: set<nat>) {
    && l in k.mask && k.tree.Keys == k.ptr.Keys
    && k'.tree == RowWithout(k.tree, l, m, c) && k'.mask == k.mask[l := k.mask[l] - EmptyRows(k'.tree, l, m)]
    && k'.ptr == AdvancePtr(k.ptr, k.tree, l, m, c)
    && k'.mode == k.mode && k'.act == k.act && k'.last == k.last
  }

  // The same updates, one priority at a time.

  lemma OneMoreDone(prios: set<nat>, m: set<nat>, p: nat)
    requires p in m && m <= prios
    ensures prios - (m - {p}) == (prios - m) + {p}
  {
  }

  lemma FeedWithMore(tree: map<Slot, set<Id>>, q: Id, done: set<nat>, p: nat, c: Id)
    requires Feed(q, p) in tree && p !in done
    ensures FeedWith(tree, q, done + {p}, c) == FeedWith(tree, q, done, c)[Feed(q, p) := tree[Feed(q, p)] + {c}]
  {
  }

  lemma RowWithMore(tree: map<Slot, set<Id>>, l: nat, done: set<nat>, p: nat, c: Id)
    requires Row(l, p) in tree && p !in done
    ensures RowWith(tree, l, done + {p}, c) == RowWith(tree, l, done, c)[Row(l, p) := tree[Row(l, p)] + {c}]
  {
  }

  lemma FeedWithoutMore(tree: map<Slot, set<Id>>, q: Id, done: set<nat>, p: nat, c: Id)
    requires Feed(q, p) in tree && p !in done
    ensures FeedWithout(tree, q, done + {p}, c) == FeedWithout(tree, q, done, c)[Feed(q, p) := tree[Feed(q, p)] - {c}]
  {
  }

  lemma RowWithoutMore(tree: map<Slot, set<Id>>, l: nat, done: set<nat>, p: nat, c: Id)
    requires Row(l, p) in tree && p !in done
    ensures RowWithout(tree, l, done + {p}, c) == RowWithout(tree, l, done, c)[Row(l, p) := tree[Row(l, p)] - {c}]
  {
  }

  lemma ForgetMore(ptr: map<Slot, Id>, last: map<Slot, Id>, q: Id, done: set<nat>, p: nat, c: Id)
    requires last.Keys == ptr.Keys && Feed(q, p) in ptr && p !in done
    ensures ForgetPtr(ptr, q, done + {p}, c)
            == ForgetPtr(ptr, q, done, c)[Feed(q, p) := if ptr[Feed(q, p)] == c then 0 else ptr[Feed(q, p)]]
    ensures RememberId(last, ptr, q, done + {p}, c)
            == RememberId(last, ptr, q, done, c)[Feed(q, p) := if ptr[Feed(q, p)] == c then c else last[Feed(q, p)]]
  {
  }

  lemma AdvanceMore(ptr: map<Slot, Id>, tree: map<Slot, set<Id>>, l: nat, done: set<nat>, p: nat, c: Id)
    requires tree.Keys == ptr.Keys && Row(l, p) in ptr && p !in done
    ensures AdvancePtr(ptr, tree, l, done + {p}, c)
            == AdvancePtr(ptr, tree, l, done, c)[Row(l, p) :=
                 if ptr[Row(l, p)] == c then NextAbove(tree[Row(l, p)], c) else ptr[Row(l, p)]]
  {
  }

  lemma EmptyFeedsMore(tree: map<Slot, set<Id>>, q: Id, done: set<nat>, p: nat, s: set<Id>)
    requires Feed(q, p) in tree && p !in done
    ensures EmptyFeeds(tree[Feed(q, p) := s], q, done + {p}) == EmptyFeeds(tree, q, done) + if s == {} then {p} else {}
  {
  }

  lemma EmptyRowsMore(tree: map<Slot, set<Id>>, l: nat, done: set<nat>, p: nat, s: set<Id>)
    requires Row(l, p) in tree && p !in done
    ensures EmptyRows(tree[Row(l, p) := s], l, done + {p}) == EmptyRows(tree, l, done) + if s == {} then {p} else {}
  {
  }

  /** Node `c` was erased from tree `s`, and a feed's pointer to it forgotten. */
  ghost predicate FeedNodeErased(k: Links, k': Links, s: Slot, c: Id) {
    && s in k.tree && s in k.ptr && s in k.last
    && k'.tree == k.tree[s := k.tree[s] - {c}]
    && k'.ptr == k.ptr[s := if k.ptr[s] == c then 0 else k.ptr[s]]
    && k'.last == k.last[s := if k.ptr[s] == c then c else k.last[s]]
    && k'.mode == k.mode && k'.act == k.act && k'.mask == k.mask
  }

  ghost predicate FeedErased(k0: Links, k: Links, q: Id, c: Id, done: set<nat>) {
    && k0.last.Keys == k0.ptr.Keys
    && k.tree == FeedWithout(k0.tree, q, done, c)
    && k.ptr == ForgetPtr(k0.ptr, q, done, c)
    && k.last == RememberId(k0.last, k0.ptr, q, done, c)
    && k.mode == k0.mode && k.act == k0.act && k.mask == k0.mask
  }

  lemma FeedErasedMore(k0: Links, k: Links, k': Links, q: Id, c: Id, done: set<nat>, p: nat)
    requires FeedErased(k0, k, q, c, done) && FeedNodeErased(k, k', Feed(q, p), c) && p !in done
    ensures FeedErased(k0, k', q, c, done + {p})
    ensures EmptyFeeds(k'.tree, q, done + {p})
            == EmptyFeeds(k.tree, q, done) + if k'.tree[Feed(q, p)] == {} then {p} else {}
  {
    assert k.tree[Feed(q, p)] == k0.tree[Feed(q, p)];
    assert k.ptr[Feed(q, p)] == k0.ptr[Feed(q, p)] && k.last[Feed(q, p)] == k0.last[Feed(q, p)];
    FeedWithoutMore(k0.tree, q, done, p, c);
    ForgetMore(k0.ptr, k0.last, q, done, p, c);
    EmptyFeedsMore(k.tree, q, done, p, k.tree[Feed(q, p)] - {c});
  }

  /** Node `c` was erased from row `s`, and a pointer to it moved on. */
  ghost predicate RowNodeErased(k: Links, k': Links, s: Slot, c: Id) {
    && s in k.tree && s in k.ptr
    && k'.tree == k.tree[s := k.tree[s] - {c}]
    && k'.ptr == k.ptr[s := if k.ptr[s] == c then NextAbove(k.tree[s], c) else k.ptr[s]]
    && k'.mode == k.mode && k'.act == k.act && k'.mask == k.mask && k'.last == k.last
  }

  ghost predicate RowErased(k0: Links, k: Links, l: nat, c: Id, done: set<nat>) {
    && k0.tree.Keys == k0.ptr.Keys
    && k.tree == RowWithout(k0.tree, l, done, c)
    && k.ptr == AdvancePtr(k0.ptr, k0.tree, l, done, c)
    && k.mode == k0.mode && k.act == k0.act && k.mask == k0.mask && k.last == k0.last
  }

  lemma RowErasedMore(k0: Links, k: Links, k': Links, l: nat, c: Id, done: set<nat>, p: nat)
    requires RowErased(k0, k, l, c, done) && RowNodeErased(k, k', Row(l, p), c) && p !in done
    ensures RowErased(k0, k', l, c, done + {p})
    ensures EmptyRows(k'.tree, l, done + {p})
            == EmptyRows(k.tree, l, done) + if k'.tree[Row(l, p)] == {} then {p} else {}
  {
    assert k.tree[Row(l, p)] == k0.tree[Row(l, p)] && k.ptr[Row(l, p)] == k0.ptr[Row(l, p)];
    RowWithoutMore(k0.tree, l, done, p, c);
    AdvanceMore(k0.ptr, k0.tree, l, done, p, c);
    EmptyRowsMore(k.tree, l, done, p, k.tree[Row(l, p)] - {c});
  }

  // ---------- one step of activation ----------

  /** The trees still match when each one gained or lost `c` exactly where `linked[c]` did. */
  lemma TreesFollow(t: Topology, k: Links, k': Links, linked: map<Id, set<nat>>, linked': map<Id, set<nat>>, c: Id)
    requires Shaped(t, k) && linked.Keys == t.Keys && TreesMatch(t, k, linked)
    requires Shaped(t, k') && linked'.Keys == t.Keys && k'.mode == k.mode && c in t
    requires forall d | d in t && d != c :: linked'[d] == linked[d]
    requires forall s, d | s in k.tree && d in t && d != c :: d in k'.tree[s] <==> d in k.tree[s]
    requires forall s <- k.tree :: c in k'.tree[s] <==> Belongs(t, k.mode, linked', s, c)
    ensures TreesMatch(t, k', linked')
  {
    forall s, d | s in k'.tree && d in t
      ensures d in k'.tree[s] <==> Belongs(t, k'.mode, linked', s, d)
    {
      if d != c {
        assert d in k.tree[s] <==> Belongs(t, k.mode, linked, s, d);
      }
    }
  }

  // The parts of the invariant, update by update.

  lemma FeedWithShape(t: Topology, k: Links, k': Links, q: Id, prios: set<nat>, c: Id)
    requires Shaped(t, k) && c in t && q in t && forall p | p in prios :: p < NUMPRIO
    requires FeedLinked(k, k', q, c, prios)
    ensures Shaped(t, k')
  {
  }

  lemma FeedWithTrees(t: Topology, k: Links, k': Links, linked: map<Id, set<nat>>, linked': map<Id, set<nat>>,
                      c: Id, mask: set<nat>)
    requires Shaped(t, k) && linked.Keys == t.Keys && TreesMatch(t, k, linked)
    requires Shaped(t, k') && linked'.Keys == t.Keys && k'.mode == k.mode && c in t
    requires forall d | d in t && d != c :: linked'[d] == linked[d]
    requires linked'[c] == linked[c] + mask && k.mode[c] == MayBorrow
    requires k'.tree == FeedWith(k.tree, t[c].parent, mask, c)
    ensures TreesMatch(t, k', linked')
  {
    forall s | s in k.tree
      ensures c in k'.tree[s] <==> Belongs(t, k.mode, linked', s, c)
    {
      assert c in k.tree[s] <==> Belongs(t, k.mode, linked, s, c);
    }
    TreesFollow(t, k, k', linked, linked', c);
  }

  lemma FeedWithActivity(t: Topology, k: Links, k': Links, q: Id, mask: set<nat>, c: Id)
    requires Shaped(t, k) && Shaped(t, k') && ActivityMatches(t, k)
    requires c in t && q in t && t[q].level > 0
    requires k'.tree == FeedWith(k.tree, q, mask, c)
    requires k'.act == k.act[q := k.act[q] + EmptyFeeds(k.tree, q, mask)]
    ensures ActivityMatches(t, k')
  {
    forall d: Id, p: nat | d in t && t[d].level > 0 && p < NUMPRIO
      ensures p in k'.act[d] <==> k'.tree[Feed(d, p)] != {}
    {
      assert p in k.act[d] <==> k.tree[Feed(d, p)] != {};
      if d == q && p in mask {
        assert c in k'.tree[Feed(d, p)];
      } else {
        assert k'.tree[Feed(d, p)] == k.tree[Feed(d, p)];
      }
    }
  }

  lemma FeedWithRest(t: Topology, k: Links, k': Links, q: Id, mask: set<nat>, c: Id)
    requires Shaped(t, k) && Shaped(t, k') && MasksMatch(t, k) && MasksBounded(t, k) && PointersInside(t, k)
    requires k'.tree == FeedWith(k.tree, q, mask, c) && k'.mask == k.mask && k'.ptr == k.ptr
    ensures MasksMatch(t, k') && MasksBounded(t, k') && PointersInside(t, k')
  {
    forall l: nat, p: nat | l < MAXDEPTH && p < NUMPRIO
      ensures p in k'.mask[l] <==> k'.tree[Row(l, p)] != {}
    {
      assert k'.tree[Row(l, p)] == k.tree[Row(l, p)];
    }
  }

  /** Linking a borrowing class into its parent's feed moves the unlinked part one level up:
      only priorities whose feed was empty remain to be linked at the parent. */
  lemma ActivateStep(t: Topology, k: Links, c: Id, mask: set<nat>, up: set<nat>, k': Links)
    requires c in t && k.mode.Keys == t.Keys && k.act.Keys == t.Keys
    requires LinkedAs(t, k, k.act[c := k.act[c] - mask])
    requires mask <= k.act[c] && k.mode[c] == MayBorrow && t[c].parent != 0
    requires up == EmptyFeeds(k.tree, t[c].parent, mask) && FeedLinked(k, k', t[c].parent, c, mask)
    ensures up <= k'.act[t[c].parent]
    ensures LinkedAs(t, k', k'.act[t[c].parent := k'.act[t[c].parent] - up])
  {
    var q := t[c].parent;
    FeedWithShape(t, k, k', q, mask, c);
    FeedWithActivity(t, k, k', q, mask, c);
    FeedWithRest(t, k, k', q, mask, c);
    assert forall p | p in up :: p !in k.act[q];
    assert k'.act[q] - up == k.act[q];
    FeedWithTrees(t, k, k', k.act[c := k.act[c] - mask], k'.act[q := k'.act[q] - up], c, mask);
  }

  lemma RowWithShape(t: Topology, k: Links, k': Links, l: nat, prios: set<nat>, c: Id)
    requires Shaped(t, k) && c in t && l < MAXDEPTH
    requires RowLinked(k, k', l, c, prios)
    ensures Shaped(t, k')
  {
  }

  lemma RowWithTrees(t: Topology, k: Links, k': Links, linked: map<Id, set<nat>>, linked': map<Id, set<nat>>,
                     c: Id, mask: set<nat>)
    requires Shaped(t, k) && linked.Keys == t.Keys && TreesMatch(t, k, linked)
    requires Shaped(t, k') && linked'.Keys == t.Keys && k'.mode == k.mode && c in t
    requires forall d | d in t && d != c :: linked'[d] == linked[d]
    requires linked'[c] == linked[c] + mask && k.mode[c] == CanSend
    requires k'.tree == RowWith(k.tree, t[c].level, mask, c)
    ensures TreesMatch(t, k', linked')
  {
    forall s | s in k.tree
      ensures c in k'.tree[s] <==> Belongs(t, k.mode, linked', s, c)
    {
      assert c in k.tree[s] <==> Belongs(t, k.mode, linked, s, c);
    }
    TreesFollow(t, k, k', linked, linked', c);
  }

  lemma RowWithBounds(t: Topology, k: Links, k': Links, l: nat, mask: set<nat>)
    requires Shaped(t, k) && Shaped(t, k') && MasksBounded(t, k)
    requires l < MAXDEPTH && forall p | p in mask :: p < NUMPRIO
    requires k'.mask == k.mask[l := k.mask[l] + mask]
    ensures MasksBounded(t, k')
  {
  }

  lemma RowWithMasks(t: Topology, k: Links, k': Links, l: nat, mask: set<nat>, c: Id)
    requires Shaped(t, k) && Shaped(t, k') && MasksMatch(t, k)
    requires l < MAXDEPTH && forall p | p in mask :: p < NUMPRIO
    requires k'.tree == RowWith(k.tree, l, mask, c)
    requires k'.mask == k.mask[l := k.mask[l] + mask]
    ensures MasksMatch(t, k')
  {
    forall j: nat, p: nat | j < MAXDEPTH && p < NUMPRIO
      ensures p in k'.mask[j] <==> k'.tree[Row(j, p)] != {}
    {
      assert IsSlot(t, Row(j, p));
      assert k.tree[Row(j, p)] == k.tree[Row(j, p)];
      RowWithMask(k, k', l, mask, c, j, p);
    }
  }

  lemma RowWithMask(k: Links, k': Links, l: nat, mask: set<nat>, c: Id, j: nat, p: nat)
    requires Row(j, p) in k.tree && l in k.mask && j in k.mask && (p in k.mask[j] <==> k.tree[Row(j, p)] != {})
    requires k'.tree == RowWith(k.tree, l, mask, c)
    requires k'.mask == k.mask[l := k.mask[l] + mask]
    ensures p in k'.mask[j] <==> k'.tree[Row(j, p)] != {}
  {
    if j == l && p in mask {
      assert c in k'.tree[Row(j, p)];
    } else {
      assert k'.tree[Row(j, p)] == k.tree[Row(j, p)];
    }
  }

  lemma RowWithRest(t: Topology, k: Links, k': Links, l: nat, mask: set<nat>, c: Id)
    requires Shaped(t, k) && Shaped(t, k') && ActivityMatches(t, k) && PointersInside(t, k)
    requires k'.tree == RowWith(k.tree, l, mask, c) && k'.act == k.act && k'.ptr == k.ptr
    ensures ActivityMatches(t, k') && PointersInside(t, k')
  {
    forall d: Id, p: nat | d in t && t[d].level > 0 && p < NUMPRIO
      ensures p in k'.act[d] <==> k'.tree[Feed(d, p)] != {}
    {
      assert k'.tree[Feed(d, p)] == k.tree[Feed(d, p)];
    }
  }

  /** Linking a class that can send into its row completes the linkage. */
  lemma ActivateRow(t: Topology, k: Links, c: Id, mask: set<nat>, k': Links)
    requires c in t && k.mode.Keys == t.Keys && k.act.Keys == t.Keys
    requires LinkedAs(t, k, k.act[c := k.act[c] - mask])
    requires mask <= k.act[c] && k.mode[c] == CanSend
    requires RowLinked(k, k', t[c].level, c, mask)
    ensures LinkInv(t, k')
  {
    RowWithShape(t, k, k', t[c].level, mask, c);
    RowWithBounds(t, k, k', t[c].level, mask);
    RowWithMasks(t, k, k', t[c].level, mask, c);
    RowWithRest(t, k, k', t[c].level, mask, c);
    RowWithTrees(t, k, k', k.act[c := k.act[c] - mask], k'.act, c, mask);
  }

  /** A class with nowhere to be linked is linked already, whatever is asked for it. */
  lemma NothingToLink(t: Topology, k: Links, linked: map<Id, set<nat>>, c: Id, prios: set<nat>)
    requires c in t && LinkedAs(t, k, linked)
    requires k.mode[c] == CantSend || (k.mode[c] == MayBorrow && t[c].parent == 0) || prios == linked[c]
    ensures LinkedAs(t, k, linked[c := prios])
  {
    forall s | s in k.tree
      ensures c in k.tree[s] <==> Belongs(t, k.mode, linked[c := prios], s, c)
    {
      assert c in k.tree[s] <==> Belongs(t, k.mode, linked, s, c);
    }
    TreesFollow(t, k, k, linked, linked[c := prios], c);
  }

  // ---------- one step of deactivation ----------

  lemma FeedWithoutShape(t: Topology, k: Links, k': Links, q: Id, prios: set<nat>, c: Id)
    requires Shaped(t, k) && c in t && q in t
    requires FeedUnlinked(k, k', q, c, prios)
    ensures Shaped(t, k')
  {
  }

  lemma FeedWithoutTrees(t: Topology, k: Links, k': Links, linked: map<Id, set<nat>>, linked': map<Id, set<nat>>,
                         c: Id, mask: set<nat>)
    requires Shaped(t, k) && linked.Keys == t.Keys && TreesMatch(t, k, linked)
    requires Shaped(t, k') && linked'.Keys == t.Keys && k'.mode == k.mode && c in t
    requires forall d | d in t && d != c :: linked'[d] == linked[d]
    requires linked'[c] == linked[c] - mask && k.mode[c] == MayBorrow
    requires k'.tree == FeedWithout(k.tree, t[c].parent, mask, c)
    ensures TreesMatch(t, k', linked')
  {
    forall s | s in k.tree
      ensures c in k'.tree[s] <==> Belongs(t, k.mode, linked', s, c)
    {
      assert c in k.tree[s] <==> Belongs(t, k.mode, linked, s, c);
    }
    TreesFollow(t, k, k', linked, linked', c);
  }

  lemma FeedWithoutActivity(t: Topology, k: Links, k': Links, q: Id, mask: set<nat>, c: Id)
    requires Shaped(t, k) && Shaped(t, k') && ActivityMatches(t, k)
    requires q in t && t[q].level > 0
    requires k'.tree == FeedWithout(k.tree, q, mask, c)
    requires k'.act == k.act[q := k.act[q] - EmptyFeeds(k'.tree, q, mask)]
    ensures ActivityMatches(t, k')
  {
    forall d: Id, p: nat | d in t && t[d].level > 0 && p < NUMPRIO
      ensures p in k'.act[d] <==> k'.tree[Feed(d, p)] != {}
    {
      assert p in k.act[d] <==> k.tree[Feed(d, p)] != {};
      if d == q && p in mask {
        assert k'.tree[Feed(d, p)] != {} ==> k.tree[Feed(d, p)] != {};
      } else {
        assert k'.tree[Feed(d, p)] == k.tree[Feed(d, p)];
      }
    }
  }

  lemma FeedWithoutMasks(t: Topology, k: Links, k': Links, q: Id, mask: set<nat>, c: Id)
    requires Shaped(t, k) && Shaped(t, k') && MasksMatch(t, k) && MasksBounded(t, k)
    requires k'.tree == FeedWithout(k.tree, q, mask, c) && k'.mask == k.mask
    ensures MasksMatch(t, k') && MasksBounded(t, k')
  {
    forall l: nat, p: nat | l < MAXDEPTH && p < NUMPRIO
      ensures p in k'.mask[l] <==> k'.tree[Row(l, p)] != {}
    {
      assert k'.tree[Row(l, p)] == k.tree[Row(l, p)];
    }
  }

  lemma FeedWithoutPointers(t: Topology, k: Links, k': Links, q: Id, mask: set<nat>, c: Id)
    requires Shaped(t, k) && Shaped(t, k') && PointersInside(t, k)
    requires k'.tree == FeedWithout(k.tree, q, mask, c) && k'.ptr == ForgetPtr(k.ptr, q, mask, c)
    ensures PointersInside(t, k')
  {
  }

  /** Taking a borrowing class out of its parent's feed leaves the parent linked, for the
      moment, at priorities where it is no longer active. */
  lemma DeactivateStep(t: Topology, k: Links, linked: map<Id, set<nat>>, c: Id, mask: set<nat>, k': Links)
    requires c in t && LinkedAs(t, k, linked)
    requires mask <= linked[c] && k.mode[c] == MayBorrow && t[c].parent != 0
    requires FeedUnlinked(k, k', t[c].parent, c, mask)
    ensures LinkedAs(t, k', linked[c := linked[c] - mask])
  {
    var q := t[c].parent;
    FeedWithoutShape(t, k, k', q, mask, c);
    FeedWithoutActivity(t, k, k', q, mask, c);
    FeedWithoutMasks(t, k, k', q, mask, c);
    FeedWithoutPointers(t, k, k', q, mask, c);
    FeedWithoutTrees(t, k, k', linked, linked[c := linked[c] - mask], c, mask);
  }

  lemma RowWithoutShape(t: Topology, k: Links, k': Links, l: nat, prios: set<nat>, c: Id)
    requires Shaped(t, k) && c in t && l < MAXDEPTH
    requires RowUnlinked(k, k', l, c, prios)
    ensures Shaped(t, k')
  {
  }

  lemma RowWithoutTrees(t: Topology, k: Links, k': Links, linked: map<Id, set<nat>>, linked': map<Id, set<nat>>,
                        c: Id, mask: set<nat>)
    requires Shaped(t, k) && linked.Keys == t.Keys && TreesMatch(t, k, linked)
    requires Shaped(t, k') && linked'.Keys == t.Keys && k'.mode == k.mode && c in t
    requires forall d | d in t && d != c :: linked'[d] == linked[d]
    requires linked'[c] == linked[c] - mask && k.mode[c] == CanSend
    requires k'.tree == RowWithout(k.tree, t[c].level, mask, c)
    ensures TreesMatch(t, k', linked')
  {
    forall s | s in k.tree
      ensures c in k'.tree[s] <==> Belongs(t, k.mode, linked', s, c)
    {
      assert c in k.tree[s] <==> Belongs(t, k.mode, linked, s, c);
    }
    TreesFollow(t, k, k', linked, linked', c);
  }

  lemma RowWithoutMasks(t: Topology, k: Links, k': Links, l: nat, mask: set<nat>, c: Id)
    requires Shaped(t, k) && Shaped(t, k') && MasksMatch(t, k)
    requires l < MAXDEPTH
    requires k'.tree == RowWithout(k.tree, l, mask, c)
    requires k'.mask == k.mask[l := k.mask[l] - EmptyRows(k'.tree, l, mask)]
    ensures MasksMatch(t, k')
  {
    forall j: nat, p: nat | j < MAXDEPTH && p < NUMPRIO
      ensures p in k'.mask[j] <==> k'.tree[Row(j, p)] != {}
    {
      assert IsSlot(t, Row(j, p));
      assert k.tree[Row(j, p)] == k.tree[Row(j, p)];
      RowWithoutMask(k, k', l, mask, c, j, p);
    }
  }

  lemma RowWithoutBounds(t: Topology, k: Links, k': Links, l: nat, mask: set<nat>)
    requires Shaped(t, k) && Shaped(t, k') && MasksBounded(t, k)
    requires l < MAXDEPTH && k'.mask == k.mask[l := k.mask[l] - EmptyRows(k'.tree, l, mask)]
    ensures MasksBounded(t, k')
  {
  }

  lemma RowWithoutMask(k: Links, k': Links, l: nat, mask: set<nat>, c: Id, j: nat, p: nat)
    requires Row(j, p) in k.tree && l in k.mask && j in k.mask && (p in k.mask[j] <==> k.tree[Row(j, p)] != {})
    requires k'.tree == RowWithout(k.tree, l, mask, c)
    requires k'.mask == k.mask[l := k.mask[l] - EmptyRows(k'.tree, l, mask)]
    ensures p in k'.mask[j] <==> k'.tree[Row(j, p)] != {}
  {
    if j == l && p in mask {
      assert k'.tree[Row(j, p)] != {} ==> k.tree[Row(j, p)] != {};
    } else {
      assert k'.tree[Row(j, p)] == k.tree[Row(j, p)];
    }
  }

  lemma RowWithoutFeeds(t: Topology, k: Links, k': Links, l: nat, mask: set<nat>, c: Id)
    requires Shaped(t, k) && Shaped(t, k') && ActivityMatches(t, k)
    requires k'.tree == RowWithout(k.tree, l, mask, c) && k'.act == k.act
    ensures ActivityMatches(t, k')
  {
    forall d: Id, p: nat | d in t && t[d].level > 0 && p < NUMPRIO
      ensures p in k'.act[d] <==> k'.tree[Feed(d, p)] != {}
    {
      assert k'.tree[Feed(d, p)] == k.tree[Feed(d, p)];
    }
  }

  lemma RowWithoutPointers(t: Topology, k: Links, k': Links, l: nat, mask: set<nat>, c: Id)
    requires Shaped(t, k) && Shaped(t, k') && PointersInside(t, k)
    requires k'.tree == RowWithout(k.tree, l, mask, c) && k'.ptr == AdvancePtr(k.ptr, k.tree, l, mask, c)
    ensures PointersInside(t, k')
  {
  }

  /** Taking a class that can send out of its row. */
  lemma DeactivateRow(t: Topology, k: Links, linked: map<Id, set<nat>>, c: Id, mask: set<nat>, k': Links)
    requires c in t && LinkedAs(t, k, linked)
    requires mask <= linked[c] && k.mode[c] == CanSend
    requires RowUnlinked(k, k', t[c].level, c, mask)
    ensures LinkedAs(t, k', linked[c := linked[c] - mask])
  {
    RowWithoutShape(t, k, k', t[c].level, mask, c);
    RowWithoutBounds(t, k, k', t[c].level, mask);
    RowWithoutMasks(t, k, k', t[c].level, mask, c);
    RowWithoutFeeds(t, k, k', t[c].level, mask, c);
    RowWithoutPointers(t, k, k', t[c].level, mask, c);
    RowWithoutTrees(t, k, k', linked, linked[c := linked[c] - mask], c, mask);
  }

  // ---------- what the loops may rely on ----------

  /** A class asked to be linked nowhere among `prios` is in none of these trees. */
  lemma NotInFeed(t: Topology, k: Links, linked: map<Id, set<nat>>, c: Id, prios: set<nat>)
    requires c in t && LinkedAs(t, k, linked) && t[c].parent != 0
    requires prios !! linked[c] && forall p | p in prios :: p < NUMPRIO
    ensures forall p | p in prios :: Feed(t[c].parent, p) in k.tree && c !in k.tree[Feed(t[c].parent, p)]
  {
    forall p | p in prios ensures Feed(t[c].parent, p) in k.tree && c !in k.tree[Feed(t[c].parent, p)] {
      assert IsSlot(t, Feed(t[c].parent, p));
      assert c in k.tree[Feed(t[c].parent, p)] <==> Belongs(t, k.mode, linked, Feed(t[c].parent, p), c);
    }
  }

  lemma NotInRow(t: Topology, k: Links, linked: map<Id, set<nat>>, c: Id, prios: set<nat>)
    requires c in t && LinkedAs(t, k, linked)
    requires prios !! linked[c] && forall p | p in prios :: p < NUMPRIO
    ensures forall p | p in prios :: Row(t[c].level, p) in k.tree && c !in k.tree[Row(t[c].level, p)]
  {
    forall p | p in prios ensures Row(t[c].level, p) in k.tree && c !in k.tree[Row(t[c].level, p)] {
      assert IsSlot(t, Row(t[c].level, p));
      assert c in k.tree[Row(t[c].level, p)] <==> Belongs(t, k.mode, linked, Row(t[c].level, p), c);
    }
  }

  /** A linked class is where it belongs, so erasing its node is safe. */
  lemma InFeed(t: Topology, k: Links, linked: map<Id, set<nat>>, c: Id, prios: set<nat>)
    requires c in t && LinkedAs(t, k, linked) && t[c].parent != 0 && k.mode[c] == MayBorrow
    requires prios <= linked[c] && forall p | p in prios :: p < NUMPRIO
    ensures forall p | p in prios :: Feed(t[c].parent, p) in k.tree && c in k.tree[Feed(t[c].parent, p)]
  {
    forall p | p in prios ensures Feed(t[c].parent, p) in k.tree && c in k.tree[Feed(t[c].parent, p)] {
      assert IsSlot(t, Feed(t[c].parent, p));
      assert Belongs(t, k.mode, linked, Feed(t[c].parent, p), c);
    }
  }

  lemma InRowOf(t: Topology, k: Links, linked: map<Id, set<nat>>, c: Id, prios: set<nat>)
    requires c in t && LinkedAs(t, k, linked) && k.mode[c] == CanSend
    requires prios <= linked[c] && forall p | p in prios :: p < NUMPRIO
    ensures forall p | p in prios :: Row(t[c].level, p) in k.tree && c in k.tree[Row(t[c].level, p)]
  {
    forall p | p in prios ensures Row(t[c].level, p) in k.tree && c in k.tree[Row(t[c].level, p)] {
      assert IsSlot(t, Row(t[c].level, p));
      assert Belongs(t, k.mode, linked, Row(t[c].level, p), c);
    }
  }

  /** How round-robin pointers follow shrinking trees: a pointer stays while its class does;
      a feed forgets a lost pointer but remembers the class, a row moves on to the next one. */
  ghost predicate PointerFollows(members: set<Id>, s: Slot, ptr: Id, last: Id, members': set<Id>, ptr': Id, last': Id) {
    if ptr == 0 || ptr in members' then ptr' == ptr && last' == last
    else if s.Feed? then ptr' == 0 && last' == ptr
    else ptr' == NextAbove(members, ptr) && last' == last
  }

  ghost predicate PointersFollow(k: Links, k': Links) {
    && k'.tree.Keys == k.tree.Keys == k.ptr.Keys == k.last.Keys == k'.ptr.Keys == k'.last.Keys
    && forall s {:trigger k'.ptr[s]} {:trigger k'.last[s]} | s in k.tree ::
         PointerFollows(k.tree[s], s, k.ptr[s], k.last[s], k'.tree[s], k'.ptr[s], k'.last[s])
  }

  lemma PointersFollowFeed(k0: Links, k: Links, k': Links, q: Id, prios: set<nat>, c: Id)
    requires PointersFollow(k0, k) && c != 0
    requires forall s | s in k.tree :: k.tree[s] <= k0.tree[s]
    requires FeedUnlinked(k, k', q, c, prios)
    ensures PointersFollow(k0, k')
  {
    forall s | s in k0.tree
      ensures PointerFollows(k0.tree[s], s, k0.ptr[s], k0.last[s], k'.tree[s], k'.ptr[s], k'.last[s])
    {
      assert PointerFollows(k0.tree[s], s, k0.ptr[s], k0.last[s], k.tree[s], k.ptr[s], k.last[s]);
    }
  }

  lemma TreesShrink(k: Links, k': Links, q: Id, prios: set<nat>, c: Id)
    requires FeedUnlinked(k, k', q, c, prios)
    ensures forall s | s in k'.tree :: k'.tree[s] <= k.tree[s]
    ensures forall s | s in k'.tree && s.Row? :: k'.tree[s] == k.tree[s]
  {
  }

  lemma PointersFollowRow(k0: Links, k: Links, k': Links, l: nat, prios: set<nat>, c: Id)
    requires Shrunk(k0, k) && c != 0
    requires forall s | s in k0.tree :: k0.ptr[s] == 0 || k0.ptr[s] in k0.tree[s]
    requires RowUnlinked(k, k', l, c, prios)
    ensures PointersFollow(k0, k')
  {
    forall s | s in k0.tree
      ensures PointerFollows(k0.tree[s], s, k0.ptr[s], k0.last[s], k'.tree[s], k'.ptr[s], k'.last[s])
    {
      assert PointerFollows(k0.tree[s], s, k0.ptr[s], k0.last[s], k.tree[s], k.ptr[s], k.last[s]);
      assert s.Row? ==> k0.tree[s] == k.tree[s] && k.ptr[s] == k0.ptr[s];
    }
  }

  // ---------- the loops of activation and deactivation ----------

  /** Row masks changed at most at level `l` and priorities `prios`. */
  ghost predicate MasksKeptBut(mask: map<nat, set<nat>>, mask': map<nat, set<nat>>, l: nat, prios: set<nat>) {
    && mask'.Keys == mask.Keys
    && (forall j: nat | j in mask && j != l :: mask'[j] == mask[j])
    && (l in mask ==> forall x: nat | x !in prios :: x in mask'[l] <==> x in mask[l])
  }

  ghost predicate LeafActivityKept(t: Topology, act: map<Id, set<nat>>, act': map<Id, set<nat>>) {
    && act.Keys == act'.Keys == t.Keys
    && forall d | d in t && t[d].level == 0 :: act'[d] == act[d]
  }

  /** Activation has linked everything below `c`; `c` itself is still to be linked at `m`. */
  ghost predicate Linking(t: Topology, k0: Links, k: Links, c: Id, m: set<nat>) {
    && c in t && k.act.Keys == t.Keys && m <= k.act[c]
    && LinkedAs(t, k, k.act[c := k.act[c] - m])
    && LeafActivityKept(t, k0.act, k.act)
  }

  lemma LinkingStep(t: Topology, k0: Links, k: Links, c: Id, m: set<nat>, up: set<nat>, k': Links)
    requires Linking(t, k0, k, c, m) && k.mode[c] == MayBorrow && t[c].parent != 0
    requires up == EmptyFeeds(k.tree, t[c].parent, m)
    requires FeedLinked(k, k', t[c].parent, c, m)
    ensures Linking(t, k0, k', t[c].parent, up)
  {
    ActivateStep(t, k, c, m, up, k');
  }

  lemma PutBack(act: map<Id, set<nat>>, c: Id, x: set<nat>)
    requires c in act
    ensures act[c := x][c := act[c]] == act
  {
  }

  /** Deactivation has unlinked `c0` and everything between it and `c`; `c` is still linked
      at `m`, where it is to be linked no more. */
  ghost predicate Unlinking(t: Topology, k0: Links, k: Links, linked: map<Id, set<nat>>, c0: Id, c: Id, m: set<nat>) {
    && c0 in t && c in t && t[c0].level <= t[c].level
    && LinkedAs(t, k, linked)
    && m <= linked[c] && linked[c := linked[c] - m] == k.act[c0 := {}]
    && (forall x | x in m :: x < NUMPRIO)
    && LeafActivityKept(t, k0.act, k.act) && k.act[c0] == k0.act[c0]
  }

  ghost predicate Shrunk(k0: Links, k: Links) {
    && PointersFollow(k0, k)
    && (forall s | s in k.tree :: k.tree[s] <= k0.tree[s])
    && (forall s | s in k.tree && s.Row? :: k.tree[s] == k0.tree[s])
  }

  lemma UnlinkedActivity(act: map<Id, set<nat>>, linked: map<Id, set<nat>>, c0: Id, p: Id, down: set<nat>)
    requires linked == act[c0 := {}] && p in act && p != c0
    ensures linked[p := linked[p] - down] == act[p := act[p] - down][c0 := {}]
  {
  }

  lemma UnlinkingStep(t: Topology, k0: Links, k: Links, linked: map<Id, set<nat>>, c0: Id, c: Id, m: set<nat>, k': Links)
    requires Unlinking(t, k0, k, linked, c0, c, m) && k.mode[c] == MayBorrow && t[c].parent != 0
    requires FeedUnlinked(k, k', t[c].parent, c, m)
    ensures Unlinking(t, k0, k', linked[c := linked[c] - m], c0, t[c].parent, EmptyFeeds(k'.tree, t[c].parent, m))
  {
    var p := t[c].parent;
    var down := EmptyFeeds(k'.tree, p, m);
    InFeed(t, k, linked, c, m);
    forall x | x in down ensures x in k.act[p] {
      assert c in k.tree[Feed(p, x)];
    }
    DeactivateStep(t, k, linked, c, m, k');
    UnlinkedActivity(k.act, linked[c := linked[c] - m], c0, p, down);
  }

  lemma RowUnlinkedMasks(k: Links, k': Links, l: nat, c: Id, m: set<nat>)
    requires RowUnlinked(k, k', l, c, m)
    ensures MasksKeptBut(k.mask, k'.mask, l, m)
  {
  }

  /** Leaving the row completes a deactivation. */
  lemma UnlinkingEnds(t: Topology, k0: Links, k: Links, linked: map<Id, set<nat>>, c0: Id, c: Id, m: set<nat>, k': Links)
    requires Unlinking(t, k0, k, linked, c0, c, m) && k.mode[c] == CanSend && Shrunk(k0, k)
    requires forall s | s in k0.tree :: k0.ptr[s] == 0 || k0.ptr[s] in k0.tree[s]
    requires RowUnlinked(k, k', t[c].level, c, m)
    ensures LinkedAs(t, k', k.act[c0 := {}]) && PointersFollow(k0, k') && MasksKeptBut(k.mask, k'.mask, t[c].level, m)
  {
    DeactivateRow(t, k, linked, c, m, k');
    PointersFollowRow(k0, k, k', t[c].level, m, c);
    RowUnlinkedMasks(k, k', t[c].level, c, m);
  }

  lemma ShrunkStep(k0: Links, k: Links, k': Links, q: Id, prios: set<nat>, c: Id)
    requires Shrunk(k0, k) && c != 0 && FeedUnlinked(k, k', q, c, prios)
    ensures Shrunk(k0, k')
  {
    PointersFollowFeed(k0, k, k', q, prios, c);
    TreesShrink(k, k', q, prios, c);
  }

  lemma UnlinkedTreesMatch(t: Topology, k: Links, k': Links, linked: map<Id, set<nat>>, c: Id, m: Mode)
    requires c in t && Shaped(t, k) && Shaped(t, k') && linked.Keys == t.Keys && TreesMatch(t, k, linked)
    requires linked[c] == {} && k' == k.(mode := k.mode[c := m])
    ensures TreesMatch(t, k', linked)
  {
    forall s, d | s in k'.tree && d in t
      ensures d in k'.tree[s] <==> Belongs(t, k'.mode, linked, s, d)
    {
      assert d in k.tree[s] <==> Belongs(t, k.mode, linked, s, d);
    }
  }

  /** An unlinked class may take any mode. */
  lemma UnlinkedModeIsFree(t: Topology, k: Links, linked: map<Id, set<nat>>, c: Id, m: Mode)
    requires c in t && LinkedAs(t, k, linked) && linked[c] == {}
    ensures LinkedAs(t, k.(mode := k.mode[c := m]), linked)
  {
    UnlinkedTreesMatch(t, k, k.(mode := k.mode[c := m]), linked, c, m);
  }

  /** Row masks below level `l` are unchanged. */
  ghost predicate LowMasksKept(mask: map<nat, set<nat>>, mask': map<nat, set<nat>>, l: nat) {
    mask'.Keys == mask.Keys && forall j: nat | j in mask && j < l :: mask'[j] == mask[j]
  }

  lemma SameTreesMatch(t: Topology, k: Links, k': Links, linked: map<Id, set<nat>>)
    requires Shaped(t, k) && Shaped(t, k') && linked.Keys == t.Keys && TreesMatch(t, k, linked)
    requires k'.tree == k.tree && k'.mode == k.mode
    ensures TreesMatch(t, k', linked)
  {
  }

  lemma LeafActivityMatches(t: Topology, k: Links, k': Links, c: Id, prios: set<nat>)
    requires c in t && t[c].level == 0 && prios <= {t[c].prio} && t[c].prio < NUMPRIO
    requires Shaped(t, k) && ActivityMatches(t, k) && k' == k.(act := k.act[c := prios])
    ensures Shaped(t, k') && ActivityMatches(t, k')
  {
  }

  /** The recorded activity of an unlinked leaf may be set to its own priority or cleared. */
  lemma LeafPrioIsFree(t: Topology, k: Links, c: Id, prios: set<nat>)
    requires c in t && t[c].level == 0 && prios <= {t[c].prio}
    requires k.act.Keys == t.Keys && LinkedAs(t, k, k.act[c := {}])
    ensures LinkedAs(t, k.(act := k.act[c := prios]), k.act[c := {}])
  {
    var k' := k.(act := k.act[c := prios]);
    LeafActivityMatches(t, k, k', c, prios);
    SameTreesMatch(t, k, k', k.act[c := {}]);
  }

  lemma PutSame<V>(m: map<Id, V>, c: Id)
    requires c in m
    ensures m[c := m[c]] == m
  {
  }

  lemma PutTwice<V>(m: map<Id, V>, c: Id, x: V, y: V)
    ensures m[c := x][c := y] == m[c := y]
  {
  }

  /** An inactive class may take any mode. */
  lemma InactiveModeIsFree(t: Topology, k: Links, c: Id, m: Mode)
    requires c in t && LinkInv(t, k) && k.act[c] == {}
    ensures LinkInv(t, k.(mode := k.mode[c := m]))
  {
    UnlinkedModeIsFree(t, k, k.act, c, m);
  }

  /** Only round-robin pointers and remembered identifiers changed. */
  ghost predicate PointersMoved(k: Links, k': Links) {
    k'.mode == k.mode && k'.act == k.act && k'.tree == k.tree && k'.mask == k.mask
  }

  lemma MasksKeptTrans(mask: map<nat, set<nat>>, mask1: map<nat, set<nat>>, mask2: map<nat, set<nat>>, l: nat, prios: set<nat>)
    requires MasksKeptBut(mask, mask1, l, prios) && MasksKeptBut(mask1, mask2, l, prios)
    ensures MasksKeptBut(mask, mask2, l, prios)
  {
  }

  lemma OnePrioDone(mask: map<nat, set<nat>>, mask': map<nat, set<nat>>, l: nat, p: nat)
    requires MasksKeptBut(mask, mask', l, {p}) && l in mask && p !in mask'[l]
    ensures mask'[l] == mask[l] - {p} && LowMasksKept(mask, mask', l)
  {
  }

  // ---------- idle schedulers ----------

  function Slots(t: Topology): (r: set<Slot>)
    ensures forall s :: s in r <==> IsSlot(t, s)
  {
    (set l: nat, p: nat | l < MAXDEPTH && p < NUMPRIO :: Row(l, p))
    + (set c, p: nat | c in t && t[c].level > 0 && p < NUMPRIO :: Feed(c, p))
  }

  function Levels(): (r: set<nat>)
    ensures forall l: nat :: l in r <==> l < MAXDEPTH
  {
    {0, 1, 2, 3, 4, 5, 6, 7}
  }

  /** The linkage of a scheduler none of whose classes is active. */
  function IdleLinks(t: Topology): Links {
    Links(map c | c in t :: CanSend, map c | c in t :: {}, map s | s in Slots(t) :: {},
          map l | l in Levels() :: {}, map s | s in Slots(t) :: 0, map s | s in Slots(t) :: 0)
  }

  ghost predicate Idle(t: Topology, k: Links) {
    && Shaped(t, k)
    && (forall c {:trigger k.act[c]} | c in t :: k.act[c] == {} && k.mode[c] == CanSend)
    && (forall s {:trigger k.tree[s]} {:trigger k.ptr[s]} | s in k.tree :: k.tree[s] == {} && k.ptr[s] == 0)
    && (forall l {:trigger k.mask[l]} | l in k.mask :: k.mask[l] == {})
  }

  lemma IdleIsLinked(t: Topology, k: Links)
    requires WellFormed(t) && Idle(t, k)
    ensures LinkInv(t, k)
  {
  }

  /** The value `v` for every feed of `c`. */
  function FeedsOf<T>(m: map<Slot, T>, c: Id, v: T): map<Slot, T> {
    map s | s in m :: if s.Feed? && s.cls == c then v else m[s]
  }

  function RowsOf<T>(m: map<Slot, T>, v: T): map<Slot, T> {
    map s | s in m :: if s.Row? then v else m[s]
  }

  function ClassIdle(t: Topology, k: Links, c: Id): Links
    requires c in t
  {
    var k1 := if t[c].level > 0 then k.(tree := FeedsOf(k.tree, c, {}), ptr := FeedsOf(k.ptr, c, 0), last := FeedsOf(k.last, c, 0)) else k;
    k1.(act := k1.act[c := {}], mode := k1.mode[c := CanSend])
  }

  function RowsIdle(k: Links): Links {
    k.(tree := RowsOf(k.tree, {}), ptr := RowsOf(k.ptr, 0), mask := map l | l in k.mask :: {})
  }

  /** The classes of `done` are inactive, their feeds empty. */
  ghost predicate IdleSoFar(t: Topology, k: Links, done: set<Id>) {
    && Shaped(t, k)
    && (forall c {:trigger k.act[c]} | c in t && c in done :: k.act[c] == {} && k.mode[c] == CanSend)
    && (forall s {:trigger k.tree[s]} {:trigger k.ptr[s]} | s in k.tree && s.Feed? && s.cls in done :: k.tree[s] == {} && k.ptr[s] == 0)
  }

  lemma OneMoreIdle(t: Topology, k: Links, done: set<Id>, c: Id)
    requires WellFormed(t) && IdleSoFar(t, k, done) && c in t
    ensures IdleSoFar(t, ClassIdle(t, k, c), done + {c})
  {
    hide WellFormed;
    var k' := ClassIdle(t, k, c);
    assert k'.tree.Keys == k.tree.Keys && k'.ptr.Keys == k.ptr.Keys && k'.last.Keys == k.last.Keys;
    assert Shaped(t, k');
  }

  lemma AllIdle(t: Topology, k: Links)
    requires WellFormed(t) && IdleSoFar(t, k, t.Keys)
    ensures LinkInv(t, RowsIdle(k))
  {
    assert Idle(t, RowsIdle(k));
    IdleIsLinked(t, RowsIdle(k));
  }
}
