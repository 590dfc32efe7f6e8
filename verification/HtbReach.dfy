/** What the link invariant buys: the linkage is a function of the modes and of the leaf
    activity, and an active class can be served exactly from the row of its lender. */
module HtbReach {
  import opened HtbLinks

  // ---------- the linkage is determined ----------

  lemma {:induction false} SameActivity(t: Topology, k1: Links, k2: Links, c: Id)
    requires LinkInv(t, k1) && LinkInv(t, k2) && k1.mode == k2.mode && c in t
    requires forall d | d in t && t[d].level == 0 :: k1.act[d] == k2.act[d]
    ensures k1.act[c] == k2.act[c]
    decreases t[c].level, 1
  {
    if t[c].level > 0 {
      forall p ensures p in k1.act[c] <==> p in k2.act[c] {
        if p in k1.act[c] { ActivityCarries(t, k1, k2, c, p); }
        if p in k2.act[c] { ActivityCarries(t, k2, k1, c, p); }
      }
    }
  }

  lemma {:induction false} ActivityCarries(t: Topology, k1: Links, k2: Links, c: Id, p: nat)
    requires LinkInv(t, k1) && LinkInv(t, k2) && k1.mode == k2.mode && c in t
    requires forall d | d in t && t[d].level == 0 :: k1.act[d] == k2.act[d]
    requires t[c].level > 0 && p in k1.act[c]
    ensures p in k2.act[c]
    decreases t[c].level, 0
  {
    assert k1.tree[Feed(c, p)] != {};
    var d :| d in k1.tree[Feed(c, p)];
    assert Belongs(t, k1.mode, k1.act, Feed(c, p), d);
    SameActivity(t, k1, k2, d);
    assert Belongs(t, k2.mode, k2.act, Feed(c, p), d);
  }

  /** Feeds, rows, masks and inner activity are a function of the modes and of which leaves
      are active: no history of activations and mode changes can leave a different linkage. */
  lemma LinkageIsDetermined(t: Topology, k1: Links, k2: Links)
    requires LinkInv(t, k1) && LinkInv(t, k2) && k1.mode == k2.mode
    requires forall c | c in t && t[c].level == 0 :: k1.act[c] == k2.act[c]
    ensures k1.act == k2.act && k1.tree == k2.tree && k1.mask == k2.mask
  {
    forall c | c in t ensures k1.act[c] == k2.act[c] {
      SameActivity(t, k1, k2, c);
    }
    assert k1.act == k2.act;
    SameTrees(t, k1, k2);
    SameMasks(t, k1, k2);
  }

  lemma SameTrees(t: Topology, k1: Links, k2: Links)
    requires Shaped(t, k1) && Shaped(t, k2) && k1.mode == k2.mode && k1.act == k2.act
    requires TreesMatch(t, k1, k1.act) && TreesMatch(t, k2, k2.act)
    ensures k1.tree == k2.tree
  {
    forall s | s in k1.tree ensures k1.tree[s] == k2.tree[s] {
      forall c ensures c in k1.tree[s] <==> c in k2.tree[s] {
        if c in t {
          assert c in k1.tree[s] <==> Belongs(t, k1.mode, k1.act, s, c);
        }
      }
    }
  }

  lemma SameMasks(t: Topology, k1: Links, k2: Links)
    requires Shaped(t, k1) && Shaped(t, k2) && k1.tree == k2.tree
    requires MasksMatch(t, k1) && MasksBounded(t, k1) && MasksMatch(t, k2) && MasksBounded(t, k2)
    ensures k1.mask == k2.mask
  {
    forall l: nat | l < MAXDEPTH ensures k1.mask[l] == k2.mask[l] {
      forall p: nat ensures p in k1.mask[l] <==> p in k2.mask[l] {
        if p < NUMPRIO {
          assert p in k1.mask[l] <==> k1.tree[Row(l, p)] != {};
        }
      }
    }
  }

  // ---------- lenders and reachability ----------

  /** Walking up from `c` through classes that may borrow: the first class that can send,
      or 0 when a class that cannot send, or the top, comes first. */
  function Lender(t: Topology, mode: map<Id, Mode>, c: Id): (r: Id)
    requires WellFormed(t) && mode.Keys == t.Keys && c in t
    ensures r != 0 ==> r in t && mode[r] == CanSend
    decreases MAXDEPTH - t[c].level
  {
    if mode[c] == CanSend then c
    else if mode[c] == MayBorrow && t[c].parent != 0 then Lender(t, mode, t[c].parent)
    else 0
  }

  function Height(t: Topology, s: Slot): nat {
    if s.Row? then s.level + 1 else if s.cls in t then t[s.cls].level else 0
  }

  /** `c` can be reached from tree `s` by descending through feeds. */
  ghost predicate Reaches(t: Topology, k: Links, linked: map<Id, set<nat>>, s: Slot, c: Id)
    requires LinkedAs(t, k, linked) && IsSlot(t, s)
    decreases Height(t, s)
  {
    || c in k.tree[s]
    || exists d :: d in k.tree[s] && Below(t, s, d) && t[d].level > 0 && Reaches(t, k, linked, Feed(d, s.prio), c)
  }

  ghost predicate Below(t: Topology, s: Slot, d: Id) {
    d in t && t[d].level < Height(t, s)
  }

  /** Members of a tree sit strictly below it. */
  lemma MemberIsBelow(t: Topology, k: Links, linked: map<Id, set<nat>>, s: Slot, d: Id)
    requires LinkedAs(t, k, linked) && IsSlot(t, s) && d in k.tree[s]
    ensures Below(t, s, d)
  {
    assert Belongs(t, k.mode, linked, s, d);
  }

  lemma {:induction false} ReachesBelow(t: Topology, k: Links, s: Slot, q: Id, c: Id)
    requires LinkInv(t, k) && IsSlot(t, s) && q in t && t[q].level > 0
    requires Reaches(t, k, k.act, s, q) && c in k.tree[Feed(q, s.prio)]
    ensures Reaches(t, k, k.act, s, c)
    decreases Height(t, s)
  {
    if q in k.tree[s] {
      MemberIsBelow(t, k, k.act, s, q);
      assert Reaches(t, k, k.act, Feed(q, s.prio), c);
    } else {
      var d :| d in k.tree[s] && Below(t, s, d) && t[d].level > 0 && Reaches(t, k, k.act, Feed(d, s.prio), q);
      ReachesBelow(t, k, Feed(d, s.prio), q, c);
    }
  }

  /** An active class is reached from the row of its lender's level. */
  lemma {:induction false} ReachedFromLender(t: Topology, k: Links, c: Id, p: nat)
    requires LinkInv(t, k) && c in t && p in k.act[c] && Lender(t, k.mode, c) != 0
    ensures Reaches(t, k, k.act, Row(t[Lender(t, k.mode, c)].level, p), c)
    decreases MAXDEPTH - t[c].level
  {
    if k.mode[c] == CanSend {
      assert Belongs(t, k.mode, k.act, Row(t[c].level, p), c);
    } else {
      var q := t[c].parent;
      assert Belongs(t, k.mode, k.act, Feed(q, p), c);
      assert k.tree[Feed(q, p)] != {};
      ReachedFromLender(t, k, q, p);
      ReachesBelow(t, k, Row(t[Lender(t, k.mode, c)].level, p), q, c);
    }
  }

  /** Descending never leaves the lender: everything below a row is lent to from that row,
      and everything below a feed shares the lender of the class that owns it. */
  lemma {:induction false} ReachedHasLender(t: Topology, k: Links, s: Slot, c: Id)
    requires LinkInv(t, k) && IsSlot(t, s) && Reaches(t, k, k.act, s, c)
    ensures c in t && s.prio in k.act[c]
    ensures s.Row? ==> Lender(t, k.mode, c) != 0 && t[Lender(t, k.mode, c)].level == s.level
    ensures s.Feed? ==> Lender(t, k.mode, c) == Lender(t, k.mode, s.cls)
    decreases Height(t, s)
  {
    if c in k.tree[s] {
      assert Belongs(t, k.mode, k.act, s, c);
    } else {
      var d :| d in k.tree[s] && Below(t, s, d) && t[d].level > 0 && Reaches(t, k, k.act, Feed(d, s.prio), c);
      assert Belongs(t, k.mode, k.act, s, d);
      ReachedHasLender(t, k, Feed(d, s.prio), c);
    }
  }

  /** No starvation by mislinking: a class active at a priority is reachable from a level's
      row there exactly when walking up through borrowing classes first meets a class that
      can send, and that class is at that level. */
  lemma ReachableIffLender(t: Topology, k: Links, c: Id, p: nat, l: nat)
    requires LinkInv(t, k) && c in t && p in k.act[c] && l < MAXDEPTH
    ensures Reaches(t, k, k.act, Row(l, p), c)
            <==> Lender(t, k.mode, c) != 0 && t[Lender(t, k.mode, c)].level == l
  {
    if Reaches(t, k, k.act, Row(l, p), c) {
      ReachedHasLender(t, k, Row(l, p), c);
    } else if Lender(t, k.mode, c) != 0 {
      ReachedFromLender(t, k, c, p);
    }
  }

  /** The rows of all levels below `l` are empty. */
  ghost predicate LowRowsEmpty(mask: map<nat, set<nat>>, l: nat) {
    forall j: nat | j < l && j in mask :: mask[j] == {}
  }

  /** With every row empty, no active class has a lender. */
  lemma EmptyRowsNoLender(t: Topology, k: Links, c: Id, p: nat)
    requires LinkInv(t, k) && c in t && p in k.act[c]
    requires LowRowsEmpty(k.mask, MAXDEPTH)
    ensures Lender(t, k.mode, c) == 0
  {
    if Lender(t, k.mode, c) != 0 {
      ReachedFromLender(t, k, c, p);
    }
  }

  /** The lender is found at or above the borrower. */
  lemma {:induction false} LenderIsAbove(t: Topology, mode: map<Id, Mode>, c: Id)
    requires WellFormed(t) && mode.Keys == t.Keys && c in t && Lender(t, mode, c) != 0
    ensures t[c].level <= t[Lender(t, mode, c)].level
    ensures t[c].level == t[Lender(t, mode, c)].level ==> Lender(t, mode, c) == c
    decreases MAXDEPTH - t[c].level
  {
    if mode[c] != CanSend {
      LenderIsAbove(t, mode, t[c].parent);
    }
  }

  /** One step of the climb towards the lender. */
  lemma LenderStep(t: Topology, mode: map<Id, Mode>, c: Id)
    requires WellFormed(t) && mode.Keys == t.Keys && c in t
    ensures mode[c] == CanSend ==> Lender(t, mode, c) == c
    ensures mode[c] == MayBorrow && t[c].parent != 0 ==>
              t[c].parent in t && Lender(t, mode, c) == Lender(t, mode, t[c].parent)
    ensures mode[c] == CantSend || (mode[c] == MayBorrow && t[c].parent == 0) ==> Lender(t, mode, c) == 0
  {
  }

  /** A climb that ends at `top` changes no row below the level it started from. */
  lemma ClimbedRowsAreHigh(t: Topology, mode: map<Id, Mode>, c: Id, top: Id)
    requires WellFormed(t) && mode.Keys == t.Keys && c in t && top in t
    requires Lender(t, mode, top) == Lender(t, mode, c)
    ensures mode[top] == CanSend ==> top == Lender(t, mode, c) && t[c].level <= t[top].level
  {
    if mode[top] == CanSend {
      LenderIsAbove(t, mode, c);
    }
  }

  lemma RowsStayEmpty(mask0: map<nat, set<nat>>, mask1: map<nat, set<nat>>, mask2: map<nat, set<nat>>, l: nat)
    requires LowRowsEmpty(mask0, l) && LowMasksKept(mask0, mask1, l) && LowMasksKept(mask1, mask2, l)
    requires l in mask2 && mask2[l] == {}
    ensures LowRowsEmpty(mask2, l + 1)
  {
  }
}
