/** The order in which leaves are served: a depth-first walk of a row in class order that
    starts at the saved round-robin cursors and rewinds every tree it runs off the end of. */
module HtbSweep {
  import opened HtbLinks
  import opened HtbReach

  type Trees = map<Slot, set<Id>>
  type Cursors = map<Slot, Id>

  /** Members of a tree sit below it, and the feeds of inner members exist and are not empty. */
  ghost predicate Layered(t: Topology, tree: Trees) {
    forall s, d {:trigger d in tree[s]} | s in tree && d in tree[s] ::
      && d != 0 && d in t && t[d].level < Height(t, s)
      && (t[d].level > 0 ==> Feed(d, s.prio) in tree && tree[Feed(d, s.prio)] != {})
  }

  ghost predicate CursorsInside(tree: Trees, cur: Cursors) {
    && cur.Keys == tree.Keys
    && forall s <- tree :: cur[s] == 0 || cur[s] in tree[s]
  }

  lemma InvIsLayered(t: Topology, k: Links)
    requires LinkInv(t, k)
    ensures Layered(t, k.tree)
  {
    forall s, d | s in k.tree && d in k.tree[s]
      ensures d != 0 && d in t && t[d].level < Height(t, s)
      ensures t[d].level > 0 ==> Feed(d, s.prio) in k.tree && k.tree[Feed(d, s.prio)] != {}
    {
      assert Belongs(t, k.mode, k.act, s, d);
      assert IsSlot(t, s);
    }
  }

  /** Where the walk of `s` starts: the saved pointer or, if it was invalidated, the first
      class from the remembered identifier on.  0 means past the right end. */
  function Cursor(members: set<Id>, ptr: Id, last: Id): (r: Id) {
    if ptr != 0 then ptr else if last != 0 then NextFrom(members, last) else 0
  }

  function CursorMap(tree: Trees, ptr: Cursors, last: Cursors): Cursors
    requires ptr.Keys == tree.Keys && last.Keys == tree.Keys
  {
    map s | s in tree :: Cursor(tree[s], ptr[s], last[s])
  }

  lemma CursorsAreInside(t: Topology, k: Links)
    requires LinkInv(t, k)
    ensures CursorsInside(k.tree, CursorMap(k.tree, k.ptr, k.last))
  {
  }

  ghost function From(members: set<Id>, c: Id): set<Id> {
    set y | y in members && c <= y
  }

  lemma FromShrinks(members: set<Id>, c: Id)
    requires c in members
    ensures NextAbove(members, c) != 0 ==> From(members, NextAbove(members, c)) < From(members, c)
  {
    assert c in From(members, c);
  }

  datatype Found = Found(leaf: Id, cur: Cursors)

  /** Walk `s` from its member `c` on (0 when past the end).  The result is the leaf found, or 0
      when the walk ran off the right end of `s`, and the cursors left behind. */
  ghost function Sweep(t: Topology, tree: Trees, cur: Cursors, s: Slot, c: Id): (r: Found)
    requires Layered(t, tree) && CursorsInside(tree, cur) && s in tree && (c == 0 || c in tree[s])
    ensures CursorsInside(tree, r.cur)
    decreases Height(t, s), c != 0, From(tree[s], c)
  {
    if c == 0 then Found(0, cur[s := Least(tree[s])])
    else if t[c].level == 0 then Found(c, cur[s := c])
    else
      var inner := Sweep(t, tree, cur[s := c], Feed(c, s.prio), cur[Feed(c, s.prio)]);
      if inner.leaf != 0 then inner
      else
        var n := NextAbove(tree[s], c);
        FromShrinks(tree[s], c);
        Sweep(t, tree, inner.cur, s, n)
  }

  /** The cursors after `n` walks of row `s` that each ran off its end. */
  ghost function Rewound(t: Topology, tree: Trees, cur: Cursors, s: Slot, n: nat): (r: Cursors)
    requires Layered(t, tree) && CursorsInside(tree, cur) && s in tree
    ensures CursorsInside(tree, r)
  {
    if n == 0 then cur
    else var before := Rewound(t, tree, cur, s, n - 1); Sweep(t, tree, before, s, before[s]).cur
  }

  /** `f` is what repeated walks of row `s` find: the first `n` run off the end, the next one
      ends at a leaf. */
  ghost predicate FoundAfter(t: Topology, tree: Trees, cur: Cursors, s: Slot, n: nat, f: Found)
    requires Layered(t, tree) && CursorsInside(tree, cur) && s in tree
  {
    && (forall i: nat | i < n ::
          var w := Rewound(t, tree, cur, s, i); Sweep(t, tree, w, s, w[s]).leaf == 0)
    && (var w := Rewound(t, tree, cur, s, n); Sweep(t, tree, w, s, w[s]) == f)
    && f.leaf != 0
  }

  /** The description is unambiguous. */
  lemma FoundIsUnique(t: Topology, tree: Trees, cur: Cursors, s: Slot, n: nat, f: Found, m: nat, g: Found)
    requires Layered(t, tree) && CursorsInside(tree, cur) && s in tree
    requires FoundAfter(t, tree, cur, s, n, f) && FoundAfter(t, tree, cur, s, m, g)
    ensures n == m && f == g
  {
  }

  // ---------- the explicit stack computes the walk ----------

  /** A stack of trees: each one is the feed of a member of the one below. */
  ghost predicate IsStack(t: Topology, tree: Trees, stk: seq<Slot>) {
    && |stk| > 0
    && (forall i | 0 <= i < |stk| :: stk[i] in tree && Height(t, stk[i]) > 0)
    && (forall i | 0 < i < |stk| :: stk[i].Feed? && stk[i].cls in tree[stk[i - 1]] && stk[i].prio == stk[i - 1].prio)
  }

  /** Finishing the walk of every tree on the stack, innermost first. */
  ghost function Resume(t: Topology, tree: Trees, cur: Cursors, stk: seq<Slot>): (r: Found)
    requires Layered(t, tree) && CursorsInside(tree, cur) && IsStack(t, tree, stk)
    ensures CursorsInside(tree, r.cur)
    decreases |stk|
  {
    var top := stk[|stk| - 1];
    var f := Sweep(t, tree, cur, top, cur[top]);
    if f.leaf != 0 || |stk| == 1 then f
    else
      var below := stk[..|stk| - 1];
      var u := below[|below| - 1];
      Resume(t, tree, f.cur[u := NextAbove(tree[u], top.cls)], below)
  }

  /** A walk overwrites the cursor of its own tree. */
  lemma SweepIgnoresOwnCursor(t: Topology, tree: Trees, cur: Cursors, s: Slot, c: Id, v: Id)
    requires Layered(t, tree) && CursorsInside(tree, cur) && s in tree && (c == 0 || c in tree[s])
    requires v == 0 || v in tree[s]
    ensures Sweep(t, tree, cur[s := v], s, c) == Sweep(t, tree, cur, s, c)
  {
    assert cur[s := v][s := c] == cur[s := c];
    assert cur[s := v][s := Least(tree[s])] == cur[s := Least(tree[s])];
    assert c != 0 && t[c].level > 0 ==> Feed(c, s.prio) != s;
  }

  /** The walk from an inner class, one step unfolded. */
  lemma SweepInto(t: Topology, tree: Trees, cur: Cursors, s: Slot, c: Id)
    requires Layered(t, tree) && CursorsInside(tree, cur) && s in tree
    requires c == cur[s] != 0 && t[c].level > 0
    ensures var inner := Sweep(t, tree, cur, Feed(c, s.prio), cur[Feed(c, s.prio)]);
            var n := NextAbove(tree[s], c);
            Sweep(t, tree, cur, s, c) == if inner.leaf != 0 then inner else Sweep(t, tree, inner.cur[s := n], s, n)
  {
    assert cur[s := c] == cur;
    var inner := Sweep(t, tree, cur, Feed(c, s.prio), cur[Feed(c, s.prio)]);
    var n := NextAbove(tree[s], c);
    SweepIgnoresOwnCursor(t, tree, inner.cur, s, n, n);
  }

  lemma PushIsStack(t: Topology, tree: Trees, stk: seq<Slot>, c: Id)
    requires Layered(t, tree) && IsStack(t, tree, stk)
    requires c in tree[stk[|stk| - 1]] && t[c].level > 0
    ensures IsStack(t, tree, stk + [Feed(c, stk[|stk| - 1].prio)])
  {
  }

  /** Descending into the current inner class. */
  lemma ResumePush(t: Topology, tree: Trees, cur: Cursors, stk: seq<Slot>, stk': seq<Slot>, c: Id)
    requires Layered(t, tree) && CursorsInside(tree, cur) && IsStack(t, tree, stk) && IsStack(t, tree, stk')
    requires c == cur[stk[|stk| - 1]] != 0 && t[c].level > 0
    requires stk' == stk + [Feed(c, stk[|stk| - 1].prio)]
    ensures Resume(t, tree, cur, stk') == Resume(t, tree, cur, stk)
  {
    var s := stk[|stk| - 1];
    assert stk'[..|stk'| - 1] == stk;
    SweepInto(t, tree, cur, s, c);
  }

  /** Running off the end of a feed: rewind it, go up and move on. */
  lemma ResumePop(t: Topology, tree: Trees, cur: Cursors, stk: seq<Slot>)
    requires Layered(t, tree) && CursorsInside(tree, cur) && IsStack(t, tree, stk) && |stk| > 1
    requires cur[stk[|stk| - 1]] == 0
    ensures IsStack(t, tree, stk[..|stk| - 1])
    ensures var s, u := stk[|stk| - 1], stk[|stk| - 2];
            Resume(t, tree, cur[s := Least(tree[s])][u := NextAbove(tree[u], s.cls)], stk[..|stk| - 1])
            == Resume(t, tree, cur, stk)
  {
    var below := stk[..|stk| - 1];
    assert below[|below| - 1] == stk[|stk| - 2];
  }

  /** Trees on the stack get strictly lower, so the stack never exceeds its bound. */
  lemma {:induction false} StackIsShallow(t: Topology, tree: Trees, stk: seq<Slot>)
    requires Layered(t, tree) && IsStack(t, tree, stk)
    ensures Height(t, stk[|stk| - 1]) + |stk| <= Height(t, stk[0]) + 1
    decreases |stk|
  {
    if |stk| > 1 {
      StackIsShallow(t, tree, stk[..|stk| - 1]);
    }
  }

  // ---------- the walk ends ----------

  /** The trees of one height whose cursor is past the end. */
  ghost function Exhausted(t: Topology, cur: Cursors, h: nat): set<Slot> {
    set s | s in cur && Height(t, s) == h && cur[s] == 0
  }

  lemma RewindShrinks(t: Topology, cur: Cursors, s: Slot, v: Id, cur': Cursors)
    requires s in cur && cur[s] == 0 && v != 0
    requires cur'.Keys == cur.Keys && cur'[s] == v
    requires forall z | z in cur && z != s && Height(t, z) <= Height(t, s) :: cur'[z] == cur[z]
    ensures |Exhausted(t, cur', Height(t, s))| < |Exhausted(t, cur, Height(t, s))|
    ensures forall h: nat | h < Height(t, s) :: Exhausted(t, cur', h) == Exhausted(t, cur, h)
  {
    var h := Height(t, s);
    assert Exhausted(t, cur', h) == Exhausted(t, cur, h) - {s};
    assert s in Exhausted(t, cur, h);
    forall g: nat | g < h ensures Exhausted(t, cur', g) == Exhausted(t, cur, g) {
    }
  }

  // ---------- the stack and the linkage ----------

  /** Everything in the topmost tree is lent to from the row at the bottom of the stack. */
  lemma {:induction false} StackHasLender(t: Topology, k: Links, stk: seq<Slot>, c: Id)
    requires LinkInv(t, k) && IsStack(t, k.tree, stk) && stk[0].Row? && c in k.tree[stk[|stk| - 1]]
    ensures c in t && stk[0].prio == stk[|stk| - 1].prio && stk[0].prio in k.act[c]
    ensures Lender(t, k.mode, c) != 0 && t[Lender(t, k.mode, c)].level == stk[0].level
    decreases |stk|
  {
    assert Belongs(t, k.mode, k.act, stk[|stk| - 1], c);
    if |stk| > 1 {
      StackHasLender(t, k, stk[..|stk| - 1], stk[|stk| - 1].cls);
    }
  }

  /** The tree in which a leaf was found is its parent's feed or, at level 0, the row. */
  lemma LeafHome(t: Topology, k: Links, stk: seq<Slot>, c: Id)
    requires LinkInv(t, k) && IsStack(t, k.tree, stk) && stk[0].Row? && c in k.tree[stk[|stk| - 1]]
    requires c in t && t[c].level == 0
    ensures stk[|stk| - 1] == if stk[0].level > 0 then Feed(t[c].parent, stk[|stk| - 1].prio) else stk[0]
  {
    assert Belongs(t, k.mode, k.act, stk[|stk| - 1], c);
    if |stk| > 1 {
      assert Belongs(t, k.mode, k.act, stk[0], stk[1].cls);
      assert Height(t, stk[1]) > 0;
    }
  }

  /** Moving pointers inside their trees keeps the link invariant. */
  lemma PointersAreFree(t: Topology, k: Links, k': Links)
    requires LinkInv(t, k) && k' == k.(ptr := k'.ptr, last := k'.last)
    requires k'.ptr.Keys == k.tree.Keys && k'.last.Keys == k.tree.Keys
    requires forall s <- k.tree :: k'.ptr[s] == 0 || k'.ptr[s] in k.tree[s]
    ensures LinkInv(t, k')
  {
    assert Shaped(t, k');
    SameTreesMatch(t, k, k', k.act);
  }

  /** The saved pointers and identifiers agree with cursors `cur` while the trees on the stack
      below the top are being walked. */
  ghost predicate Walking(t: Topology, tree: Trees, ptr: Cursors, last: Cursors, stk: seq<Slot>) {
    && Layered(t, tree) && IsStack(t, tree, stk)
    && ptr.Keys == tree.Keys && last.Keys == tree.Keys
    && CursorsInside(tree, CursorMap(tree, ptr, last))
    && (forall s <- tree :: ptr[s] == 0 || ptr[s] in tree[s])
    && (forall i | 0 <= i < |stk| - 1 :: last[stk[i]] == 0 && ptr[stk[i]] == stk[i + 1].cls)
  }

  lemma StackIsDistinct(t: Topology, tree: Trees, stk: seq<Slot>, i: nat)
    requires Layered(t, tree) && IsStack(t, tree, stk) && i < |stk| - 1
    ensures Height(t, stk[|stk| - 1]) < Height(t, stk[i])
    decreases |stk| - i
  {
    assert stk[i + 1].cls in tree[stk[i]];
    if i + 1 < |stk| - 1 {
      StackIsDistinct(t, tree, stk, i + 1);
    }
  }

  /** Recovering the pointer of the top tree from the remembered identifier changes no cursor. */
  lemma RecoverKeepsCursors(t: Topology, tree: Trees, ptr: Cursors, last: Cursors, stk: seq<Slot>, ptr': Cursors, last': Cursors)
    requires Walking(t, tree, ptr, last, stk)
    requires var s := stk[|stk| - 1];
             ptr' == ptr[s := Cursor(tree[s], ptr[s], last[s])] && last' == last[s := 0]
    ensures Walking(t, tree, ptr', last', stk)
    ensures CursorMap(tree, ptr', last') == CursorMap(tree, ptr, last)
  {
    var s := stk[|stk| - 1];
    assert CursorMap(tree, ptr', last') == CursorMap(tree, ptr, last);
    forall i | 0 <= i < |stk| - 1 ensures last'[stk[i]] == 0 && ptr'[stk[i]] == stk[i + 1].cls {
      StackIsDistinct(t, tree, stk, i);
    }
  }

  /** Descending. */
  lemma WalkDown(t: Topology, tree: Trees, ptr: Cursors, last: Cursors, stk: seq<Slot>, stk': seq<Slot>)
    requires Walking(t, tree, ptr, last, stk)
    requires var s := stk[|stk| - 1];
             last[s] == 0 && ptr[s] != 0 && t[ptr[s]].level > 0 && stk' == stk + [Feed(ptr[s], s.prio)]
    ensures Walking(t, tree, ptr, last, stk')
    ensures Resume(t, tree, CursorMap(tree, ptr, last), stk') == Resume(t, tree, CursorMap(tree, ptr, last), stk)
    ensures Height(t, stk'[|stk'| - 1]) < Height(t, stk[|stk| - 1])
  {
    var s := stk[|stk| - 1];
    PushIsStack(t, tree, stk, ptr[s]);
    ResumePush(t, tree, CursorMap(tree, ptr, last), stk, stk', ptr[s]);
  }

  lemma UpCursors(tree: Trees, ptr: Cursors, last: Cursors, s: Slot, u: Slot, ptr': Cursors)
    requires ptr.Keys == tree.Keys && last.Keys == tree.Keys && s in tree && u in tree && s != u
    requires last[s] == 0 && last[u] == 0
    requires ptr' == ptr[s := Least(tree[s])][u := NextAbove(tree[u], ptr[u])]
    ensures CursorMap(tree, ptr', last)
            == CursorMap(tree, ptr, last)[s := Least(tree[s])][u := NextAbove(tree[u], ptr[u])]
  {
  }

  lemma UpStack(t: Topology, tree: Trees, ptr: Cursors, last: Cursors, stk: seq<Slot>, ptr': Cursors)
    requires Walking(t, tree, ptr, last, stk) && |stk| > 1
    requires ptr'.Keys == ptr.Keys
    requires forall z | z in tree && z != stk[|stk| - 1] && z != stk[|stk| - 2] :: ptr'[z] == ptr[z]
    ensures forall i | 0 <= i < |stk| - 2 :: last[stk[i]] == 0 && ptr'[stk[i]] == stk[i + 1].cls
  {
    forall i | 0 <= i < |stk| - 2 ensures last[stk[i]] == 0 && ptr'[stk[i]] == stk[i + 1].cls {
      StackIsDistinct(t, tree, stk, i);
      StackIsDistinct(t, tree, stk[..|stk| - 1], i);
    }
  }

  /** Rewinding the top tree, going up and moving on. */
  lemma WalkUp(t: Topology, tree: Trees, ptr: Cursors, last: Cursors, stk: seq<Slot>, ptr': Cursors)
    requires Walking(t, tree, ptr, last, stk) && |stk| > 1
    requires last[stk[|stk| - 1]] == 0 && ptr[stk[|stk| - 1]] == 0
    requires var s, u := stk[|stk| - 1], stk[|stk| - 2];
             ptr' == ptr[s := Least(tree[s])][u := NextAbove(tree[u], ptr[u])]
    ensures Walking(t, tree, ptr', last, stk[..|stk| - 1])
    ensures Resume(t, tree, CursorMap(tree, ptr', last), stk[..|stk| - 1])
            == Resume(t, tree, CursorMap(tree, ptr, last), stk)
  {
    var s, u := stk[|stk| - 1], stk[|stk| - 2];
    StackIsDistinct(t, tree, stk, |stk| - 2);
    UpCursors(tree, ptr, last, s, u, ptr');
    ResumePop(t, tree, CursorMap(tree, ptr, last), stk);
    UpWalks(t, tree, ptr, last, stk, ptr');
  }

  lemma UpWalks(t: Topology, tree: Trees, ptr: Cursors, last: Cursors, stk: seq<Slot>, ptr': Cursors)
    requires Walking(t, tree, ptr, last, stk) && |stk| > 1
    requires last[stk[|stk| - 1]] == 0 && ptr[stk[|stk| - 1]] == 0
    requires var s, u := stk[|stk| - 1], stk[|stk| - 2];
             ptr' == ptr[s := Least(tree[s])][u := NextAbove(tree[u], ptr[u])]
    ensures Walking(t, tree, ptr', last, stk[..|stk| - 1])
  {
    hide Layered, CursorMap, CursorsInside;
    StackIsDistinct(t, tree, stk, |stk| - 2);
    UpStack(t, tree, ptr, last, stk, ptr');
    UpInside(tree, ptr, last, stk[|stk| - 1], stk[|stk| - 2], ptr');
    ShorterStack(t, tree, stk);
  }

  lemma UpInside(tree: Trees, ptr: Cursors, last: Cursors, s: Slot, u: Slot, ptr': Cursors)
    requires ptr.Keys == tree.Keys && last.Keys == tree.Keys && s in tree && u in tree && s != u
    requires last[s] == 0 && last[u] == 0 && ptr' == ptr[s := Least(tree[s])][u := NextAbove(tree[u], ptr[u])]
    requires CursorsInside(tree, CursorMap(tree, ptr, last)) && forall z <- tree :: ptr[z] == 0 || ptr[z] in tree[z]
    ensures CursorsInside(tree, CursorMap(tree, ptr', last)) && forall z <- tree :: ptr'[z] == 0 || ptr'[z] in tree[z]
  {
    UpCursors(tree, ptr, last, s, u, ptr');
  }

  lemma ShorterStack(t: Topology, tree: Trees, stk: seq<Slot>)
    requires IsStack(t, tree, stk) && |stk| > 1
    ensures IsStack(t, tree, stk[..|stk| - 1])
  {
  }

  // ---------- the search, step by step ----------

  /** The walk under way: saved pointers, remembered identifiers and the stack of trees. */
  datatype Config = Config(ptr: Cursors, last: Cursors, stk: seq<Slot>)

  ghost predicate Walks(t: Topology, tree: Trees, x: Config) {
    Walking(t, tree, x.ptr, x.last, x.stk) && tree[x.stk[0]] != {}
  }

  ghost function Top(x: Config): Slot
    requires |x.stk| > 0
  {
    x.stk[|x.stk| - 1]
  }

  ghost function Here(t: Topology, tree: Trees, x: Config): Id
    requires Walks(t, tree, x)
  {
    Cursor(tree[Top(x)], x.ptr[Top(x)], x.last[Top(x)])
  }

  /** One round of the search loop that does not end it: past the end of the top tree, rewind it
      and move on above (or start the row again); at an inner class, descend into its feed. */
  ghost predicate IsStep(t: Topology, tree: Trees, x: Config, y: Config)
    requires Walks(t, tree, x)
  {
    var s, c := Top(x), Here(t, tree, x);
    && y.last == x.last[s := 0]
    && if c == 0 && |x.stk| > 1 then
         var u := x.stk[|x.stk| - 2];
         y.stk == x.stk[..|x.stk| - 1] && y.ptr == x.ptr[s := Least(tree[s])][u := NextAbove(tree[u], x.ptr[u])]
       else if c == 0 then
         y.stk == x.stk && y.ptr == x.ptr[s := Least(tree[s])]
       else
         t[c].level > 0 && y.stk == x.stk + [Feed(c, s.prio)] && y.ptr == x.ptr[s := c]
  }

  /** The configuration after the pointer of the top tree was recovered. */
  ghost function Recovered(t: Topology, tree: Trees, x: Config): (r: Config)
    requires Walks(t, tree, x)
  {
    Config(x.ptr[Top(x) := Here(t, tree, x)], x.last[Top(x) := 0], x.stk)
  }

  lemma RecoveredWalks(t: Topology, tree: Trees, x: Config)
    requires Walks(t, tree, x)
    ensures Walks(t, tree, Recovered(t, tree, x))
    ensures CursorMap(tree, Recovered(t, tree, x).ptr, Recovered(t, tree, x).last) == CursorMap(tree, x.ptr, x.last)
  {
    var y := Recovered(t, tree, x);
    RecoverKeepsCursors(t, tree, x.ptr, x.last, x.stk, y.ptr, y.last);
  }

  /** The measure of the walk: exhausted trees, counted from the lowest height up. */
  ghost predicate Progress(t: Topology, cur: Cursors, cur': Cursors, h: nat) {
    && |Exhausted(t, cur', h)| < |Exhausted(t, cur, h)|
    && forall g: nat | g < h :: |Exhausted(t, cur', g)| == |Exhausted(t, cur, g)|
  }

  ghost function Finishes(t: Topology, tree: Trees, x: Config): Found
    requires Walks(t, tree, x)
  {
    Resume(t, tree, CursorMap(tree, x.ptr, x.last), x.stk)
  }

  lemma StepDown(t: Topology, tree: Trees, x: Config, y: Config)
    requires Walks(t, tree, x) && IsStep(t, tree, x, y) && Here(t, tree, x) != 0
    ensures Walks(t, tree, y) && y.stk[0] == x.stk[0]
    ensures CursorMap(tree, y.ptr, y.last) == CursorMap(tree, x.ptr, x.last)
    ensures Height(t, Top(y)) < Height(t, Top(x))
    ensures Finishes(t, tree, y) == Finishes(t, tree, x)
  {
    RecoveredWalks(t, tree, x);
    WalkDown(t, tree, y.ptr, y.last, x.stk, y.stk);
  }

  lemma SetTwice(ptr: Cursors, s: Slot, a: Id, b: Id)
    ensures ptr[s := a][s := b] == ptr[s := b]
  {
  }

  lemma StepUp(t: Topology, tree: Trees, x: Config, y: Config)
    requires Walks(t, tree, x) && IsStep(t, tree, x, y) && Here(t, tree, x) == 0 && |x.stk| > 1
    ensures Walks(t, tree, y) && y.stk[0] == x.stk[0]
    ensures Progress(t, CursorMap(tree, x.ptr, x.last), CursorMap(tree, y.ptr, y.last), Height(t, Top(x)))
    ensures Finishes(t, tree, y) == Finishes(t, tree, x)
  {
    hide Progress, Layered, CursorsInside, Resume;
    var r := Recovered(t, tree, x);
    RecoveredWalks(t, tree, x);
    StackIsDistinct(t, tree, x.stk, |x.stk| - 2);
    var s, u := Top(x), x.stk[|x.stk| - 2];
    SetTwice(x.ptr, s, 0, Least(tree[s]));
    WalkUp(t, tree, r.ptr, r.last, x.stk, y.ptr);
    UpMakesProgress(t, tree, r.ptr, r.last, x.stk, y.ptr);
  }

  lemma UpMakesProgress(t: Topology, tree: Trees, ptr: Cursors, last: Cursors, stk: seq<Slot>, ptr': Cursors)
    requires Walking(t, tree, ptr, last, stk) && |stk| > 1
    requires last[stk[|stk| - 1]] == 0 && ptr[stk[|stk| - 1]] == 0
    requires var s, u := stk[|stk| - 1], stk[|stk| - 2];
             ptr' == ptr[s := Least(tree[s])][u := NextAbove(tree[u], ptr[u])]
    ensures Progress(t, CursorMap(tree, ptr, last), CursorMap(tree, ptr', last), Height(t, stk[|stk| - 1]))
  {
    var s, u := stk[|stk| - 1], stk[|stk| - 2];
    StackIsDistinct(t, tree, stk, |stk| - 2);
    UpCursors(tree, ptr, last, s, u, ptr');
    FeedsAreNotEmpty(t, tree, stk);
    RewindShrinks(t, CursorMap(tree, ptr, last), s, Least(tree[s]), CursorMap(tree, ptr', last));
  }

  lemma FeedsAreNotEmpty(t: Topology, tree: Trees, stk: seq<Slot>)
    requires Layered(t, tree) && IsStack(t, tree, stk) && |stk| > 1
    ensures tree[stk[|stk| - 1]] != {} && 0 !in tree[stk[|stk| - 1]]
  {
    var s := stk[|stk| - 1];
    assert s.cls in tree[stk[|stk| - 2]];
    assert t[s.cls].level > 0 && s == Feed(s.cls, s.prio);
  }

  lemma WrapCursors(tree: Trees, ptr: Cursors, last: Cursors, s: Slot, ptr': Cursors, last': Cursors)
    requires ptr.Keys == tree.Keys && last.Keys == tree.Keys && s in tree
    requires ptr' == ptr[s := Least(tree[s])] && last' == last[s := 0]
    ensures CursorMap(tree, ptr', last') == CursorMap(tree, ptr, last)[s := Least(tree[s])]
  {
  }

  lemma StepWrap(t: Topology, tree: Trees, x: Config, y: Config)
    requires Walks(t, tree, x) && IsStep(t, tree, x, y) && Here(t, tree, x) == 0 && |x.stk| == 1
    ensures Walks(t, tree, y) && y.stk == x.stk
    ensures CursorMap(tree, y.ptr, y.last) == CursorMap(tree, x.ptr, x.last)[Top(x) := Least(tree[Top(x)])]
    ensures Progress(t, CursorMap(tree, x.ptr, x.last), CursorMap(tree, y.ptr, y.last), Height(t, Top(x)))
  {
    WrapCursors(tree, x.ptr, x.last, Top(x), y.ptr, y.last);
    RewindShrinks(t, CursorMap(tree, x.ptr, x.last), Top(x), Least(tree[Top(x)]), CursorMap(tree, y.ptr, y.last));
  }

  /** Every step keeps the walk in order and makes progress. */
  lemma StepAdvances(t: Topology, tree: Trees, x: Config, y: Config)
    requires Walks(t, tree, x) && IsStep(t, tree, x, y)
    ensures Walks(t, tree, y) && y.stk[0] == x.stk[0]
    ensures var cur, cur' := CursorMap(tree, x.ptr, x.last), CursorMap(tree, y.ptr, y.last);
            || Progress(t, cur, cur', Height(t, Top(x)))
            || (cur' == cur && Height(t, Top(y)) < Height(t, Top(x)))
  {
    if Here(t, tree, x) != 0 {
      StepDown(t, tree, x, y);
    } else if |x.stk| > 1 {
      StepUp(t, tree, x, y);
    } else {
      StepWrap(t, tree, x, y);
    }
  }

  ghost function Left(t: Topology, tree: Trees, x: Config, h: nat): nat {
    if x.ptr.Keys == tree.Keys && x.last.Keys == tree.Keys then |Exhausted(t, CursorMap(tree, x.ptr, x.last), h)| else 0
  }

  ghost function TopHeight(t: Topology, x: Config): nat {
    if |x.stk| > 0 then Height(t, Top(x)) else 0
  }

  /** The lexicographic order by which the search terminates. */
  ghost predicate Closer(t: Topology, tree: Trees, x: Config, y: Config) {
    Left(t, tree, y, 1) < Left(t, tree, x, 1) || (Left(t, tree, y, 1) == Left(t, tree, x, 1) && (
    Left(t, tree, y, 2) < Left(t, tree, x, 2) || (Left(t, tree, y, 2) == Left(t, tree, x, 2) && (
    Left(t, tree, y, 3) < Left(t, tree, x, 3) || (Left(t, tree, y, 3) == Left(t, tree, x, 3) && (
    Left(t, tree, y, 4) < Left(t, tree, x, 4) || (Left(t, tree, y, 4) == Left(t, tree, x, 4) && (
    Left(t, tree, y, 5) < Left(t, tree, x, 5) || (Left(t, tree, y, 5) == Left(t, tree, x, 5) && (
    Left(t, tree, y, 6) < Left(t, tree, x, 6) || (Left(t, tree, y, 6) == Left(t, tree, x, 6) && (
    Left(t, tree, y, 7) < Left(t, tree, x, 7) || (Left(t, tree, y, 7) == Left(t, tree, x, 7) && (
    Left(t, tree, y, 8) < Left(t, tree, x, 8) || (Left(t, tree, y, 8) == Left(t, tree, x, 8) && (
    TopHeight(t, y) < TopHeight(t, x) ))))))))))))))))
  }

  lemma ProgressIsCloser(t: Topology, tree: Trees, x: Config, y: Config, h: nat)
    requires Walks(t, tree, x) && Walks(t, tree, y) && 1 <= h <= 8
    requires Left(t, tree, y, h) < Left(t, tree, x, h)
    requires forall g: nat | g < h :: Left(t, tree, y, g) == Left(t, tree, x, g)
    ensures Closer(t, tree, x, y)
  {
    hide Left;
    if h <= 4 {
    } else {
      assert Left(t, tree, y, 1) == Left(t, tree, x, 1) && Left(t, tree, y, 2) == Left(t, tree, x, 2);
      assert Left(t, tree, y, 3) == Left(t, tree, x, 3) && Left(t, tree, y, 4) == Left(t, tree, x, 4);
    }
  }

  /** Every step brings the search closer to its end. */
  lemma StepIsCloser(t: Topology, tree: Trees, x: Config, y: Config)
    requires Walks(t, tree, x) && IsStep(t, tree, x, y) && Height(t, x.stk[0]) <= MAXDEPTH
    ensures Walks(t, tree, y) && y.stk[0] == x.stk[0] && Closer(t, tree, x, y)
  {
    StepAdvances(t, tree, x, y);
    StackIsShallow(t, tree, x.stk);
    var h := Height(t, Top(x));
    if Progress(t, CursorMap(tree, x.ptr, x.last), CursorMap(tree, y.ptr, y.last), h) {
      ProgressIsCloser(t, tree, x, y, h);
    }
  }

  // ---------- the search as a whole ----------

  ghost predicate Leads(t: Topology, tree: Trees, x: Config, y: Config) {
    Walks(t, tree, x) && Walks(t, tree, y) && IsStep(t, tree, x, y)
  }

  ghost predicate IsTrace(t: Topology, tree: Trees, trace: seq<Config>) {
    && |trace| > 0
    && Walks(t, tree, trace[0]) && Walks(t, tree, trace[|trace| - 1])
    && (forall i, j | 0 <= i < j < |trace| && j == i + 1 :: Leads(t, tree, trace[i], trace[j]))
  }

  /** After `n` walks off the end of row `s`, finishing configuration `x` finishes the next one. */
  ghost predicate Searching(t: Topology, tree: Trees, cur0: Cursors, s: Slot, x: Config, n: nat) {
    && Walks(t, tree, x) && x.stk[0] == s && CursorsInside(tree, cur0)
    && (forall i: nat | i < n ::
          var w := Rewound(t, tree, cur0, s, i); Sweep(t, tree, w, s, w[s]).leaf == 0)
    && (var w := Rewound(t, tree, cur0, s, n); Finishes(t, tree, x) == Sweep(t, tree, w, s, w[s]))
  }

  lemma WrapCounts(t: Topology, tree: Trees, cur0: Cursors, s: Slot, x: Config, y: Config, n: nat)
    requires Searching(t, tree, cur0, s, x, n)
    requires IsStep(t, tree, x, y) && Here(t, tree, x) == 0 && |x.stk| == 1
    ensures Rewound(t, tree, cur0, s, n + 1) == CursorMap(tree, y.ptr, y.last)
    ensures var w := Rewound(t, tree, cur0, s, n); Sweep(t, tree, w, s, w[s]).leaf == 0
  {
    StepWrap(t, tree, x, y);
    assert Finishes(t, tree, x) == Found(0, CursorMap(tree, y.ptr, y.last));
  }

  lemma FinishesAlone(t: Topology, tree: Trees, y: Config)
    requires Walks(t, tree, y) && |y.stk| == 1
    ensures var cur := CursorMap(tree, y.ptr, y.last);
            Finishes(t, tree, y) == Sweep(t, tree, cur, y.stk[0], cur[y.stk[0]])
  {
  }

  lemma SearchGoesOn(t: Topology, tree: Trees, cur0: Cursors, s: Slot, x: Config, y: Config, n: nat)
    requires Searching(t, tree, cur0, s, x, n)
    requires Walks(t, tree, y) && y.stk[0] == x.stk[0] && Finishes(t, tree, y) == Finishes(t, tree, x)
    ensures Searching(t, tree, cur0, s, y, n)
  {
  }

  lemma SearchStartsAgain(t: Topology, tree: Trees, cur0: Cursors, s: Slot, x: Config, y: Config, n: nat)
    requires Searching(t, tree, cur0, s, x, n)
    requires Walks(t, tree, y) && y.stk == [s]
    requires Rewound(t, tree, cur0, s, n + 1) == CursorMap(tree, y.ptr, y.last)
    requires var w := Rewound(t, tree, cur0, s, n); Sweep(t, tree, w, s, w[s]).leaf == 0
    requires var cur := CursorMap(tree, y.ptr, y.last); Finishes(t, tree, y) == Sweep(t, tree, cur, s, cur[s])
    ensures Searching(t, tree, cur0, s, y, n + 1)
  {
    forall i: nat | i < n + 1
      ensures var w := Rewound(t, tree, cur0, s, i); Sweep(t, tree, w, s, w[s]).leaf == 0
    {
    }
  }

  lemma StepKeepsFinish(t: Topology, tree: Trees, x: Config, y: Config)
    requires Walks(t, tree, x) && IsStep(t, tree, x, y) && (Here(t, tree, x) != 0 || |x.stk| > 1)
    ensures Walks(t, tree, y) && y.stk[0] == x.stk[0] && Finishes(t, tree, y) == Finishes(t, tree, x)
  {
    if Here(t, tree, x) != 0 {
      StepDown(t, tree, x, y);
    } else {
      StepUp(t, tree, x, y);
    }
  }

  lemma SearchComesAround(t: Topology, tree: Trees, cur0: Cursors, s: Slot, x: Config, y: Config, n: nat)
    requires Searching(t, tree, cur0, s, x, n) && IsStep(t, tree, x, y)
    requires Here(t, tree, x) == 0 && |x.stk| == 1
    ensures Searching(t, tree, cur0, s, y, n + 1)
  {
    assert x.stk == [s];
    assert Walks(t, tree, y) && y.stk == [s] by { StepWrap(t, tree, x, y); }
    WrapCounts(t, tree, cur0, s, x, y, n);
    FinishesAlone(t, tree, y);
    SearchStartsAgain(t, tree, cur0, s, x, y, n);
  }

  lemma SearchSteps(t: Topology, tree: Trees, cur0: Cursors, s: Slot, x: Config, y: Config, n: nat) returns (n': nat)
    requires Searching(t, tree, cur0, s, x, n) && IsStep(t, tree, x, y)
    ensures Searching(t, tree, cur0, s, y, n')
  {
    if Here(t, tree, x) != 0 || |x.stk| > 1 {
      n' := n;
      StepKeepsFinish(t, tree, x, y);
      SearchGoesOn(t, tree, cur0, s, x, y, n);
    } else {
      n' := n + 1;
      SearchComesAround(t, tree, cur0, s, x, y, n);
    }
  }

  lemma TraceGrows(t: Topology, tree: Trees, trace: seq<Config>, y: Config)
    requires IsTrace(t, tree, trace) && Leads(t, tree, trace[|trace| - 1], y) && Walks(t, tree, y)
    ensures IsTrace(t, tree, trace + [y])
  {
    hide Leads, Walks;
    var trace' := trace + [y];
    forall i, j | 0 <= i < j < |trace'| && j == i + 1 ensures Leads(t, tree, trace'[i], trace'[j]) {
      assert trace'[i] == trace[i];
      assert j < |trace| ==> trace'[j] == trace[j];
    }
  }

  lemma TraceEnds(t: Topology, tree: Trees, trace: seq<Config>)
    requires IsTrace(t, tree, trace)
    ensures var x := trace[|trace| - 1];
            && Walks(t, tree, x) && |x.stk| > 0 && Top(x) in tree && x.ptr.Keys == tree.Keys && x.last.Keys == tree.Keys
            && (Here(t, tree, x) == 0 || Here(t, tree, x) in t)
            && (Height(t, x.stk[0]) <= MAXDEPTH ==> |x.stk| <= MAXDEPTH)
  {
    var x := trace[|trace| - 1];
    if Height(t, x.stk[0]) <= MAXDEPTH {
      StackIsShallow(t, tree, x.stk);
    }
  }

  /** One more step of a search is a longer trace and a smaller measure. */
  lemma TraceStep(t: Topology, tree: Trees, trace: seq<Config>, y: Config)
    requires IsTrace(t, tree, trace) && IsStep(t, tree, trace[|trace| - 1], y) && Height(t, trace[|trace| - 1].stk[0]) <= MAXDEPTH
    ensures IsTrace(t, tree, trace + [y]) && Closer(t, tree, trace[|trace| - 1], y)
    ensures Walks(t, tree, y) && |y.stk| > 0 && y.stk[0] == trace[|trace| - 1].stk[0]
  {
    hide Closer, IsStep;
    StepIsCloser(t, tree, trace[|trace| - 1], y);
    TraceGrows(t, tree, trace, y);
  }

  lemma OneStepTrace(t: Topology, tree: Trees, x: Config)
    requires Walks(t, tree, x)
    ensures IsTrace(t, tree, [x])
  {
  }

  lemma ShorterTrace(t: Topology, tree: Trees, trace: seq<Config>) returns (shorter: seq<Config>)
    requires IsTrace(t, tree, trace) && |trace| > 1
    ensures shorter == trace[..|trace| - 1] && IsTrace(t, tree, shorter)
    ensures Leads(t, tree, trace[|trace| - 2], trace[|trace| - 1])
  {
    shorter := trace[..|trace| - 1];
    assert Leads(t, tree, trace[|trace| - 2], trace[|trace| - 1]);
    forall i, j | 0 <= i < j < |shorter| && j == i + 1 ensures Leads(t, tree, shorter[i], shorter[j]) {
      assert Leads(t, tree, trace[i], trace[j]);
    }
  }

  /** A trace of the search stays on the walk it started. */
  lemma {:induction false} TraceSearches(t: Topology, tree: Trees, s: Slot, trace: seq<Config>) returns (n: nat)
    requires IsTrace(t, tree, trace) && trace[0].stk == [s]
    ensures Searching(t, tree, CursorMap(tree, trace[0].ptr, trace[0].last), s, trace[|trace| - 1], n)
    decreases |trace|
  {
    if |trace| == 1 {
      FinishesAlone(t, tree, trace[0]);
      n := 0;
    } else {
      var shorter := ShorterTrace(t, tree, trace);
      var m := TraceSearches(t, tree, s, shorter);
      n := SearchSteps(t, tree, CursorMap(tree, trace[0].ptr, trace[0].last), s, trace[|trace| - 2], trace[|trace| - 1], m);
    }
  }

  lemma SweepEnds(t: Topology, tree: Trees, x: Config)
    requires Walks(t, tree, x) && x.last[Top(x)] == 0 && x.ptr[Top(x)] != 0 && t[x.ptr[Top(x)]].level == 0
    ensures Finishes(t, tree, x) == Found(x.ptr[Top(x)], CursorMap(tree, x.ptr, x.last))
  {
    var cur: Cursors := CursorMap(tree, x.ptr, x.last);
    assert cur[Top(x)] == x.ptr[Top(x)];
    assert cur[Top(x) := x.ptr[Top(x)]] == cur;
  }

  /** What a search that ends at a leaf has found. */
  lemma TraceFinds(t: Topology, tree: Trees, s: Slot, trace: seq<Config>, x: Config)
    requires IsTrace(t, tree, trace) && trace[0].stk == [s]
    requires x == Recovered(t, tree, trace[|trace| - 1])
    requires Here(t, tree, trace[|trace| - 1]) != 0 && t[Here(t, tree, trace[|trace| - 1])].level == 0
    ensures CursorsInside(tree, CursorMap(tree, trace[0].ptr, trace[0].last))
    ensures exists n: nat :: FoundAfter(t, tree, CursorMap(tree, trace[0].ptr, trace[0].last), s, n,
                                        Found(x.ptr[Top(x)], CursorMap(tree, x.ptr, x.last)))
  {
    var n := TraceSearches(t, tree, s, trace);
    RecoveredWalks(t, tree, trace[|trace| - 1]);
    SweepEnds(t, tree, x);
    assert Finishes(t, tree, x) == Finishes(t, tree, trace[|trace| - 1]);
    assert FoundAfter(t, tree, CursorMap(tree, trace[0].ptr, trace[0].last), s, n,
                      Found(x.ptr[Top(x)], CursorMap(tree, x.ptr, x.last)));
  }

  lemma InvWalks(t: Topology, k: Links, s: Slot)
    requires LinkInv(t, k) && s in k.tree && Height(t, s) > 0 && k.tree[s] != {}
    ensures Walks(t, k.tree, Config(k.ptr, k.last, [s]))
  {
    InvIsLayered(t, k);
    CursorsAreInside(t, k);
  }

  /** The tree whose pointer selects leaf `c` when it is served from `level`. */
  function Home(t: Topology, c: Id, level: nat, prio: nat): Slot {
    if level > 0 && c in t then Feed(t[c].parent, prio) else Row(0, prio)
  }

  /** The pointer of tree `s` is at its member `c`. */
  predicate AtCursor(t: Topology, k: Links, s: Slot, c: Id) {
    s in k.tree && c in k.tree[s] && s in k.ptr && s in k.last && k.ptr[s] == c && k.last[s] == 0
  }

  /** `c` is an active leaf, selected by its tree's pointer, that may be served from `level`. */
  ghost predicate Serving(t: Topology, k: Links, level: nat, prio: nat, c: Id) {
    && WellFormed(t) && k.mode.Keys == t.Keys && k.act.Keys == t.Keys
    && c in t && t[c].level == 0 && prio in k.act[c]
    && Lender(t, k.mode, c) != 0 && t[Lender(t, k.mode, c)].level == level
    && AtCursor(t, k, Home(t, c, level, prio), c)
  }

  lemma StackServes(t: Topology, k: Links, stk: seq<Slot>, c: Id)
    requires LinkInv(t, k) && IsStack(t, k.tree, stk) && stk[0].Row? && c in k.tree[stk[|stk| - 1]]
    requires c in t && t[c].level == 0 && k.ptr[stk[|stk| - 1]] == c && k.last[stk[|stk| - 1]] == 0
    ensures Serving(t, k, stk[0].level, stk[0].prio, c)
  {
    StackHasLender(t, k, stk, c);
    LeafHome(t, k, stk, c);
  }

  ghost predicate OnlyIn(tree: Trees, s: Slot, c: Id) {
    forall u | u in tree && u != s :: c !in tree[u]
  }

  /** What serving the selected leaf relies on: it may send or borrow, and can send itself when
      served from level 0. */
  ghost predicate Selected(t: Topology, k: Links, level: nat, prio: nat, c: Id) {
    && c in t && c != 0 && t[c].level == 0 && c in k.act && k.act[c] != {} && c in k.mode
    && k.mode[c] != CantSend && (level == 0 ==> k.mode[c] == CanSend)
    && AtCursor(t, k, Home(t, c, level, prio), c) && OnlyIn(k.tree, Home(t, c, level, prio), c)
  }

  /** A leaf is in one tree at most. */
  lemma InOneTree(t: Topology, k: Links, s: Slot, c: Id)
    requires LinkInv(t, k) && c in t && t[c].level == 0 && s in k.tree && c in k.tree[s]
    ensures OnlyIn(k.tree, s, c)
  {
    assert k.act[c] <= {t[c].prio};
    assert Belongs(t, k.mode, k.act, s, c);
    forall u | u in k.tree && u != s ensures c !in k.tree[u] {
      assert !Belongs(t, k.mode, k.act, u, c);
    }
  }

  lemma ServingIsSelected(t: Topology, k: Links, level: nat, prio: nat, c: Id)
    requires LinkInv(t, k) && Serving(t, k, level, prio, c)
    ensures Selected(t, k, level, prio, c)
  {
    LenderStep(t, k.mode, c);
    LenderIsAbove(t, k.mode, c);
    InOneTree(t, k, Home(t, c, level, prio), c);
  }

  lemma AdvanceIsFree(t: Topology, k: Links, s: Slot)
    requires LinkInv(t, k) && s in k.tree
    ensures LinkInv(t, k.(ptr := k.ptr[s := NextAbove(k.tree[s], k.ptr[s])]))
  {
    PointersAreFree(t, k, k.(ptr := k.ptr[s := NextAbove(k.tree[s], k.ptr[s])]));
  }
}
