/** Deep packet inspection: the pattern registry, and the buffers of a flow. */
module FwDpi {
  import opened Options

  type Bytes = seq<bv8>

  /** A compiled signature, as the predicate it decides. */
  type Matcher = Bytes -> bool

  datatype Pattern = Pattern(name: string, compiled: Matcher, enabled: bool, builtin: bool)

  const MAX_BUFFER: nat := 8192
  const MAX_PATTERN_LEN: nat := 512
  const MAX_NAME_LEN: nat := 64
  const MAX_USER_PATTERNS: nat := 50

  predicate Hits(p: Pattern, data: Bytes) {
    p.enabled && p.compiled(data)
  }

  /** Some enabled pattern matches the bytes; no bytes never match. */
  predicate Flagged(ps: seq<Pattern>, data: Bytes) {
    data != [] && exists i :: 0 <= i < |ps| && Hits(ps[i], data)
  }

  // ---------- the registry ----------

  /** A request for a new pattern; `compiled` is None if the expression does not compile. */
  datatype PatternRequest = PatternRequest(name: string, length: nat, blank: bool, dangerous: bool, compiled: Option<Matcher>)

  predicate NameChar(c: char) {
    'A' <= c <= 'Z' || 'a' <= c <= 'z' || '0' <= c <= '9' || c == '_' || c == '-'
  }

  predicate ValidName(name: string) {
    0 < |name| <= MAX_NAME_LEN && forall i | 0 <= i < |name| :: NameChar(name[i])
  }

  predicate Named(ps: seq<Pattern>, name: string) {
    exists i :: 0 <= i < |ps| && ps[i].name == name
  }

  function UserCount(ps: seq<Pattern>): nat {
    if ps == [] then 0 else UserCount(ps[..|ps| - 1]) + if ps[|ps| - 1].builtin then 0 else 1
  }

  predicate Acceptable(ps: seq<Pattern>, req: PatternRequest) {
    && ValidName(req.name) && !Named(ps, req.name)
    && !req.blank && req.length <= MAX_PATTERN_LEN && !req.dangerous
    && UserCount(ps) < MAX_USER_PATTERNS && req.compiled.Some?
  }

  /** The registry without the patterns of that name. */
  function Unnamed(ps: seq<Pattern>, name: string): seq<Pattern> {
    if ps == [] then []
    else
      var rest := Unnamed(ps[..|ps| - 1], name);
      if ps[|ps| - 1].name == name then rest else rest + [ps[|ps| - 1]]
  }

  ghost predicate Among(qs: seq<Pattern>, ps: seq<Pattern>) {
    forall i | 0 <= i < |qs| :: qs[i] in ps
  }

  /** Removing a name removes exactly the patterns of that name. */
  lemma {:induction false} UnnamedRemoves(ps: seq<Pattern>, name: string)
    ensures Among(Unnamed(ps, name), ps) && !Named(Unnamed(ps, name), name)
    ensures forall i | 0 <= i < |ps| && ps[i].name != name :: ps[i] in Unnamed(ps, name)
  {
    if ps != [] {
      var before := ps[..|ps| - 1];
      UnnamedRemoves(before, name);
      assert ps == before + [ps[|ps| - 1]];
    }
  }

  ghost predicate DistinctNames(ps: seq<Pattern>) {
    forall i, j | 0 <= i < j < |ps| :: ps[i].name != ps[j].name
  }

  /** Names are unique, and users have at most their share of patterns. */
  ghost predicate RegistryInv(ps: seq<Pattern>) {
    DistinctNames(ps) && UserCount(ps) <= MAX_USER_PATTERNS
  }

  /** Fewer patterns flag less. */
  lemma FewerPatternsFlagLess(ps: seq<Pattern>, qs: seq<Pattern>, data: Bytes)
    requires Among(qs, ps) && Flagged(qs, data)
    ensures Flagged(ps, data)
  {
    var i :| 0 <= i < |qs| && Hits(qs[i], data);
    assert qs[i] in ps;
    var j :| 0 <= j < |ps| && ps[j] == qs[i];
    assert Hits(ps[j], data);
  }

  lemma {:induction false} UserCountUnnamed(ps: seq<Pattern>, name: string)
    ensures UserCount(Unnamed(ps, name)) <= UserCount(ps)
  {
    if ps != [] {
      var before := Unnamed(ps[..|ps| - 1], name);
      UserCountUnnamed(ps[..|ps| - 1], name);
      assert (before + [ps[|ps| - 1]])[..|before|] == before;
    }
  }

  lemma DistinctAppend(ps: seq<Pattern>, p: Pattern)
    requires DistinctNames(ps) && forall q | q in ps :: q.name != p.name
    ensures DistinctNames(ps + [p])
  {
    forall i, j | 0 <= i < j < |ps + [p]| ensures (ps + [p])[i].name != (ps + [p])[j].name {
      if j == |ps| {
        assert ps[i] in ps;
      }
    }
  }

  lemma {:induction false} UnnamedDistinct(ps: seq<Pattern>, name: string)
    requires DistinctNames(ps)
    ensures DistinctNames(Unnamed(ps, name))
  {
    if ps != [] {
      var before := ps[..|ps| - 1];
      UnnamedDistinct(before, name);
      UnnamedRemoves(before, name);
      if ps[|ps| - 1].name != name {
        forall q | q in Unnamed(before, name) ensures q.name != ps[|ps| - 1].name {
          assert q in before;
        }
        DistinctAppend(Unnamed(before, name), ps[|ps| - 1]);
      }
    }
  }

  lemma RemovalKeepsRegistry(ps: seq<Pattern>, name: string)
    requires RegistryInv(ps)
    ensures RegistryInv(Unnamed(ps, name)) && Among(Unnamed(ps, name), ps)
  {
    UserCountUnnamed(ps, name);
    UnnamedDistinct(ps, name);
    UnnamedRemoves(ps, name);
  }

  const BUILTIN_NAMES: seq<string> := ["SQL_INJECTION", "SHELLCODE_NOP_SLED", "XSS_SCRIPT_TAG", "PATH_TRAVERSAL", "CMD_INJECTION",
                                       "FTP_CLEARTEXT_CREDS"]

  /** The first `n` built-in patterns. */
  function Builtins(names: seq<string>, compiled: seq<Matcher>, n: nat): seq<Pattern>
    requires n <= |compiled| == |names|
  {
    if n == 0 then [] else Builtins(names, compiled, n - 1) + [Pattern(names[n - 1], compiled[n - 1], true, true)]
  }

  lemma BuiltinNamesDiffer(i: nat, j: nat)
    requires i < j < |BUILTIN_NAMES|
    ensures BUILTIN_NAMES[i] != BUILTIN_NAMES[j]
  {
    assert BUILTIN_NAMES[0][0] == 'S' && BUILTIN_NAMES[4][0] == 'C';
    assert BUILTIN_NAMES[2][0] == 'X' && BUILTIN_NAMES[3][0] == 'P';
    assert |BUILTIN_NAMES[0]| == 13 && |BUILTIN_NAMES[1]| == 18 && |BUILTIN_NAMES[2]| == 14;
    assert |BUILTIN_NAMES[3]| == 14 && |BUILTIN_NAMES[4]| == 13 && |BUILTIN_NAMES[5]| == 19;
  }

  lemma {:induction false} BuiltinsInOrder(names: seq<string>, compiled: seq<Matcher>, n: nat)
    requires n <= |compiled| == |names| && forall i, j | 0 <= i < j < |names| :: names[i] != names[j]
    ensures |Builtins(names, compiled, n)| == n && RegistryInv(Builtins(names, compiled, n))
    ensures UserCount(Builtins(names, compiled, n)) == 0
    ensures forall i | 0 <= i < n :: Builtins(names, compiled, n)[i].name == names[i]
  {
    if n > 0 {
      BuiltinsInOrder(names, compiled, n - 1);
      var before := Builtins(names, compiled, n - 1);
      assert Builtins(names, compiled, n)[..n - 1] == before;
      forall q | q in before ensures q.name != names[n - 1] {
        var i :| 0 <= i < |before| && before[i] == q;
        assert names[i] != names[n - 1];
      }
      DistinctAppend(before, Pattern(names[n - 1], compiled[n - 1], true, true));
    }
  }

  class DpiEngine {
    var patterns: seq<Pattern>

    /** An engine with the built-in signatures, given as compiled. */
    constructor (compiled: seq<Matcher>)
      requires |compiled| == |BUILTIN_NAMES|
      ensures patterns == Builtins(BUILTIN_NAMES, compiled, |compiled|) && RegistryInv(patterns)
    {
      patterns := [];
      new;
      Register(BUILTIN_NAMES, compiled);
      forall i, j | 0 <= i < j < |BUILTIN_NAMES| ensures BUILTIN_NAMES[i] != BUILTIN_NAMES[j] {
        BuiltinNamesDiffer(i, j);
      }
      BuiltinsInOrder(BUILTIN_NAMES, compiled, |compiled|);
    }

    method Register(names: seq<string>, compiled: seq<Matcher>)
      requires patterns == [] && |compiled| == |names|
      modifies this
      ensures patterns == Builtins(names, compiled, |compiled|)
    {
      for i := 0 to |compiled|
        invariant patterns == Builtins(names, compiled, i)
      {
        patterns := patterns + [Pattern(names[i], compiled[i], true, true)];
      }
    }

    /** The first enabled pattern that matches. */
    method Inspect(payload: Bytes) returns (r: Option<Pattern>)
      ensures r.Some? <==> Flagged(patterns, payload)
      ensures r.Some? ==> exists i :: 0 <= i < |patterns| && r.value == patterns[i] && Hits(patterns[i], payload)
                                      && forall j | 0 <= j < i :: !Hits(patterns[j], payload)
    {
      r := None;
      if payload == [] {
        return;
      }
      for i := 0 to |patterns|
        invariant forall j | 0 <= j < i :: !Hits(patterns[j], payload)
      {
        if !patterns[i].enabled {
          continue;
        }
        if patterns[i].compiled(payload) {
          assert Hits(patterns[i], payload);
          return Some(patterns[i]);
        }
      }
    }

    method CountUsers() returns (n: nat)
      ensures n == UserCount(patterns)
    {
      n := 0;
      for i := 0 to |patterns|
        invariant n == UserCount(patterns[..i])
      {
        assert patterns[..i + 1][..i] == patterns[..i];
        if !patterns[i].builtin {
          n := n + 1;
        }
      }
      assert patterns[..|patterns|] == patterns;
    }

    method HasName(name: string) returns (b: bool)
      ensures b <==> Named(patterns, name)
    {
      for i := 0 to |patterns|
        invariant forall j | 0 <= j < i :: patterns[j].name != name
      {
        if patterns[i].name == name {
          return true;
        }
      }
      b := false;
    }

    /** Registers a user's pattern if the request is acceptable. */
    method AddPattern(req: PatternRequest) returns (ok: bool)
      modifies this
      ensures RegistryInv(old(patterns)) ==> RegistryInv(patterns)
      ensures ok <==> Acceptable(old(patterns), req)
      ensures patterns == old(patterns) + if ok then [Pattern(req.name, req.compiled.value, true, false)] else []
    {
      var taken := HasName(req.name);
      var users := CountUsers();
      ok := ValidName(req.name) && !taken && !req.blank && req.length <= MAX_PATTERN_LEN && !req.dangerous
            && users < MAX_USER_PATTERNS && req.compiled.Some?;
      if ok {
        var p := Pattern(req.name, req.compiled.value, true, false);
        assert (patterns + [p])[..|patterns|] == patterns;
        patterns := patterns + [p];
      }
    }

    /** Removes a user's pattern; a built-in one or an unknown name changes nothing. */
    method RemovePattern(name: string) returns (removed: bool)
      modifies this
      ensures RegistryInv(old(patterns)) ==> RegistryInv(patterns)
      ensures removed <==> Removable(old(patterns), name)
      ensures patterns == if removed then Unnamed(old(patterns), name) else old(patterns)
    {
      removed := false;
      for i := 0 to |patterns|
        invariant forall j | 0 <= j < i :: patterns[j].name != name
      {
        if patterns[i].name == name {
          if patterns[i].builtin {
            return;
          }
          if RegistryInv(patterns) {
            RemovalKeepsRegistry(patterns, name);
          }
          patterns := Unnamed(patterns, name);
          return true;
        }
      }
    }
  }

  /** The first pattern of that name is a user's. */
  predicate Removable(ps: seq<Pattern>, name: string) {
    exists i :: 0 <= i < |ps| && ps[i].name == name && !ps[i].builtin && forall j | 0 <= j < i :: ps[j].name != name
  }

  // ---------- flows ----------

  datatype Entry = Entry(count: nat, installed: bool, bufA: Bytes, bufB: Bytes, blocked: bool)

  const NewEntry: Entry := Entry(0, false, [], [], false)

  /** The buffer after as much of the payload as fits. */
  function Filled(buf: Bytes, payload: Bytes): (r: Bytes)
    ensures |buf| <= MAX_BUFFER ==> |r| <= MAX_BUFFER
  {
    var room := MAX_BUFFER - |buf|;
    if room > 0 then buf + (if room < |payload| then payload[..room] else payload) else buf
  }

  /** The entry after a segment was inspected; `forward` segments come from the flow's first endpoint. */
  function Inspected(ps: seq<Pattern>, e: Entry, forward: bool, payload: Bytes): Entry {
    if e.blocked || payload == [] then e
    else
      var buf := Filled(if forward then e.bufA else e.bufB, payload);
      var e' := if forward then e.(bufA := buf) else e.(bufB := buf);
      e'.(blocked := Flagged(ps, buf))
  }

  /** Buffers are bounded, and those of an unblocked flow are clean. */
  predicate Clean(ps: seq<Pattern>, e: Entry) {
    && |e.bufA| <= MAX_BUFFER && |e.bufB| <= MAX_BUFFER
    && (!e.blocked ==> !Flagged(ps, e.bufA) && !Flagged(ps, e.bufB))
  }

  lemma InspectionKeepsClean(ps: seq<Pattern>, e: Entry, forward: bool, payload: Bytes)
    requires Clean(ps, e)
    ensures Clean(ps, Inspected(ps, e, forward, payload))
  {
  }

  lemma RemovalKeepsClean(ps: seq<Pattern>, qs: seq<Pattern>, e: Entry)
    requires Clean(ps, e) && Among(qs, ps)
    ensures Clean(qs, e)
  {
    if !e.blocked {
      if Flagged(qs, e.bufA) { FewerPatternsFlagLess(ps, qs, e.bufA); }
      if Flagged(qs, e.bufB) { FewerPatternsFlagLess(ps, qs, e.bufB); }
    }
  }

  // ---------- segmentation ----------

  datatype Segment = Segment(forward: bool, payload: Bytes)

  /** A flow's entry after the given segments, in order. */
  function AfterSegments(ps: seq<Pattern>, e: Entry, segs: seq<Segment>): Entry {
    if segs == [] then e
    else
      var last := segs[|segs| - 1];
      Inspected(ps, AfterSegments(ps, e, segs[..|segs| - 1]), last.forward, last.payload)
  }

  lemma AfterOneMore(ps: seq<Pattern>, e: Entry, segs: seq<Segment>, more: Segment)
    ensures AfterSegments(ps, e, segs + [more]) == Inspected(ps, AfterSegments(ps, e, segs), more.forward, more.payload)
  {
    assert (segs + [more])[..|segs|] == segs;
  }

  /** All bytes sent in one direction. */
  function Stream(segs: seq<Segment>, forward: bool): Bytes {
    if segs == [] then []
    else
      var last := segs[|segs| - 1];
      Stream(segs[..|segs| - 1], forward) + if last.forward == forward then last.payload else []
  }

  /** As much of a stream as is inspected. */
  function Head(data: Bytes): (r: Bytes)
    ensures |r| <= MAX_BUFFER
  {
    if |data| <= MAX_BUFFER then data else data[..MAX_BUFFER]
  }

  /** Within the inspected length, bytes that are flagged stay flagged when more follow. */
  ghost predicate ExtensionClosed(ps: seq<Pattern>) {
    forall x, y | Flagged(ps, x) && |x + y| <= MAX_BUFFER :: Flagged(ps, x + y)
  }

  ghost predicate StreamFlagged(ps: seq<Pattern>, segs: seq<Segment>) {
    Flagged(ps, Head(Stream(segs, true))) || Flagged(ps, Head(Stream(segs, false)))
  }

  lemma FillingIsHead(data: Bytes, payload: Bytes)
    ensures Filled(Head(data), payload) == Head(data + payload)
  {
  }

  lemma LongerStaysFlagged(ps: seq<Pattern>, data: Bytes, more: Bytes)
    requires ExtensionClosed(ps) && Flagged(ps, Head(data))
    ensures Flagged(ps, Head(data + more))
  {
    FillingIsHead(data, more);
    var x := Head(data);
    var y := Head(data + more)[|x|..];
    assert Head(data + more) == x + y;
  }

  /** The entry of an unblocked flow holds the head of each stream. */
  ghost predicate Buffered(ps: seq<Pattern>, e: Entry, segs: seq<Segment>) {
    if e.blocked then StreamFlagged(ps, segs)
    else e.bufA == Head(Stream(segs, true)) && e.bufB == Head(Stream(segs, false)) && !StreamFlagged(ps, segs)
  }

  lemma OneMoreSegment(ps: seq<Pattern>, e: Entry, segs: seq<Segment>, more: Segment)
    requires ExtensionClosed(ps) && Buffered(ps, e, segs)
    ensures Buffered(ps, Inspected(ps, e, more.forward, more.payload), segs + [more])
  {
    assert (segs + [more])[..|segs|] == segs;
    var a, b := Stream(segs, true), Stream(segs, false);
    assert a + [] == a && b + [] == b;
    var data := if more.forward then a else b;
    assert more.payload == [] ==> data + more.payload == data;
    FillingIsHead(data, more.payload);
    if Flagged(ps, Head(data)) {
      LongerStaysFlagged(ps, data, more.payload);
    }
  }

  lemma {:induction false} BufferedAfter(ps: seq<Pattern>, segs: seq<Segment>)
    requires ExtensionClosed(ps)
    ensures Buffered(ps, AfterSegments(ps, NewEntry, segs), segs)
    decreases |segs|
  {
    if segs != [] {
      var n := |segs| - 1;
      BufferedAfter(ps, segs[..n]);
      OneMoreSegment(ps, AfterSegments(ps, NewEntry, segs[..n]), segs[..n], segs[n]);
      assert segs[..n] + [segs[n]] == segs;
    }
  }

  lemma TwoSegments(ps: seq<Pattern>, x: Bytes, y: Bytes)
    requires Flagged(ps, x) && |x + y| <= MAX_BUFFER
    ensures var segs := [Segment(true, x), Segment(true, y)];
            && AfterSegments(ps, NewEntry, segs).blocked
            && (StreamFlagged(ps, segs) <==> Flagged(ps, x + y))
  {
    var one := [Segment(true, x)];
    var segs := [Segment(true, x), Segment(true, y)];
    assert one[..0] == [] && segs[..1] == one;
    assert Filled([], x) == x;
    assert AfterSegments(ps, NewEntry, one[..0]) == NewEntry;
    assert AfterSegments(ps, NewEntry, one).blocked;
    assert Stream(one[..0], true) == [] && Stream(one[..0], false) == [];
    assert Stream(one, true) == x && Stream(one, false) == [];
    assert Stream(segs, true) == x + y && Stream(segs, false) == [];
  }

  /** The verdict on a flow does not depend on how its streams are cut into segments and interleaved,
      for every flow, exactly if the patterns stay matched under extension. */
  lemma SegmentationIsIrrelevantIff(ps: seq<Pattern>)
    ensures (forall segs :: AfterSegments(ps, NewEntry, segs).blocked <==> StreamFlagged(ps, segs)) <==> ExtensionClosed(ps)
  {
    if ExtensionClosed(ps) {
      forall segs ensures AfterSegments(ps, NewEntry, segs).blocked <==> StreamFlagged(ps, segs) {
        BufferedAfter(ps, segs);
      }
    }
    if forall segs :: AfterSegments(ps, NewEntry, segs).blocked <==> StreamFlagged(ps, segs) {
      forall x, y | Flagged(ps, x) && |x + y| <= MAX_BUFFER ensures Flagged(ps, x + y) {
        TwoSegments(ps, x, y);
      }
    }
  }
}
