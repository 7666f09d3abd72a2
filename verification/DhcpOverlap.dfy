/** Overlap between the DHCP ranges of the inspector and of all conductors. */
module DhcpOverlap {
  import opened Wrappers
  import opened Octets
  import opened IpBlocks
  import opened DhcpRanges

  /** Where a range stands: below the inspector, or below a conductor. */
  datatype Path = Path(conductor: Option<nat>, index: nat)

  datatype StartEnd = StartEnd(start: IP, end: IP, path: Path)

  /** A forbidden overlap, reported at the first path. */
  datatype Overlap = Overlap(path: Path, other: Path)

  // ---------------------------------------------------------------------
  // Two ranges

  /** validateStartEndOverlap, branch by branch. */
  function ValidateStartEndOverlap(a: StartEnd, b: StartEnd): seq<Overlap> {
    match Compare(a.start, b.start)
    case -1 => if Compare(a.end, b.start) == -1 then [] else [Overlap(a.path, b.path)]
    case 0 => [Overlap(a.path, b.path)]
    case _ => if Compare(a.start, b.end) == 1 then [] else [Overlap(a.path, b.path)]
  }

  predicate Covers(a: StartEnd, ip: IP) { Num(a.start) <= Num(ip) <= Num(a.end) }

  ghost predicate Disjoint(a: StartEnd, b: StartEnd) { forall ip: IP :: !(Covers(a, ip) && Covers(b, ip)) }

  predicate InOrder(a: StartEnd) { Num(a.start) <= Num(a.end) }

  /** The range with its end moved up to its start if it runs backwards. */
  function Hull(a: StartEnd): StartEnd { if InOrder(a) then a else a.(end := a.start) }

  lemma OverlapBranches(a: StartEnd, b: StartEnd)
    ensures ValidateStartEndOverlap(a, b) == []
            <==> (Num(a.end) < Num(b.start) && Num(a.start) < Num(b.start))
                 || (Num(b.end) < Num(a.start) && Num(b.start) < Num(a.start))
  {
    CompareIsNumeric(a.start, b.start);
    CompareIsNumeric(a.end, b.start);
    CompareIsNumeric(a.start, b.end);
  }

  /** The test is silent exactly when no address lies in both ranges, for any
      two ranges; a range that runs backwards counts as its start alone. */
  lemma SilentIffDisjoint(a: StartEnd, b: StartEnd)
    ensures ValidateStartEndOverlap(a, b) == [] <==> Disjoint(Hull(a), Hull(b))
    ensures InOrder(a) && InOrder(b) ==> (ValidateStartEndOverlap(a, b) == [] <==> Disjoint(a, b))
  {
    OverlapBranches(a, b);
    if ValidateStartEndOverlap(a, b) != [] {
      var ip := if Num(a.start) < Num(b.start) then b.start else a.start;
      assert Covers(Hull(a), ip) && Covers(Hull(b), ip);
    }
  }

  lemma OneOverlap(a: StartEnd, b: StartEnd)
    ensures ValidateStartEndOverlap(a, b) in {[], [Overlap(a.path, b.path)]}
  {
  }

  /** Whether two ranges overlap does not depend on which is asked about which. */
  lemma OverlapIsSymmetric(a: StartEnd, b: StartEnd)
    ensures ValidateStartEndOverlap(a, b) == [] <==> ValidateStartEndOverlap(b, a) == []
  {
    OverlapBranches(a, b);
    OverlapBranches(b, a);
  }

  // ---------------------------------------------------------------------
  // The flattened list

  /** The ranges of one owner whose start and end parse, each with its path. */
  function StartEnds(ranges: seq<Range>, conductor: Option<nat>): seq<StartEnd>
    decreases |ranges|
  {
    if ranges == [] then []
    else
      var i := |ranges| - 1;
      var r := ranges[i];
      StartEnds(ranges[..i], conductor)
      + (if r.start.Some? && r.end.Some? then [StartEnd(r.start.value, r.end.value, Path(conductor, i))] else [])
  }

  function ConductorStartEnds(conductors: seq<seq<Range>>): seq<StartEnd>
    decreases |conductors|
  {
    if conductors == [] then []
    else
      ConductorStartEnds(conductors[..|conductors| - 1])
      + StartEnds(conductors[|conductors| - 1], Some(|conductors| - 1))
  }

  function Flatten(inspector: seq<Range>, conductors: seq<seq<Range>>): seq<StartEnd> {
    StartEnds(inspector, None) + ConductorStartEnds(conductors)
  }

  /** The entry is a range of the inspector or of a conductor whose start and end parse. */
  predicate Parsed(inspector: seq<Range>, conductors: seq<seq<Range>>, e: StartEnd) {
    match e.path.conductor
    case None => ParsedIn(inspector, e)
    case Some(c) => c < |conductors| && ParsedIn(conductors[c], e)
  }

  predicate ParsedIn(ranges: seq<Range>, e: StartEnd) {
    e.path.index < |ranges| && ranges[e.path.index].start == Some(e.start) && ranges[e.path.index].end == Some(e.end)
  }

  /** The inspector first, then the conductors in order; below one owner by index. */
  predicate Before(p: Path, q: Path) {
    match (p.conductor, q.conductor)
    case (None, None) => p.index < q.index
    case (None, Some(_)) => true
    case (Some(_), None) => false
    case (Some(c), Some(d)) => c < d || (c == d && p.index < q.index)
  }

  predicate InPathOrder(all: seq<StartEnd>) { forall i, j :: 0 <= i < j < |all| ==> Before(all[i].path, all[j].path) }

  /** Every range whose start and end parse, once and in order, and nothing else. */
  ghost predicate Lists(inspector: seq<Range>, conductors: seq<seq<Range>>, all: seq<StartEnd>) {
    InPathOrder(all) && forall e :: e in all <==> Parsed(inspector, conductors, e)
  }

  /** Two ranges that parse, in order. */
  predicate Precedes(inspector: seq<Range>, conductors: seq<seq<Range>>, e: StartEnd, f: StartEnd) {
    Parsed(inspector, conductors, e) && Parsed(inspector, conductors, f) && Before(e.path, f.path)
  }

  lemma JoinInOrder(a: seq<StartEnd>, b: seq<StartEnd>)
    requires InPathOrder(a) && InPathOrder(b)
    requires forall e, f :: e in a && f in b ==> Before(e.path, f.path)
    ensures InPathOrder(a + b) && forall e :: e in a + b <==> e in a || e in b
  {
    var all := a + b;
    forall i, j | 0 <= i < j < |all| ensures Before(all[i].path, all[j].path) {
      if i < |a| <= j { assert all[i] in a && all[j] in b; }
    }
  }

  lemma {:induction false} StartEndsListed(ranges: seq<Range>, conductor: Option<nat>)
    ensures InPathOrder(StartEnds(ranges, conductor))
    ensures forall e :: e in StartEnds(ranges, conductor) <==> e.path.conductor == conductor && ParsedIn(ranges, e)
    decreases |ranges|
  {
    if ranges != [] {
      var i := |ranges| - 1;
      var r := ranges[i];
      StartEndsListed(ranges[..i], conductor);
      var path := Path(conductor, i);
      var last := if r.start.Some? && r.end.Some? then [StartEnd(r.start.value, r.end.value, path)] else [];
      JoinInOrder(StartEnds(ranges[..i], conductor), last);
      forall e: StartEnd ensures e in last <==> e.path == path && ParsedIn(ranges, e) {}
      forall e: StartEnd | e.path.index < i ensures ParsedIn(ranges[..i], e) <==> ParsedIn(ranges, e) {}
    }
  }

  lemma {:induction false} ConductorsListed(conductors: seq<seq<Range>>)
    ensures InPathOrder(ConductorStartEnds(conductors))
    ensures forall e :: e in ConductorStartEnds(conductors) <==> e.path.conductor.Some? && Parsed([], conductors, e)
    decreases |conductors|
  {
    if conductors != [] {
      var i := |conductors| - 1;
      ConductorsListed(conductors[..i]);
      StartEndsListed(conductors[i], Some(i));
      JoinInOrder(ConductorStartEnds(conductors[..i]), StartEnds(conductors[i], Some(i)));
    }
  }

  lemma FlattenLists(inspector: seq<Range>, conductors: seq<seq<Range>>)
    ensures Lists(inspector, conductors, Flatten(inspector, conductors))
  {
    StartEndsListed(inspector, None);
    ConductorsListed(conductors);
    JoinInOrder(StartEnds(inspector, None), ConductorStartEnds(conductors));
  }

  method Collect(ranges: seq<Range>, conductor: Option<nat>, before: seq<StartEnd>) returns (all: seq<StartEnd>)
    ensures all == before + StartEnds(ranges, conductor)
  {
    all := before;
    for i := 0 to |ranges|
      invariant all == before + StartEnds(ranges[..i], conductor)
    {
      assert ranges[..i + 1][..i] == ranges[..i];
      var r := ranges[i];
      if r.start.None? || r.end.None? { continue; }
      all := all + [StartEnd(r.start.value, r.end.value, Path(conductor, i))];
    }
    assert ranges[..|ranges|] == ranges;
  }

  method CollectAll(inspector: seq<Range>, conductors: seq<seq<Range>>) returns (all: seq<StartEnd>)
    ensures all == Flatten(inspector, conductors)
    ensures Lists(inspector, conductors, all)
  {
    all := Collect(inspector, None, []);
    for i := 0 to |conductors|
      invariant all == StartEnds(inspector, None) + ConductorStartEnds(conductors[..i])
    {
      assert conductors[..i + 1][..i] == conductors[..i];
      all := Collect(conductors[i], Some(i), all);
    }
    assert conductors[..|conductors|] == conductors;
    FlattenLists(inspector, conductors);
  }

  // ---------------------------------------------------------------------
  // The loop as written, and the loop that appends

  /** The last test the loop makes. */
  function LastTest(all: seq<StartEnd>): seq<Overlap> {
    if |all| < 2 then [] else ValidateStartEndOverlap(all[|all| - 1], all[|all| - 2])
  }

  /** The test that the inner loop made last before bx, in the row of ax. */
  function RowTest(all: seq<StartEnd>, ax: nat, bx: nat, before: seq<Overlap>): seq<Overlap>
    requires ax < |all| && bx <= |all|
  {
    if bx == 0 || (bx == 1 && ax == 0) then before
    else if bx - 1 == ax then ValidateStartEndOverlap(all[ax], all[bx - 2])
    else ValidateStartEndOverlap(all[ax], all[bx - 1])
  }

  method TestRow(all: seq<StartEnd>, ax: nat, before: seq<Overlap>) returns (errs: seq<Overlap>)
    requires ax < |all|
    ensures errs == RowTest(all, ax, |all|, before)
  {
    errs := before;
    for bx := 0 to |all|
      invariant errs == RowTest(all, ax, bx, before)
    {
      if bx == ax { continue; }
      errs := ValidateStartEndOverlap(all[ax], all[bx]);
    }
  }

  /** The last range of the inputs that parses, and the one before it. */
  ghost predicate LastTwo(inspector: seq<Range>, conductors: seq<seq<Range>>, last: StartEnd, prev: StartEnd) {
    && Parsed(inspector, conductors, last) && Parsed(inspector, conductors, prev) && Before(prev.path, last.path)
    && forall e :: Parsed(inspector, conductors, e) ==> e == last || e == prev || Before(e.path, prev.path)
  }

  lemma LastTwoListed(inspector: seq<Range>, conductors: seq<seq<Range>>, all: seq<StartEnd>, last: StartEnd,
                      prev: StartEnd)
    requires Lists(inspector, conductors, all) && LastTwo(inspector, conductors, last, prev)
    ensures |all| >= 2 && all[|all| - 1] == last && all[|all| - 2] == prev
  {
    var n := |all|;
    var i :| 0 <= i < n && all[i] == last;
    var j :| 0 <= j < n && all[j] == prev;
    assert all[n - 1] in all;
    assert i == n - 1;
    assert all[n - 2] in all;
  }

  lemma EndsWithLastTwo(inspector: seq<Range>, conductors: seq<seq<Range>>, all: seq<StartEnd>)
    requires Lists(inspector, conductors, all) && |all| >= 2
    ensures LastTwo(inspector, conductors, all[|all| - 1], all[|all| - 2])
  {
    var n := |all|;
    assert all[n - 1] in all && all[n - 2] in all;
    forall e | Parsed(inspector, conductors, e)
      ensures e == all[n - 1] || e == all[n - 2] || Before(e.path, all[n - 2].path)
    {
      var i :| 0 <= i < n && all[i] == e;
    }
  }

  /** validateDHCPRangesOverlap: every test overwrites the result of the one
      before, so that only the last range against the one before it is reported. */
  method ValidateDHCPRangesOverlap(inspector: seq<Range>, conductors: seq<seq<Range>>) returns (errs: seq<Overlap>)
    ensures errs == LastTest(Flatten(inspector, conductors))
    ensures forall last, prev :: LastTwo(inspector, conductors, last, prev) ==>
              errs == if Disjoint(Hull(last), Hull(prev)) then [] else [Overlap(last.path, prev.path)]
    ensures errs != [] ==> exists last, prev :: LastTwo(inspector, conductors, last, prev)
  {
    errs := [];
    var all := CollectAll(inspector, conductors);
    var n := |all|;
    for ax := 0 to n
      invariant n < 2 ==> errs == []
      invariant n >= 2 && ax > 0 ==> errs == RowTest(all, ax - 1, n, [])
    {
      errs := TestRow(all, ax, errs);
    }
    LastTestAnswers(inspector, conductors, all);
  }

  /** What the last test says, told by the last two ranges that parse. */
  lemma LastTestAnswers(inspector: seq<Range>, conductors: seq<seq<Range>>, all: seq<StartEnd>)
    requires Lists(inspector, conductors, all)
    ensures forall last, prev :: LastTwo(inspector, conductors, last, prev) ==>
              LastTest(all) == if Disjoint(Hull(last), Hull(prev)) then [] else [Overlap(last.path, prev.path)]
    ensures LastTest(all) != [] ==> exists last, prev :: LastTwo(inspector, conductors, last, prev)
  {
    forall last, prev | LastTwo(inspector, conductors, last, prev)
      ensures LastTest(all) == if Disjoint(Hull(last), Hull(prev)) then [] else [Overlap(last.path, prev.path)]
    {
      LastTwoListed(inspector, conductors, all, last, prev);
      SilentIffDisjoint(last, prev);
      OneOverlap(last, prev);
    }
    if |all| >= 2 { EndsWithLastTwo(inspector, conductors, all); }
  }

  /** One test after the other, the results appended: the first bx of a row. */
  function Row(test: (nat, nat) -> seq<Overlap>, ax: nat, bx: nat): seq<Overlap>
    decreases bx
  {
    if bx == 0 then [] else Row(test, ax, bx - 1) + test(ax, bx - 1)
  }

  /** The first ax rows, each up to the diagonal. */
  function Rows(test: (nat, nat) -> seq<Overlap>, ax: nat): seq<Overlap> {
    if ax == 0 then [] else Rows(test, ax - 1) + Row(test, ax - 1, ax - 1)
  }

  lemma {:induction false} RowSilentIff(test: (nat, nat) -> seq<Overlap>, ax: nat, bx: nat)
    ensures Row(test, ax, bx) == [] <==> forall j: nat :: j < bx ==> test(ax, j) == []
    decreases bx
  {
    if bx > 0 {
      RowSilentIff(test, ax, bx - 1);
      assert |Row(test, ax, bx)| == |Row(test, ax, bx - 1)| + |test(ax, bx - 1)|;
    }
  }

  lemma {:induction false} RowsSilentIff(test: (nat, nat) -> seq<Overlap>, ax: nat)
    ensures Rows(test, ax) == [] <==> forall i: nat, j: nat :: j < i < ax ==> test(i, j) == []
  {
    if ax > 0 {
      RowsSilentIff(test, ax - 1);
      RowSilentIff(test, ax - 1, ax - 1);
      assert |Rows(test, ax)| == |Rows(test, ax - 1)| + |Row(test, ax - 1, ax - 1)|;
    }
  }

  function TestOf(all: seq<StartEnd>): (nat, nat) -> seq<Overlap> {
    (i: nat, j: nat) => if i < |all| && j < |all| then ValidateStartEndOverlap(all[i], all[j]) else []
  }

  /** Two ranges of the list have no address in common. */
  ghost predicate DisjointAt(all: seq<StartEnd>, i: nat, j: nat)
    requires i < |all| && j < |all|
  {
    Disjoint(Hull(all[i]), Hull(all[j]))
  }

  ghost predicate PairwiseDisjoint(all: seq<StartEnd>) {
    forall i: nat, j: nat :: j < i < |all| ==> DisjointAt(all, i, j)
  }

  lemma TestSilentIff(all: seq<StartEnd>, test: (nat, nat) -> seq<Overlap>, i: nat, j: nat)
    requires test == TestOf(all) && i < |all| && j < |all|
    ensures test(i, j) == [] <==> DisjointAt(all, i, j)
  {
    SilentIffDisjoint(all[i], all[j]);
  }

  lemma TestsSilentIff(all: seq<StartEnd>)
    ensures Rows(TestOf(all), |all|) == [] <==> PairwiseDisjoint(all)
  {
    var test := TestOf(all);
    RowsSilentIff(test, |all|);
    forall i: nat, j: nat | j < i < |all| ensures test(i, j) == [] <==> DisjointAt(all, i, j) {
      TestSilentIff(all, test, i, j);
    }
  }

  lemma FewTests(all: seq<StartEnd>)
    ensures |all| <= 2 ==> Rows(TestOf(all), |all|) == LastTest(all)
  {
    var test := TestOf(all);
    if 0 < |all| <= 2 {
      assert Rows(test, 1) == Rows(test, 0) + Row(test, 0, 0);
      if |all| == 2 {
        assert Rows(test, 2) == Rows(test, 1) + Row(test, 1, 1);
        assert Row(test, 1, 1) == Row(test, 1, 0) + test(1, 0);
      }
    }
  }

  lemma RowGrows(test: (nat, nat) -> seq<Overlap>, ax: nat, bx: nat)
    ensures forall before :: before + Row(test, ax, bx) + test(ax, bx) == before + Row(test, ax, bx + 1)
  {
  }

  method AppendRow(all: seq<StartEnd>, ax: nat, before: seq<Overlap>) returns (errs: seq<Overlap>)
    requires ax < |all|
    ensures errs == before + Row(TestOf(all), ax, ax)
  {
    errs := before;
    ghost var test := TestOf(all);
    for bx := 0 to ax
      invariant errs == before + Row(test, ax, bx)
    {
      var found := ValidateStartEndOverlap(all[ax], all[bx]);
      assert test(ax, bx) == found;
      RowGrows(test, ax, bx);
      errs := errs + found;
    }
  }

  /** The same loops over each pair once, appending. */
  method ValidateAllOverlaps(inspector: seq<Range>, conductors: seq<seq<Range>>) returns (errs: seq<Overlap>)
    ensures errs == [] <==> PairwiseDisjoint(Flatten(inspector, conductors))
    ensures errs == [] <==> forall e, f :: Precedes(inspector, conductors, e, f) ==> Disjoint(Hull(e), Hull(f))
    ensures |Flatten(inspector, conductors)| <= 2 ==> errs == LastTest(Flatten(inspector, conductors))
  {
    errs := [];
    var all := CollectAll(inspector, conductors);
    ghost var test := TestOf(all);
    for ax := 0 to |all|
      invariant errs == Rows(test, ax)
    {
      errs := AppendRow(all, ax, errs);
    }
    TestsSilentIff(all);
    FewTests(all);
    DisjointRanges(inspector, conductors, all);
  }

  lemma DisjointRanges(inspector: seq<Range>, conductors: seq<seq<Range>>, all: seq<StartEnd>)
    requires Lists(inspector, conductors, all)
    ensures PairwiseDisjoint(all) <==>
              forall e, f :: Precedes(inspector, conductors, e, f) ==> Disjoint(Hull(e), Hull(f))
  {
    if PairwiseDisjoint(all) {
      forall e, f | Precedes(inspector, conductors, e, f)
        ensures Disjoint(Hull(e), Hull(f))
      {
        var j :| 0 <= j < |all| && all[j] == e;
        var i :| 0 <= i < |all| && all[i] == f;
        assert DisjointAt(all, i, j);
      }
    } else {
      var i: nat, j: nat :| j < i < |all| && !DisjointAt(all, i, j);
      assert all[i] in all && all[j] in all && Precedes(inspector, conductors, all[j], all[i]);
      SwapDisjoint(all[i], all[j]);
    }
  }

  lemma SwapDisjoint(a: StartEnd, b: StartEnd)
    ensures Disjoint(Hull(a), Hull(b)) <==> Disjoint(Hull(b), Hull(a))
  {
  }

  lemma LastTestDisjoint(all: seq<StartEnd>)
    requires |all| >= 2
    ensures LastTest(all) == [] <==> DisjointAt(all, |all| - 1, |all| - 2)
  {
    SilentIffDisjoint(all[|all| - 1], all[|all| - 2]);
  }

  /** The loop as written is silent exactly when the last two ranges are
      disjoint; for up to two ranges that is what it should be. */
  lemma LastTestSilentIff(all: seq<StartEnd>)
    ensures LastTest(all) == [] <==> |all| < 2 || DisjointAt(all, |all| - 1, |all| - 2)
    ensures |all| <= 2 ==> (LastTest(all) == [] <==> PairwiseDisjoint(all))
    ensures PairwiseDisjoint(all) ==> LastTest(all) == []
  {
    if |all| >= 2 {
      LastTestDisjoint(all);
      PairOfTwo(all);
    }
  }

  lemma PairOfTwo(all: seq<StartEnd>)
    requires |all| >= 2
    ensures PairwiseDisjoint(all) ==> DisjointAt(all, |all| - 1, |all| - 2)
    ensures |all| == 2 && DisjointAt(all, 1, 0) ==> PairwiseDisjoint(all)
  {
    if |all| == 2 && DisjointAt(all, 1, 0) {
      forall i: nat, j: nat | j < i < |all| ensures DisjointAt(all, i, j) {
        assert i == 1 && j == 0;
      }
    }
  }

  lemma SharedAddress(all: seq<StartEnd>, i: nat, j: nat, ip: IP)
    requires i < |all| && j < |all| && all[i].start == all[j].start == ip
    ensures !DisjointAt(all, i, j)
  {
    assert Covers(Hull(all[i]), ip) && Covers(Hull(all[j]), ip);
  }

  lemma SinglesSilent(x: IP, y: IP, p: Path, q: Path)
    requires x != y
    ensures ValidateStartEndOverlap(StartEnd(x, x, p), StartEnd(y, y, q)) == []
  {
    CompareIsNumeric(x, y);
  }

  /** For every length from three on, and any two addresses, there is a list
      with an overlap that the loop as written does not report. */
  lemma OverlapMissed(n: nat, x: IP, y: IP) returns (all: seq<StartEnd>)
    requires n >= 3 && x != y
    ensures |all| == n && LastTest(all) == [] && !PairwiseDisjoint(all)
    ensures forall i :: 0 <= i < n ==> all[i].start == all[i].end && all[i].start in {x, y}
  {
    var most, last := StartEnd(x, x, Path(None, 0)), StartEnd(y, y, Path(None, 1));
    all := seq(n - 1, _ => most) + [last];
    SinglesSilent(y, x, last.path, most.path);
    SharedAddress(all, 1, 0, x);
    assert all[n - 1] == last && all[n - 2] == most;
  }
}
