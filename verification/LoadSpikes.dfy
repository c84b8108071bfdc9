/** Anomaly detection over one event's proofs: outliers by the median absolute deviation, mismatches and drift. */
module LoadSpikes {
  import opened Common

  /** A proof record; an absent key is None. */
  datatype Proof = Proof(siteId: Option<string>, reductionKwh: Option<real>, baselineKwh: Option<real>,
                         actualKwh: Option<real>)

  datatype Severity = Info | Warning | Critical

  datatype Report = Report(kind: string, severity: Severity, site: string, reading: real, score: real)

  function OrZero(x: Option<real>): real {
    if x.Some? then x.value else 0.0
  }

  function Site(p: Proof): string {
    if p.siteId.Some? then p.siteId.value else "unknown"
  }

  function ReductionOf(p: Proof): real {
    if p.reductionKwh.Some? then p.reductionKwh.value else OrZero(p.baselineKwh) - OrZero(p.actualKwh)
  }

  function Abs(x: real): real {
    if x < 0.0 then -x else x
  }

  // ---- Sorting ----

  function Insert(x: real, s: seq<real>): seq<real> {
    if s == [] || x <= s[0] then [x] + s else [s[0]] + Insert(x, s[1..])
  }

  function Sort(s: seq<real>): seq<real> {
    if s == [] then [] else Insert(s[|s| - 1], Sort(s[..|s| - 1]))
  }

  ghost predicate Ascending(s: seq<real>) {
    forall i, j :: 0 <= i <= j < |s| ==> s[i] <= s[j]
  }

  lemma {:induction false} InsertAdds(x: real, s: seq<real>)
    ensures multiset(Insert(x, s)) == multiset(s) + multiset{x} && |Insert(x, s)| == |s| + 1
  {
    if s != [] && x > s[0] {
      InsertAdds(x, s[1..]);
      assert s == [s[0]] + s[1..];
    }
  }

  lemma {:induction false} InsertAscends(x: real, s: seq<real>)
    requires Ascending(s)
    ensures Ascending(Insert(x, s)) && Insert(x, s) != []
    ensures Insert(x, s)[0] == if s == [] || x <= s[0] then x else s[0]
  {
    if s != [] && x > s[0] {
      InsertAscends(x, s[1..]);
      PrependAscends(s[0], Insert(x, s[1..]));
    }
  }

  lemma PrependAscends(x: real, s: seq<real>)
    requires Ascending(s) && (s != [] ==> x <= s[0])
    ensures Ascending([x] + s)
  {
  }

  lemma TailAscends(s: seq<real>)
    requires Ascending(s) && s != []
    ensures Ascending(s[1..])
  {
  }

  lemma NothingAscends()
    ensures Ascending([])
  {
  }

  lemma {:induction false} SortSorts(s: seq<real>)
    ensures Ascending(Sort(s)) && multiset(Sort(s)) == multiset(s) && |Sort(s)| == |s|
  {
    hide Insert, Ascending;
    if s == [] {
      NothingAscends();
    } else {
      SortSorts(s[..|s| - 1]);
      InsertAdds(s[|s| - 1], Sort(s[..|s| - 1]));
      InsertAscends(s[|s| - 1], Sort(s[..|s| - 1]));
      assert s == s[..|s| - 1] + [s[|s| - 1]];
    }
  }

  lemma LeastFirst(a: seq<real>, b: seq<real>)
    requires Ascending(a) && Ascending(b) && multiset(a) == multiset(b) && a != [] && b != []
    ensures a[0] == b[0]
  {
    assert a[0] in multiset(a) && b[0] in multiset(b);
    assert a[0] in b && b[0] in a;
  }

  /** Only one ascending list holds given values. */
  lemma {:induction false} AscendingUnique(a: seq<real>, b: seq<real>)
    requires Ascending(a) && Ascending(b) && multiset(a) == multiset(b)
    ensures a == b
    decreases |a|
  {
    assert |a| == |multiset(a)| == |multiset(b)| == |b|;
    if a != [] {
      LeastFirst(a, b);
      TailAscends(a);
      TailAscends(b);
      hide Ascending;
      assert a == [a[0]] + a[1..] && b == [b[0]] + b[1..];
      assert multiset(a[1..]) == multiset(a) - multiset{a[0]};
      assert multiset(b[1..]) == multiset(b) - multiset{b[0]};
      AscendingUnique(a[1..], b[1..]);
    }
  }

  lemma SortDependsOnValues(a: seq<real>, b: seq<real>)
    requires multiset(a) == multiset(b)
    ensures Sort(a) == Sort(b)
  {
    SortSorts(a);
    SortSorts(b);
    AscendingUnique(Sort(a), Sort(b));
  }

  // ---- Median and deviation ----

  function Middle(s: seq<real>): real
    requires s != []
  {
    SortSorts(s);
    Sort(s)[|s| / 2]
  }

  function Values(proofs: seq<Proof>): seq<real> {
    seq(|proofs|, i requires 0 <= i < |proofs| => ReductionOf(proofs[i]))
  }

  function Deviations(values: seq<real>, median: real): seq<real> {
    seq(|values|, i requires 0 <= i < |values| => Abs(values[i] - median))
  }

  function Median(values: seq<real>): real
    requires values != []
  {
    Middle(values)
  }

  /** The median deviation, or a tenth of the median but at least one when that is zero. */
  function Spread(values: seq<real>): (m: real)
    requires values != []
    ensures m != 0.0
  {
    var mad := Middle(Deviations(values, Median(values)));
    if mad == 0.0 then (if Abs(Median(values)) * 0.1 > 1.0 then Abs(Median(values)) * 0.1 else 1.0) else mad
  }

  // ---- The detectors, proof by proof ----

  datatype Detector = Spike(median: real, mad: real) | Mismatch | Drift(expected: real)

  function Judge(d: Detector, p: Proof): Option<Report>
    requires d.Spike? ==> d.mad != 0.0
    requires d.Drift? ==> d.expected != 0.0
  {
    match d
    case Spike(median, mad) =>
      var z := Abs(ReductionOf(p) - median) / mad;
      if z > 3.0 then Some(Report("load_spike", if z > 5.0 then Critical else Warning, Site(p), ReductionOf(p), z))
          else None
    case Mismatch =>
      var baseline, actual := OrZero(p.baselineKwh), OrZero(p.actualKwh);
      if baseline > 0.0 && actual > baseline then Some(Report("proof_mismatch", Warning, Site(p), actual, baseline))
          else None
    case Drift(expected) =>
      var baseline := OrZero(p.baselineKwh);
      if baseline == 0.0 then None
      else
        var drift := Abs(baseline - expected) / expected;
        if drift > 0.3 then Some(Report("baseline_drift", if drift < 0.5 then Warning else Critical, Site(p), baseline,
                                        drift)) else None
  }

  predicate Sensible(d: Detector) {
    (d.Spike? ==> d.mad != 0.0) && (d.Drift? ==> d.expected != 0.0)
  }

  function AsList(r: Option<Report>): seq<Report> {
    if r.Some? then [r.value] else []
  }

  function Collect(d: Detector, proofs: seq<Proof>): seq<Report>
    requires Sensible(d)
  {
    if proofs == [] then [] else Collect(d, proofs[..|proofs| - 1]) + AsList(Judge(d, proofs[|proofs| - 1]))
  }

  function Spikes(proofs: seq<Proof>): seq<Report> {
    if |proofs| < 3 then [] else Collect(Spike(Median(Values(proofs)), Spread(Values(proofs))), proofs)
  }

  function Mismatches(proofs: seq<Proof>): seq<Report> {
    if |proofs| < 2 then [] else Collect(Mismatch, proofs)
  }

  function Drifts(proofs: seq<Proof>, expected: real): seq<Report> {
    if expected == 0.0 then [] else Collect(Drift(expected), proofs)
  }

  // ---- At most half of the sites are flagged ----

  function Bit(b: bool): nat {
    if b then 1 else 0
  }

  datatype Side = Below | Above

  /** At most the bound, or at least. */
  predicate OnSide(x: real, bound: real, side: Side) {
    if side == Below then x <= bound else x >= bound
  }

  /** How many values stand on one side of the bound, the bound itself included. */
  function Count(s: seq<real>, bound: real, side: Side): nat {
    if s == [] then 0 else Count(s[..|s| - 1], bound, side) + Bit(OnSide(s[|s| - 1], bound, side))
  }

  lemma {:induction false} CountConcat(a: seq<real>, b: seq<real>, bound: real, side: Side)
    ensures Count(a + b, bound, side) == Count(a, bound, side) + Count(b, bound, side)
    decreases |b|
  {
    if b == [] {
      assert a + b == a;
    } else {
      assert (a + b)[..|a + b| - 1] == a + b[..|b| - 1];
      CountConcat(a, b[..|b| - 1], bound, side);
    }
  }

  lemma CountOne(x: real, bound: real, side: Side)
    ensures Count([x], bound, side) == Bit(OnSide(x, bound, side))
  {
    assert [x][..0] == [];
  }

  lemma {:induction false} CountInsert(x: real, s: seq<real>, bound: real, side: Side)
    ensures Count(Insert(x, s), bound, side) == Count(s, bound, side) + Bit(OnSide(x, bound, side))
  {
    CountOne(x, bound, side);
    if s == [] || x <= s[0] {
      CountConcat([x], s, bound, side);
    } else {
      CountInsert(x, s[1..], bound, side);
      CountConcat([s[0]], Insert(x, s[1..]), bound, side);
      CountConcat([s[0]], s[1..], bound, side);
      assert s == [s[0]] + s[1..];
    }
  }

  lemma {:induction false} CountSort(s: seq<real>, bound: real, side: Side)
    ensures Count(Sort(s), bound, side) == Count(s, bound, side)
  {
    if s != [] {
      CountSort(s[..|s| - 1], bound, side);
      CountInsert(s[|s| - 1], Sort(s[..|s| - 1]), bound, side);
    }
  }

  lemma {:induction false} CountAll(s: seq<real>, bound: real, side: Side)
    requires forall i :: 0 <= i < |s| ==> OnSide(s[i], bound, side)
    ensures Count(s, bound, side) == |s|
  {
    if s != [] {
      CountAll(s[..|s| - 1], bound, side);
    }
  }

  // ---- What the middle is ----

  /** One of the values, with more than half of them at most it and at least half of them at least it. */
  ghost predicate IsMedian(s: seq<real>, m: real) {
    && m in s
    && Count(s, m, Below) >= |s| / 2 + 1
    && Count(s, m, Above) >= |s| - |s| / 2
  }

  lemma MiddleIsMedian(s: seq<real>)
    requires s != []
    ensures IsMedian(s, Middle(s))
  {
    hide Sort, Count;
    var t, k := Sort(s), |s| / 2;
    SortSorts(s);
    MiddleIsOneOf(s);
    CountSort(s, t[k], Below);
    CountSort(s, t[k], Above);
    assert t == t[..k + 1] + t[k + 1..] && t == t[..k] + t[k..];
    CountConcat(t[..k + 1], t[k + 1..], t[k], Below);
    CountAll(t[..k + 1], t[k], Below);
    CountConcat(t[..k], t[k..], t[k], Above);
    CountAll(t[k..], t[k], Above);
  }

  lemma {:induction false} SidesApart(s: seq<real>, a: real, b: real)
    requires a < b
    ensures Count(s, a, Below) + Count(s, b, Above) <= |s|
  {
    if s != [] {
      SidesApart(s[..|s| - 1], a, b);
    }
  }

  /** There is one such value only. */
  lemma MedianIsUnique(s: seq<real>, a: real, b: real)
    requires IsMedian(s, a) && IsMedian(s, b)
    ensures a == b
  {
    if a < b {
      SidesApart(s, a, b);
    } else if b < a {
      SidesApart(s, b, a);
    }
  }

  lemma {:induction false} FlaggedPlusClose(proofs: seq<Proof>, median: real, mad: real, bound: real)
    requires mad > 0.0 && bound <= 3.0 * mad
    ensures |Collect(Spike(median, mad), proofs)| + Count(Deviations(Values(proofs), median), bound, Below) <= |proofs|
  {
    var devs := Deviations(Values(proofs), median);
    if proofs != [] {
      var n := |proofs| - 1;
      FlaggedPlusClose(proofs[..n], median, mad, bound);
      assert devs[..n] == Deviations(Values(proofs[..n]), median);
      CloseIsCalm(proofs[n], median, mad, bound);
    }
  }

  lemma QuotientAbove(x: real, m: real, y: real)
    requires m > 0.0 && x / m > y
    ensures x > y * m
  {
    var q := x / m;
    assert x == q * m;
    assert (q - y) * m > 0.0;
    assert (q - y) * m == q * m - y * m;
  }

  lemma CloseIsCalm(p: Proof, median: real, mad: real, bound: real)
    requires mad > 0.0 && bound <= 3.0 * mad
    ensures Judge(Spike(median, mad), p).Some? ==> Abs(ReductionOf(p) - median) > bound
  {
    SpikeIff(p, median, mad);
  }

  lemma QuotientIff(x: real, m: real, y: real)
    requires m > 0.0
    ensures x / m > y <==> x > y * m
  {
    var q := x / m;
    assert x == q * m;
    if q <= y {
      assert (y - q) * m >= 0.0;
      assert (y - q) * m == y * m - q * m;
    } else {
      QuotientAbove(x, m, y);
    }
  }

  /** A reading is flagged beyond three spreads from the median, critically beyond five; its score is the distance. */
  lemma SpikeIff(p: Proof, median: real, mad: real)
    requires mad > 0.0
    ensures var r, dev := Judge(Spike(median, mad), p), Abs(ReductionOf(p) - median);
            && (r.Some? <==> dev > 3.0 * mad)
            && (r.Some? ==>
                  && r.value.kind == "load_spike"
                  && r.value.severity == (if dev > 5.0 * mad then Critical else Warning)
                  && r.value.site == Site(p) && r.value.reading == ReductionOf(p) && r.value.score * mad == dev)
  {
    QuotientIff(Abs(ReductionOf(p) - median), mad, 3.0);
    QuotientIff(Abs(ReductionOf(p) - median), mad, 5.0);
  }

  /** A mismatch is a use above a positive baseline. */
  lemma MismatchIff(p: Proof)
    ensures var r := Judge(Mismatch, p);
            && (r.Some? <==> 0.0 < OrZero(p.baselineKwh) < OrZero(p.actualKwh))
            && (r.Some? ==> r.value.kind == "proof_mismatch" && r.value.severity == Warning && r.value.site == Site(p))
  {
  }

  /** A given baseline drifts beyond three tenths of a positive expectation, and is critical from a half on. */
  lemma DriftIff(p: Proof, expected: real)
    requires expected != 0.0
    ensures var r, baseline := Judge(Drift(expected), p), OrZero(p.baselineKwh);
            && (r.Some? <==> expected > 0.0 && baseline != 0.0 && Abs(baseline - expected) > 0.3 * expected)
            && (r.Some? ==>
                  && r.value.kind == "baseline_drift" && r.value.site == Site(p)
                  && r.value.severity == if Abs(baseline - expected) >= 0.5 * expected then Critical else Warning)
  {
    var d := Abs(OrZero(p.baselineKwh) - expected);
    if expected > 0.0 {
      QuotientIff(d, expected, 0.3);
      QuotientBelow(d, expected, 0.5);
    } else {
      NegativeQuotient(d, expected);
    }
  }

  lemma QuotientBelow(x: real, m: real, y: real)
    requires m > 0.0
    ensures x / m < y <==> x < y * m
  {
    var q := x / m;
    assert x == q * m;
    if q < y {
      assert (y - q) * m > 0.0;
      assert (y - q) * m == y * m - q * m;
    } else {
      assert (q - y) * m >= 0.0;
      assert (q - y) * m == q * m - y * m;
    }
  }

  lemma NegativeProduct(q: real, m: real)
    requires q > 0.0 && m < 0.0
    ensures q * m < 0.0
  {
  }

  lemma NegativeQuotient(x: real, m: real)
    requires x >= 0.0 && m < 0.0
    ensures x / m <= 0.0
  {
    var q := x / m;
    assert x == q * m;
    if q > 0.0 {
      NegativeProduct(q, m);
    }
  }

  lemma MiddleIsOneOf(s: seq<real>)
    requires s != []
    ensures Middle(s) in s
  {
    SortSorts(s);
    hide Sort, Ascending;
    assert Middle(s) in multiset(Sort(s));
  }

  lemma DeviationsNonNegative(values: seq<real>, median: real)
    requires values != []
    ensures Middle(Deviations(values, median)) >= 0.0
  {
    hide Middle;
    MiddleIsOneOf(Deviations(values, median));
  }

  /** Of n proofs, fewer than half can be flagged: at most n - (n/2 + 1), also through the zero-deviation fallback. */
  lemma FewerThanHalfFlagged(proofs: seq<Proof>)
    requires |proofs| >= 3
    ensures |Spikes(proofs)| <= |proofs| - (|proofs| / 2 + 1)
  {
    var values := Values(proofs);
    var median := Median(values);
    var devs := Deviations(values, median);
    MiddleIsMedian(devs);
    DeviationsNonNegative(values, median);
    FlaggedPlusClose(proofs, median, Spread(values), Middle(devs));
  }

  // ---- What is flagged ----

  /** A distance is not negative and is the difference, taken in one direction. */
  ghost predicate IsDistance(d: real, x: real, y: real) {
    d >= 0.0 && (d == x - y || d == y - x)
  }

  ghost predicate AreDistances(devs: seq<real>, values: seq<real>, median: real) {
    |devs| == |values| && forall i :: 0 <= i < |values| ==> IsDistance(devs[i], values[i], median)
  }

  /** The unit for judging readings: the median distance, or when zero a tenth of the median, at least one. */
  ghost predicate IsSpread(spread: real, median: real, mad: real) {
    if mad != 0.0 then spread == mad
    else
      && spread >= 1.0 && 10.0 * spread >= median && 10.0 * spread >= -median
      && (spread == 1.0 || 10.0 * spread == median || 10.0 * spread == -median)
  }

  ghost predicate Statistics(values: seq<real>, median: real, spread: real) {
    && IsMedian(values, median) && spread > 0.0
    && exists devs, mad :: AreDistances(devs, values, median) && IsMedian(devs, mad) && IsSpread(spread, median, mad)
  }

  lemma StatisticsFit(values: seq<real>)
    requires values != []
    ensures Statistics(values, Median(values), Spread(values))
  {
    var median := Median(values);
    var devs := Deviations(values, median);
    var mad := Middle(devs);
    MiddleIsMedian(values);
    MiddleIsMedian(devs);
    DeviationsNonNegative(values, median);
    hide Middle, IsMedian;
    assert AreDistances(devs, values, median);
    assert IsSpread(Spread(values), median, mad);
  }

  lemma ManyDistances(a: seq<real>, b: seq<real>, values: seq<real>, median: real)
    requires AreDistances(a, values, median) && AreDistances(b, values, median)
    ensures a == b
  {
  }

  /** The statistics of a sample are determined by what they are. */
  lemma StatisticsAreUnique(values: seq<real>, m: real, s: real, m': real, s': real)
    requires Statistics(values, m, s) && Statistics(values, m', s')
    ensures m == m' && s == s'
  {
    MedianIsUnique(values, m, m');
    hide IsMedian;
    var devs, mad :| AreDistances(devs, values, m) && IsMedian(devs, mad) && IsSpread(s, m, mad);
    var devs', mad' :| AreDistances(devs', values, m') && IsMedian(devs', mad') && IsSpread(s', m', mad');
    ManyDistances(devs, devs', values, m);
    MedianIsUnique(devs, mad, mad');
  }

  ghost predicate Ascends(places: seq<nat>) {
    forall j, k :: 0 <= j < k < |places| ==> places[j] < places[k]
  }

  /** The reports are about the proofs at these places, in their order, and about no others. */
  ghost predicate Lists(d: Detector, proofs: seq<Proof>, reports: seq<Report>, places: seq<nat>)
    requires Sensible(d)
  {
    && |places| == |reports| && Ascends(places)
    && (forall j :: 0 <= j < |places| ==> places[j] < |proofs| && Judge(d, proofs[places[j]]) == Some(reports[j]))
    && (forall i :: 0 <= i < |proofs| && Judge(d, proofs[i]).Some? ==> i in places)
  }

  lemma NoneListed(d: Detector)
    requires Sensible(d)
    ensures Lists(d, [], [], [])
  {
  }

  lemma QuietListed(d: Detector, proofs: seq<Proof>, p: Proof, reports: seq<Report>, places: seq<nat>)
    requires Sensible(d) && Lists(d, proofs, reports, places) && Judge(d, p).None?
    ensures Lists(d, proofs + [p], reports, places)
  {
    hide Judge;
    forall i | 0 <= i < |proofs + [p]| && Judge(d, (proofs + [p])[i]).Some? ensures i in places {
      assert (proofs + [p])[|proofs|] == p;
      assert i < |proofs| ==> (proofs + [p])[i] == proofs[i];
    }
  }

  lemma FlaggedListed(d: Detector, proofs: seq<Proof>, p: Proof, reports: seq<Report>, places: seq<nat>)
    requires Sensible(d) && Lists(d, proofs, reports, places) && Judge(d, p).Some?
    ensures Lists(d, proofs + [p], reports + [Judge(d, p).value], places + [|proofs|])
  {
    hide Judge;
    var more := places + [|proofs|];
    assert more[|places|] == |proofs|;
    forall i | 0 <= i < |proofs + [p]| && Judge(d, (proofs + [p])[i]).Some? ensures i in more {
      if i < |proofs| {
        assert (proofs + [p])[i] == proofs[i];
        assert i in places;
      }
    }
  }

  lemma {:induction false} CollectLists(d: Detector, proofs: seq<Proof>) returns (places: seq<nat>)
    requires Sensible(d)
    ensures Lists(d, proofs, Collect(d, proofs), places)
  {
    hide Judge, Lists;
    if proofs == [] {
      places := [];
      NoneListed(d);
    } else {
      var n := |proofs| - 1;
      assert proofs == proofs[..n] + [proofs[n]];
      places := CollectLists(d, proofs[..n]);
      if Judge(d, proofs[n]).Some? {
        FlaggedListed(d, proofs[..n], proofs[n], Collect(d, proofs[..n]), places);
        places := places + [n];
      } else {
        QuietListed(d, proofs[..n], proofs[n], Collect(d, proofs[..n]), places);
        assert Collect(d, proofs) == Collect(d, proofs[..n]);
      }
    }
  }

  ghost predicate ReportsOne(p: Proof, r: Report, median: real, spread: real) {
    var dev := Abs(ReductionOf(p) - median);
    && r.kind == "load_spike" && r.site == Site(p) && r.reading == ReductionOf(p)
    && r.score * spread == dev
    && r.severity == if dev > 5.0 * spread then Critical else Warning
  }

  ghost predicate OutliersAt(proofs: seq<Proof>, reports: seq<Report>, median: real, spread: real, places: seq<nat>) {
    && |places| == |reports| && Ascends(places)
    && (forall j :: 0 <= j < |places| ==>
         places[j] < |proofs| && ReportsOne(proofs[places[j]], reports[j], median, spread))
    && (forall i :: 0 <= i < |proofs| ==> (i in places <==> Abs(ReductionOf(proofs[i]) - median) > 3.0 * spread))
  }

  /**
   Exactly the readings farther than three spreads from the median are reported, in order, with their site, reading and
   distance in spreads; beyond five spreads critically.
   */
  ghost predicate ReportsOutliers(proofs: seq<Proof>, reports: seq<Report>, median: real, spread: real) {
    exists places :: OutliersAt(proofs, reports, median, spread, places)
  }

  lemma ListedOutliers(proofs: seq<Proof>, reports: seq<Report>, median: real, spread: real, places: seq<nat>)
    requires spread > 0.0 && Lists(Spike(median, spread), proofs, reports, places)
    ensures OutliersAt(proofs, reports, median, spread, places)
  {
    hide Judge, ReductionOf, Site;
    forall i | 0 <= i < |proofs| ensures i in places <==> Abs(ReductionOf(proofs[i]) - median) > 3.0 * spread {
      SpikeIff(proofs[i], median, spread);
    }
    forall j | 0 <= j < |places| ensures ReportsOne(proofs[places[j]], reports[j], median, spread) {
      SpikeIff(proofs[places[j]], median, spread);
    }
  }

  lemma SpikesReportOutliers(proofs: seq<Proof>)
    requires |proofs| >= 3
    ensures Statistics(Values(proofs), Median(Values(proofs)), Spread(Values(proofs)))
    ensures ReportsOutliers(proofs, Spikes(proofs), Median(Values(proofs)), Spread(Values(proofs)))
  {
    hide Median, Spread, Collect, Lists, OutliersAt, Statistics, Sensible;
    StatisticsFit(Values(proofs));
    SpreadPositive(Values(proofs));
    var median, spread := Median(Values(proofs)), Spread(Values(proofs));
    SensibleSpike(median, spread);
    var places := CollectLists(Spike(median, spread), proofs);
    ListedOutliers(proofs, Spikes(proofs), median, spread, places);
  }

  /** The reports are the outliers by the sample's own statistics. */
  ghost predicate JudgedBy(proofs: seq<Proof>, reports: seq<Report>, median: real, spread: real) {
    Statistics(Values(proofs), median, spread) && ReportsOutliers(proofs, reports, median, spread)
  }

  /** Fewer than three readings are not judged. */
  ghost predicate ReportsOwnOutliers(proofs: seq<Proof>, reports: seq<Report>) {
    if |proofs| < 3 then reports == [] else exists median, spread :: JudgedBy(proofs, reports, median, spread)
  }

  lemma SpikesJudged(proofs: seq<Proof>)
    ensures ReportsOwnOutliers(proofs, Spikes(proofs))
  {
    if |proofs| >= 3 {
      SpikesReportOutliers(proofs);
      hide Spikes, Statistics, ReportsOutliers, Median, Spread;
      assert JudgedBy(proofs, Spikes(proofs), Median(Values(proofs)), Spread(Values(proofs)));
    }
  }

  lemma SensibleSpike(median: real, spread: real)
    ensures spread != 0.0 ==> Sensible(Spike(median, spread))
  {
  }

  lemma SpreadPositive(values: seq<real>)
    requires values != []
    ensures Spread(values) > 0.0
  {
    DeviationsNonNegative(values, Median(values));
    hide Middle;
  }

  /** A proof's reading is its reduction, or its baseline less its use, absent numbers counting as nothing. */
  lemma ReadingIs(p: Proof)
    ensures p.reductionKwh.Some? ==> Some(ReductionOf(p)) == p.reductionKwh
    ensures p.reductionKwh.None? && p.baselineKwh.Some? && p.actualKwh.Some? ==>
              ReductionOf(p) + p.actualKwh.value == p.baselineKwh.value
    ensures p.reductionKwh.None? && p.baselineKwh.None? && p.actualKwh.Some? ==> ReductionOf(p) == -p.actualKwh.value
    ensures p.reductionKwh.None? && p.baselineKwh.Some? && p.actualKwh.None? ==> Some(ReductionOf(p)) == p.baselineKwh
    ensures p.reductionKwh.None? && p.baselineKwh.None? && p.actualKwh.None? ==> ReductionOf(p) == 0.0
  {
  }

  /** Of two proofs or more every mismatch is reported, of any number every drift from a non-zero expectation. */
  lemma OthersListed(proofs: seq<Proof>, expected: real) returns (mismatched: seq<nat>, drifted: seq<nat>)
    ensures |proofs| < 2 ==> Mismatches(proofs) == []
    ensures |proofs| >= 2 ==> Lists(Mismatch, proofs, Mismatches(proofs), mismatched)
    ensures expected == 0.0 ==> Drifts(proofs, expected) == []
    ensures expected != 0.0 ==> Lists(Drift(expected), proofs, Drifts(proofs, expected), drifted)
  {
    hide Lists, Judge;
    mismatched, drifted := [], [];
    if |proofs| >= 2 {
      mismatched := CollectLists(Mismatch, proofs);
    }
    if expected != 0.0 {
      drifted := CollectLists(Drift(expected), proofs);
    }
  }

  // ---- The bound is reached for every n ----

  function Reading(x: real): Proof {
    Proof(None, Some(x), None, None)
  }

  /** Just over half of the sites at zero, the others at one hundred. */
  function Lopsided(n: nat): seq<Proof> {
    seq(n, i => Reading(if i <= n / 2 then 0.0 else 100.0))
  }

  lemma AscendingIsSorted(s: seq<real>)
    requires Ascending(s)
    ensures Sort(s) == s
  {
    SortSorts(s);
    AscendingUnique(Sort(s), s);
  }

  lemma {:induction false} CollectTail(d: Detector, proofs: seq<Proof>, k: nat)
    requires Sensible(d) && k <= |proofs|
    requires forall i :: 0 <= i < |proofs| ==> (Judge(d, proofs[i]).Some? <==> i >= k)
    ensures |Collect(d, proofs)| == |proofs| - k
    decreases |proofs|
  {
    if |proofs| > 0 {
      var n := |proofs| - 1;
      if k <= n {
        CollectTail(d, proofs[..n], k);
      } else {
        CollectTail(d, proofs[..n], n);
      }
    }
  }

  lemma BoundIsReached(n: nat)
    requires n >= 3
    ensures |Lopsided(n)| == n && |Spikes(Lopsided(n))| == n - (n / 2 + 1)
  {
    var proofs := Lopsided(n);
    var values := Values(proofs);
    forall i | 0 <= i < n ensures values[i] == if i <= n / 2 then 0.0 else 100.0 {
      assert proofs[i] == Reading(if i <= n / 2 then 0.0 else 100.0);
    }
    AscendingIsSorted(values);
    assert values[n / 2] == 0.0;
    assert Middle(values) == Sort(values)[n / 2] == values[n / 2];
    assert Median(values) == 0.0;
    var devs := Deviations(values, 0.0);
    assert devs == values;
    assert Middle(devs) == 0.0;
    hide Middle, Sort;
    assert Spread(values) == 1.0;
    CollectTail(Spike(0.0, 1.0), proofs, n / 2 + 1);
  }

  // ---- The order of the proofs does not matter ----

  lemma {:induction false} CollectConcat(d: Detector, a: seq<Proof>, b: seq<Proof>)
    requires Sensible(d)
    ensures Collect(d, a + b) == Collect(d, a) + Collect(d, b)
    decreases |b|
  {
    if b == [] {
      assert a + b == a;
    } else {
      assert (a + b)[..|a + b| - 1] == a + b[..|b| - 1];
      CollectConcat(d, a, b[..|b| - 1]);
    }
  }

  /** Take one element out of a permutation. */
  lemma FindAndRemove<T>(a: seq<T>, b: seq<T>) returns (i: nat)
    requires multiset(a) == multiset(b) && a != []
    ensures i < |b| && b[i] == a[|a| - 1]
    ensures b == b[..i] + [b[i]] + b[i + 1..]
    ensures multiset(a[..|a| - 1]) == multiset(b[..i] + b[i + 1..])
  {
    var x := a[|a| - 1];
    assert a == a[..|a| - 1] + [x];
    assert x in multiset(b);
    i :| 0 <= i < |b| && b[i] == x;
    assert b == b[..i] + [b[i]] + b[i + 1..];
    assert multiset(a) == multiset(a[..|a| - 1]) + multiset{x};
    assert multiset(b) == multiset(b[..i]) + multiset{x} + multiset(b[i + 1..]);
    assert multiset(b[..i] + b[i + 1..]) == multiset(b[..i]) + multiset(b[i + 1..]);
    assert multiset(a[..|a| - 1]) == multiset(a) - multiset{x};
    assert multiset(b[..i] + b[i + 1..]) == multiset(b) - multiset{x};
  }

  lemma {:induction false} CollectPermutes(d: Detector, a: seq<Proof>, b: seq<Proof>)
    requires Sensible(d) && multiset(a) == multiset(b)
    ensures multiset(Collect(d, a)) == multiset(Collect(d, b))
    decreases |a|
  {
    assert |a| == |multiset(a)| == |multiset(b)| == |b|;
    if a != [] {
      var i := FindAndRemove(a, b);
      CollectPermutes(d, a[..|a| - 1], b[..i] + b[i + 1..]);
      CollectConcat(d, b[..i], b[i + 1..]);
      CollectConcat(d, b[..i], [b[i]]);
      CollectConcat(d, b[..i] + [b[i]], b[i + 1..]);
      CollectOne(d, b[i]);
    }
  }

  lemma CollectOne(d: Detector, p: Proof)
    requires Sensible(d)
    ensures Collect(d, [p]) == AsList(Judge(d, p))
  {
    assert [p][..0] == [];
  }

  lemma {:induction false} ValuesPermute(a: seq<Proof>, b: seq<Proof>)
    requires multiset(a) == multiset(b)
    ensures multiset(Values(a)) == multiset(Values(b))
    decreases |a|
  {
    assert |a| == |multiset(a)| == |multiset(b)| == |b|;
    if a != [] {
      var n := |a| - 1;
      var i := FindAndRemove(a, b);
      ValuesPermute(a[..n], b[..i] + b[i + 1..]);
      assert Values(a) == Values(a[..n]) + [ReductionOf(a[n])];
      assert Values(b) == Values(b[..i]) + [ReductionOf(b[i])] + Values(b[i + 1..]);
      assert Values(b[..i] + b[i + 1..]) == Values(b[..i]) + Values(b[i + 1..]);
    }
  }

  lemma DeviationsConcat(a: seq<real>, b: seq<real>, median: real)
    ensures Deviations(a + b, median) == Deviations(a, median) + Deviations(b, median)
  {
    hide Abs;
  }

  lemma DeviationsOne(x: real, median: real)
    ensures Deviations([x], median) == [Abs(x - median)]
  {
  }

  lemma {:induction false} DeviationsPermute(a: seq<real>, b: seq<real>, median: real)
    requires multiset(a) == multiset(b)
    ensures multiset(Deviations(a, median)) == multiset(Deviations(b, median))
    decreases |a|
  {
    assert |a| == |multiset(a)| == |multiset(b)| == |b|;
    if a != [] {
      var n := |a| - 1;
      var i := FindAndRemove(a, b);
      var x, left, right := a[n], b[..i], b[i + 1..];
      assert a == a[..n] + [x];
      DeviationsPermute(a[..n], left + right, median);
      DeviationsConcat(a[..n], [x], median);
      DeviationsConcat(left, right, median);
      DeviationsConcat(left, [x], median);
      DeviationsConcat(left + [x], right, median);
      DeviationsOne(x, median);
      hide Deviations;
      assert b == left + [x] + right;
    }
  }

  /** The flagged sites, with their readings and scores, do not depend on the order of the proofs. */
  lemma SpikesPermute(a: seq<Proof>, b: seq<Proof>)
    requires multiset(a) == multiset(b)
    ensures multiset(Spikes(a)) == multiset(Spikes(b))
  {
    assert |a| == |multiset(a)| == |multiset(b)| == |b|;
    if |a| >= 3 {
      ValuesPermute(a, b);
      StatisticsPermute(Values(a), Values(b));
      CollectPermutes(Spike(Median(Values(a)), Spread(Values(a))), a, b);
      hide Median, Spread, Collect, Values;
    }
  }

  lemma MiddlePermutes(a: seq<real>, b: seq<real>)
    requires multiset(a) == multiset(b) && a != [] && b != []
    ensures Middle(a) == Middle(b)
  {
    hide Sort;
    assert |a| == |multiset(a)| == |multiset(b)| == |b|;
    SortDependsOnValues(a, b);
  }

  lemma StatisticsPermute(a: seq<real>, b: seq<real>)
    requires multiset(a) == multiset(b) && a != [] && b != []
    ensures Median(a) == Median(b) && Spread(a) == Spread(b)
  {
    hide Middle;
    MiddlePermutes(a, b);
    DeviationsPermute(a, b, Median(a));
    MiddlePermutes(Deviations(a, Median(a)), Deviations(b, Median(a)));
  }

  // ---- The verdict ----

  function Rank(s: Severity): nat {
    match s
    case Info => 0
    case Warning => 1
    case Critical => 2
  }

  /** Python's max by key: the first of the reports with the greatest severity. */
  ghost predicate IsWorst(reports: seq<Report>, worst: Report) {
    exists i :: 0 <= i < |reports| && reports[i] == worst
      && (forall j :: 0 <= j < i ==> Rank(reports[j].severity) < Rank(worst.severity))
      && (forall j :: i <= j < |reports| ==> Rank(reports[j].severity) <= Rank(worst.severity))
  }

  function AllReports(proofs: seq<Proof>, baseline: Option<Option<real>>): seq<Report> {
    Spikes(proofs) + Mismatches(proofs) + (if baseline.Some? then Drifts(proofs, OrZero(baseline.value)) else [])
  }

  lemma WorstPermutes(a: seq<Report>, b: seq<Report>, x: Report, y: Report)
    requires multiset(a) == multiset(b) && IsWorst(a, x) && IsWorst(b, y)
    ensures x.severity == y.severity
  {
    assert x in multiset(a) && y in multiset(b);
    assert x in b && y in a;
  }

  lemma ReportsPermute(a: seq<Proof>, b: seq<Proof>, baseline: Option<Option<real>>)
    requires multiset(a) == multiset(b)
    ensures multiset(AllReports(a, baseline)) == multiset(AllReports(b, baseline))
  {
    assert |a| == |multiset(a)| == |multiset(b)| == |b|;
    SpikesPermute(a, b);
    CollectPermutes(Mismatch, a, b);
    if baseline.Some? && OrZero(baseline.value) != 0.0 {
      CollectPermutes(Drift(OrZero(baseline.value)), a, b);
    }
  }

  /** Whether there is an anomaly, and how severe the reported one is, does not depend on the order of the proofs. */
  lemma VerdictPermutes(a: seq<Proof>, b: seq<Proof>, baseline: Option<Option<real>>, x: Report, y: Report)
    requires multiset(a) == multiset(b)
    requires IsWorst(AllReports(a, baseline), x) && IsWorst(AllReports(b, baseline), y)
    ensures x.severity == y.severity
  {
    ReportsPermute(a, b, baseline);
    WorstPermutes(AllReports(a, baseline), AllReports(b, baseline), x, y);
  }

  class AgentProvider {
    var anomalyCount: nat

    constructor ()
      ensures anomalyCount == 0
    {
      anomalyCount := 0;
    }

    method RunDetector(d: Detector, proofs: seq<Proof>) returns (reports: seq<Report>)
      requires Sensible(d)
      ensures reports == Collect(d, proofs)
    {
      reports := [];
      var i := 0;
      while i < |proofs|
        invariant 0 <= i <= |proofs|
        invariant reports == Collect(d, proofs[..i])
      {
        assert proofs[..i + 1][..i] == proofs[..i];
        var r := Judge(d, proofs[i]);
        if r.Some? {
          reports := reports + [r.value];
        }
        i := i + 1;
      }
      assert proofs[..i] == proofs;
    }

    method DetectLoadSpikes(proofs: seq<Proof>) returns (reports: seq<Report>)
      ensures reports == Spikes(proofs)
      ensures ReportsOwnOutliers(proofs, reports)
    {
      hide ReportsOwnOutliers, Insert, Ascending;
      SpikesJudged(proofs);
      var values: seq<real> := [];
      var i := 0;
      while i < |proofs|
        invariant 0 <= i <= |proofs|
        invariant values == Values(proofs[..i])
      {
        values := values + [ReductionOf(proofs[i])];
        i := i + 1;
      }
      assert proofs[..i] == proofs;
      if |values| < 3 { return []; }
      SortSorts(values);
      var median := Sort(values)[|values| / 2];
      var devs := Deviations(values, median);
      SortSorts(devs);
      var mad := Sort(devs)[|values| / 2];
      if mad == 0.0 {
        mad := if Abs(median) * 0.1 > 1.0 then Abs(median) * 0.1 else 1.0;
      }
      reports := RunDetector(Spike(median, mad), proofs);
    }

    method Worst(reports: seq<Report>) returns (worst: Report)
      requires reports != []
      ensures IsWorst(reports, worst)
    {
      worst := reports[0];
      var i := 1;
      while i < |reports|
        invariant 1 <= i <= |reports|
        invariant IsWorst(reports[..i], worst)
      {
        ghost var before := worst;
        if Rank(reports[i].severity) > Rank(worst.severity) {
          worst := reports[i];
        }
        WorstOfMore(reports[..i], reports[i], before);
        assert reports[..i + 1] == reports[..i] + [reports[i]];
        i := i + 1;
      }
      assert reports[..i] == reports;
    }

    /** The worst report, and one more counted anomaly exactly when there is one. */
    method DetectAnomaly(proofs: seq<Proof>, baseline: Option<Option<real>>) returns (verdict: Option<Report>)
      modifies this
      ensures verdict.None? <==> AllReports(proofs, baseline) == []
      ensures verdict.Some? ==> IsWorst(AllReports(proofs, baseline), verdict.value)
      ensures anomalyCount == old(anomalyCount) + Bit(verdict.Some?)
    {
      if |proofs| == 0 { return None; }
      var anomalies := DetectLoadSpikes(proofs);
      if |proofs| >= 2 {
        var more := RunDetector(Mismatch, proofs);
        anomalies := anomalies + more;
      }
      if baseline.Some? {
        if OrZero(baseline.value) != 0.0 {
          var more := RunDetector(Drift(OrZero(baseline.value)), proofs);
          anomalies := anomalies + more;
        }
      }
      assert anomalies == AllReports(proofs, baseline);
      if |anomalies| == 0 { return None; }
      anomalyCount := anomalyCount + 1;
      var worst := Worst(anomalies);
      return Some(worst);
    }
  }

  lemma WorstOfMore(reports: seq<Report>, r: Report, worst: Report)
    requires IsWorst(reports, worst)
    ensures IsWorst(reports + [r], if Rank(r.severity) > Rank(worst.severity) then r else worst)
  {
    var all := reports + [r];
    if Rank(r.severity) > Rank(worst.severity) {
      assert all[|reports|] == r;
    } else {
      var i :| 0 <= i < |reports| && reports[i] == worst
        && (forall j :: 0 <= j < i ==> Rank(reports[j].severity) < Rank(worst.severity))
        && (forall j :: i <= j < |reports| ==> Rank(reports[j].severity) <= Rank(worst.severity));
      assert all[i] == worst;
    }
  }
}
