/** The fixed seed fleet and the dashboard statistics, recomputed wholesale
    from the whole list of dustbins. */
module Dustbins {
  import opened Types

  /** The eight dustbins the application starts with; `now` stands for the
      creation time every record is stamped with. */
  function InitialDustbins(now: int): (bins: seq<Dustbin>)
    ensures |bins| == 8
  {
    [ Dustbin(1001, Location(40.7128, -74.006, "Central Park East, New York"), 0, 100, now, Normal, 100, General),
      Dustbin(1002, Location(40.7138, -74.013, "Madison Square, New York"), 30, 100, now, Normal, 92, Recyclable),
      Dustbin(1003, Location(40.7118, -74.009, "Bryant Park, New York"), 88, 100, now, Critical, 64, Organic),
      Dustbin(1004, Location(40.7148, -74.016, "Union Square, New York"), 45, 100, now, Normal, 78, General),
      Dustbin(1005, Location(40.7158, -74.003, "Battery Park, New York"), 92, 100, now, Critical, 56, Recyclable),
      Dustbin(1006, Location(40.7168, -74.018, "Washington Square Park, New York"), 15, 100, now, Normal, 94, Organic),
      Dustbin(1007, Location(40.7108, -74.001, "High Line Park, New York"), 68, 100, now, Warning, 72, General),
      Dustbin(1008, Location(40.7188, -74.011, "Times Square, New York"), 50, 100, now, Normal, 83, Recyclable) ]
  }

  /** The seed fleet has ids 1001 to 1008 in order, every level in [0, 100],
      and the live bin 1001 starts empty, fully charged and normal. */
  lemma SeedFleet(now: int)
    ensures var bins := InitialDustbins(now);
      && (forall i :: 0 <= i < |bins| ==> bins[i].id == 1001 + i)
      && (forall i, j :: 0 <= i < j < |bins| ==> bins[i].id != bins[j].id)
      && (forall i :: 0 <= i < |bins| ==> 0 <= bins[i].fillLevel <= 100 && 0 <= bins[i].batteryLevel <= 100)
      && bins[0].id == LiveBinId && bins[0].fillLevel == 0 && bins[0].batteryLevel == 100 && bins[0].status == Normal
  {
  }

  /** Status is not a function of fill in the seed: bin 1008 is at 50 yet
      `normal`, whereas the thresholds give `warning`. */
  lemma SeedStatusDisagreesWithFill(now: int)
    ensures var b := InitialDustbins(now)[7];
      b.id == 1008 && b.fillLevel == 50 && b.status == Normal && DeriveStatus(b.fillLevel) == Warning
  {
  }

  /** 1 for a critical dustbin, 0 otherwise. */
  function CriticalMark(b: Dustbin): nat
  {
    if b.status == Critical then 1 else 0
  }

  /** The number of critical dustbins, counted over the whole list. */
  function CountCritical(bins: seq<Dustbin>): (c: nat)
    ensures c <= |bins|
  {
    if bins == [] then 0 else CriticalMark(bins[0]) + CountCritical(bins[1..])
  }

  /** The statuses of the fleet, in list order. */
  function Statuses(bins: seq<Dustbin>): (ss: seq<Status>)
    ensures |ss| == |bins|
    ensures forall i :: 0 <= i < |bins| ==> ss[i] == bins[i].status
  {
    seq(|bins|, i requires 0 <= i < |bins| => bins[i].status)
  }

  /** The critical count is the multiplicity of `critical` among the statuses. */
  lemma {:induction false} CountCriticalIsMultiplicity(bins: seq<Dustbin>)
    ensures CountCritical(bins) == multiset(Statuses(bins))[Critical]
  {
    if bins != [] {
      CountCriticalIsMultiplicity(bins[1..]);
      assert Statuses(bins) == [bins[0].status] + Statuses(bins[1..]);
    }
  }

  /** Replacing one dustbin changes the recount exactly by the difference of
      the two marks: recounting and patching agree. */
  lemma {:induction false} CountCriticalAfterReplace(bins: seq<Dustbin>, i: int, b: Dustbin)
    requires 0 <= i < |bins|
    ensures CountCritical(bins[i := b]) + CriticalMark(bins[i]) == CountCritical(bins) + CriticalMark(b)
  {
    if i > 0 {
      CountCriticalAfterReplace(bins[1..], i - 1, b);
      assert bins[i := b][1..] == bins[1..][i - 1 := b];
    } else {
      assert bins[i := b][1..] == bins[1..];
    }
  }

  /** The sum of the fill levels of the whole list. */
  function SumFill(bins: seq<Dustbin>): int
  {
    if bins == [] then 0 else bins[0].fillLevel + SumFill(bins[1..])
  }

  /** Fill levels in [0, 100] give a sum in [0, 100 * n]. */
  lemma {:induction false} SumFillBounds(bins: seq<Dustbin>)
    requires forall i :: 0 <= i < |bins| ==> 0 <= bins[i].fillLevel <= 100
    ensures 0 <= SumFill(bins) <= 100 * |bins|
  {
    if bins != [] {
      SumFillBounds(bins[1..]);
    }
  }

  function Min(a: int, b: int): int
  {
    if a <= b then a else b
  }

  lemma DivSelf(t: real)
    requires t > 0.0
    ensures t / t == 1.0
  {
  }

  /** The efficiency score: 100, minus 50 times the critical share, minus 20
      when the average fill is above 70, plus 10 when more than 15
      collections were made; floored and capped at 100. */
  function EfficiencyScore(critical: nat, total: nat, avg: real, collections: int): (score: int)
    requires total > 0
    ensures score <= 100
    ensures critical == 0 && avg <= 70.0 ==> score == 100
    ensures critical == total && avg > 70.0 && collections <= 15 ==> score == 30
  {
    var share := critical as real / total as real;
    DivSelf(total as real);
    assert critical == 0 ==> share == 0.0;
    Min(100, (100.0 - share * 50.0
              - (if avg > 70.0 then 20.0 else 0.0)
              + (if collections > 15 then 10.0 else 0.0)).Floor)
  }

  /** The score never exceeds 100 and, with no more critical bins than bins,
      never drops below 30. */
  lemma EfficiencyBounds(critical: nat, total: nat, avg: real, collections: int)
    requires 0 < total && critical <= total
    ensures 30 <= EfficiencyScore(critical, total, avg, collections) <= 100
  {
    var share := critical as real / total as real;
    assert share * (total as real) == critical as real;
    assert share <= 1.0;
  }

  /** The average enters the score only through the strict test `avg > 70`. */
  lemma EfficiencyPenaltyOnlyAbove70(critical: nat, total: nat, avg: real, collections: int)
    requires total > 0
    ensures avg <= 70.0 ==> EfficiencyScore(critical, total, avg, collections) == EfficiencyScore(critical, total, 0.0, collections)
    ensures avg > 70.0 ==> EfficiencyScore(critical, total, avg, collections) == EfficiencyScore(critical, total, 100.0, collections)
    ensures EfficiencyScore(critical, total, 100.0, collections) <= EfficiencyScore(critical, total, 0.0, collections)
  {
  }

  /** More critical bins never raise the score. */
  lemma EfficiencyMonotoneInCritical(c1: nat, c2: nat, total: nat, avg: real, collections: int)
    requires 0 < total && c1 <= c2
    ensures EfficiencyScore(c2, total, avg, collections) <= EfficiencyScore(c1, total, avg, collections)
  {
    var t := total as real;
    assert (c1 as real) / t <= (c2 as real) / t by {
      assert (c1 as real) / t * t == c1 as real;
      assert (c2 as real) / t * t == c2 as real;
    }
  }

  /** The quotient `sum / total` as a real, and the strict test against 70. */
  lemma AverageFacts(sum: int, total: nat)
    requires total > 0
    ensures (sum as real / total as real) * total as real == sum as real
    ensures (sum as real / total as real) > 70.0 <==> sum > 70 * total
  {
    var t := total as real;
    var avg := sum as real / t;
    assert avg * t == sum as real;
    var d := avg - 70.0;
    assert d * t == sum as real - 70.0 * t;
    assert d > 0.0 ==> d * t > 0.0;
    assert d <= 0.0 ==> d * t <= 0.0;
  }

  /** The average fill: the sum divided by the count. */
  function Average(sum: int, total: nat): (avg: real)
    requires total > 0
    ensures avg * total as real == sum as real
    ensures avg > 70.0 <==> sum > 70 * total
  {
    AverageFacts(sum, total);
    sum as real / total as real
  }

  /** Recomputes the statistics from the whole list. `draw` stands for the
      random `floor(random * 5)`, so the collection count is `15 + draw`. An
      empty list is excluded: the source divides by its length. */
  function CalculateStats(bins: seq<Dustbin>, draw: int): (s: DustbinStats)
    requires |bins| > 0 && 0 <= draw < 5
    ensures s.criticalBins == CountCritical(bins)
    ensures s.avgFillLevel * |bins| as real == SumFill(bins) as real
    ensures s.avgFillLevel > 70.0 <==> SumFill(bins) > 70 * |bins|
    ensures 15 <= s.totalCollections <= 19
    ensures 30 <= s.efficiencyScore <= 100
    ensures s.efficiencyScore == EfficiencyScore(s.criticalBins, |bins|, s.avgFillLevel, s.totalCollections)
  {
    var total := |bins|;
    var critical := CountCritical(bins);
    var avg := Average(SumFill(bins), total);
    var collections := draw + 15;
    EfficiencyBounds(critical, total, avg, collections);
    DustbinStats(collections, avg, critical, EfficiencyScore(critical, total, avg, collections))
  }

  /** The recorded critical count is the number of `critical` statuses in
      the list, whatever the draw. */
  lemma CalculateStatsCountsCritical(bins: seq<Dustbin>, draw: int)
    requires |bins| > 0 && 0 <= draw < 5
    ensures CalculateStats(bins, draw).criticalBins == multiset(Statuses(bins))[Critical]
  {
    CountCriticalIsMultiplicity(bins);
  }

  /** The seed fleet's statistics: two critical bins, an average of 48.5, and
      a score of 87, or 97 when more than 15 collections were drawn. */
  lemma SeedStats(now: int, draw: int)
    requires 0 <= draw < 5
    ensures var s := CalculateStats(InitialDustbins(now), draw);
      s.criticalBins == 2 && s.avgFillLevel == 48.5
      && s.efficiencyScore == (if draw > 0 then 97 else 87)
  {
    var bins := InitialDustbins(now);
    assert CountCritical(bins[7..]) == 0 && SumFill(bins[7..]) == 50;
    assert CountCritical(bins[6..]) == 0 && SumFill(bins[6..]) == 118;
    assert CountCritical(bins[5..]) == 0 && SumFill(bins[5..]) == 133;
    assert CountCritical(bins[4..]) == 1 && SumFill(bins[4..]) == 225;
    assert CountCritical(bins[3..]) == 1 && SumFill(bins[3..]) == 270;
    assert CountCritical(bins[2..]) == 2 && SumFill(bins[2..]) == 358;
    assert CountCritical(bins[1..]) == 2 && SumFill(bins[1..]) == 388;
    assert CountCritical(bins) == 2 && SumFill(bins) == 388;
    AverageFacts(388, 8);
  }
}
