/**
 * Why execKmeans's loop is worth running: each pass of "recompute the centroids, then relabel the
 * samples" never raises the distortion that calcClusterDistance reports, and a pass that changes
 * nothing leaves at most 3/4 per sample, below the len(vectors) that kmeans starts its search from.
 */
module Descent {
  import opened Colors
  import opened Kmeans

  // ------------------------------------------------------------------ one channel at a time

  /** Channel k of a color: 0 is R, 1 is G, anything else B. */
  function Channel(c: Color, k: nat): real {
    if k == 0 then c.r else if k == 1 then c.g else c.b
  }

  /** The sum of one channel over a list of colors. */
  function ChannelSum(cs: seq<Color>, k: nat): real
    decreases |cs|
  {
    if cs == [] then 0.0 else ChannelSum(cs[..|cs| - 1], k) + Channel(cs[|cs| - 1], k)
  }

  /** The sum of one channel's squares over a list of colors. */
  function ChannelSquares(cs: seq<Color>, k: nat): real
    decreases |cs|
  {
    if cs == [] then 0.0
    else
      var a := Channel(cs[|cs| - 1], k);
      ChannelSquares(cs[..|cs| - 1], k) + a * a
  }

  /** The sum of one channel's squared deviations from y. */
  function ChannelDeviation(cs: seq<Color>, y: real, k: nat): real
    decreases |cs|
  {
    if cs == [] then 0.0
    else
      var a := Channel(cs[|cs| - 1], k);
      ChannelDeviation(cs[..|cs| - 1], y, k) + (a - y) * (a - y)
  }

  /** The cost of one cluster: the distances from its members to a candidate centre. */
  function ClusterCost(cs: seq<Color>, x: Color): (d: real)
    ensures d >= 0.0
    decreases |cs|
  {
    if cs == [] then 0.0 else ClusterCost(cs[..|cs| - 1], x) + Distance(cs[|cs| - 1], x)
  }

  /** Channel k of the component-wise sum is the sum of channel k. */
  lemma {:induction false} SumColorsChannel(cs: seq<Color>, k: nat)
    ensures Channel(SumColors(cs), k) == ChannelSum(cs, k)
    decreases |cs|
  {
    if cs != [] {
      SumColorsChannel(cs[..|cs| - 1], k);
    }
  }

  /** A cluster's cost splits into the three channels' deviations. */
  lemma {:induction false} ClusterCostByChannel(cs: seq<Color>, x: Color)
    ensures ClusterCost(cs, x) == ChannelDeviation(cs, x.r, 0) + ChannelDeviation(cs, x.g, 1) + ChannelDeviation(cs, x.b, 2)
    decreases |cs|
  {
    if cs != [] {
      var p, c := cs[..|cs| - 1], cs[|cs| - 1];
      ClusterCostByChannel(p, x);
      DistanceByChannel(c, x);
      SplitStep(ClusterCost(cs, x), ClusterCost(p, x), Distance(c, x),
        ChannelDeviation(cs, x.r, 0), ChannelDeviation(p, x.r, 0), (Channel(c, 0) - x.r) * (Channel(c, 0) - x.r),
        ChannelDeviation(cs, x.g, 1), ChannelDeviation(p, x.g, 1), (Channel(c, 1) - x.g) * (Channel(c, 1) - x.g),
        ChannelDeviation(cs, x.b, 2), ChannelDeviation(p, x.b, 2), (Channel(c, 2) - x.b) * (Channel(c, 2) - x.b));
    }
  }

  /** calcDistance, channel by channel. */
  lemma DistanceByChannel(c: Color, x: Color)
    ensures Distance(c, x) == (Channel(c, 0) - x.r) * (Channel(c, 0) - x.r)
      + (Channel(c, 1) - x.g) * (Channel(c, 1) - x.g) + (Channel(c, 2) - x.b) * (Channel(c, 2) - x.b)
  {
  }

  /** The bookkeeping behind one step of ClusterCostByChannel. */
  lemma SplitStep(cost: real, cost': real, d: real, r: real, r': real, dr: real, g: real, g': real, dg: real,
                  b: real, b': real, db: real)
    requires cost == cost' + d && d == dr + dg + db
    requires r == r' + dr && g == g' + dg && b == b' + db
    requires cost' == r' + g' + b'
    ensures cost == r + g + b
  {
  }

  /** The expanded form of a sum of squared deviations from y: squares - 2 y sum + n y^2. */
  function Expanded(squares: real, sum: real, n: real, y: real): real {
    squares - 2.0 * y * sum + n * (y * y)
  }

  /** The deviation from y, expanded. */
  lemma {:induction false} DeviationExpand(cs: seq<Color>, y: real, k: nat)
    ensures ChannelDeviation(cs, y, k) == Expanded(ChannelSquares(cs, k), ChannelSum(cs, k), |cs| as real, y)
    decreases |cs|
  {
    if cs != [] {
      var p := cs[..|cs| - 1];
      var a := Channel(cs[|cs| - 1], k);
      DeviationExpand(p, y, k);
      ExpandStep(ChannelDeviation(cs, y, k), ChannelDeviation(p, y, k), ChannelSquares(cs, k), ChannelSquares(p, k),
        ChannelSum(cs, k), ChannelSum(p, k), |cs| as real, |p| as real, a, y);
    }
  }

  /** The arithmetic behind one step of DeviationExpand. */
  lemma ExpandStep(dev: real, dev': real, sq: real, sq': real, sum: real, sum': real, m: real, m': real, a: real, y: real)
    requires dev == dev' + (a - y) * (a - y) && sq == sq' + a * a && sum == sum' + a && m == m' + 1.0
    requires dev' == Expanded(sq', sum', m', y)
    ensures dev == Expanded(sq, sum, m, y)
  {
    assert (a - y) * (a - y) == a * a - 2.0 * y * a + y * y;
    assert 2.0 * y * sum == 2.0 * y * sum' + 2.0 * y * a;
    assert m * (y * y) == m' * (y * y) + y * y;
  }

  /** The channel mean mu minimises the channel's deviation: any y deviates more, by n (y - mu)^2. */
  lemma MeanMinimisesChannel(cs: seq<Color>, y: real, k: nat, mu: real)
    requires cs != []
    requires mu == ChannelSum(cs, k) / (|cs| as real)
    ensures ChannelDeviation(cs, mu, k) <= ChannelDeviation(cs, y, k)
  {
    DeviationExpand(cs, y, k);
    DeviationExpand(cs, mu, k);
    MeanArith(ChannelDeviation(cs, y, k), ChannelDeviation(cs, mu, k), ChannelSquares(cs, k), ChannelSum(cs, k),
      |cs| as real, y, mu);
  }

  /** The arithmetic behind MeanMinimisesChannel. */
  lemma MeanArith(dev: real, devMu: real, sq: real, s: real, n: real, y: real, mu: real)
    requires n > 0.0 && mu == s / n
    requires dev == Expanded(sq, s, n, y)
    requires devMu == Expanded(sq, s, n, mu)
    ensures dev == devMu + n * ((y - mu) * (y - mu))
    ensures devMu <= dev
  {
    assert s == n * mu;
    assert 2.0 * y * s == 2.0 * n * (y * mu);
    assert 2.0 * mu * s == 2.0 * n * (mu * mu);
    assert n * ((y - mu) * (y - mu)) == n * (y * y) - 2.0 * n * (y * mu) + n * (mu * mu);
    SquareBounds(y, mu);
    assert n * ((y - mu) * (y - mu)) >= 0.0;
  }

  /** Each channel of the mean is that channel's sum over the member count. */
  lemma MeanByChannel(cs: seq<Color>)
    requires cs != []
    ensures var m, n := Mean(cs), |cs| as real;
      m.r == ChannelSum(cs, 0) / n && m.g == ChannelSum(cs, 1) / n && m.b == ChannelSum(cs, 2) / n
  {
    SumColorsChannel(cs, 0);
    SumColorsChannel(cs, 1);
    SumColorsChannel(cs, 2);
  }

  /** resetCenterVector's mean is the best centre for its members: no other color gives them a lower cost. */
  lemma MeanMinimises(cs: seq<Color>, x: Color)
    ensures ClusterCost(cs, Mean(cs)) <= ClusterCost(cs, x)
  {
    if cs != [] {
      var m := Mean(cs);
      MeanByChannel(cs);
      ClusterCostByChannel(cs, m);
      ClusterCostByChannel(cs, x);
      MeanMinimisesChannel(cs, x.r, 0, m.r);
      MeanMinimisesChannel(cs, x.g, 1, m.g);
      MeanMinimisesChannel(cs, x.b, 2, m.b);
    }
  }

  /** For unit-range values the squares never exceed the values. */
  lemma {:induction false} SquaresBelowSum(cs: seq<Color>, k: nat)
    requires forall c :: c in cs ==> InUnitCube(c)
    ensures ChannelSquares(cs, k) <= ChannelSum(cs, k)
    decreases |cs|
  {
    if cs != [] {
      var p, a := cs[..|cs| - 1], Channel(cs[|cs| - 1], k);
      assert cs[|cs| - 1] in cs;
      forall c | c in p
        ensures InUnitCube(c)
      {
        assert c in cs;
      }
      SquaresBelowSum(p, k);
      assert 0.0 <= a <= 1.0;
      SquareBelowValue(ChannelSquares(cs, k), ChannelSquares(p, k), ChannelSum(cs, k), ChannelSum(p, k), a);
    }
  }

  /** A value in [0, 1] is at least its square, so adding both keeps squares <= sum. */
  lemma SquareBelowValue(sq: real, sq': real, sum: real, sum': real, a: real)
    requires 0.0 <= a <= 1.0 && sq' <= sum'
    requires sq == sq' + a * a && sum == sum' + a
    ensures sq <= sum
  {
    assert a * a <= a * 1.0;
  }

  /** Unit-range members deviate from their channel mean by at most n / 4 in total. */
  lemma ChannelVarianceBound(cs: seq<Color>, k: nat)
    requires cs != []
    requires forall c :: c in cs ==> InUnitCube(c)
    ensures ChannelDeviation(cs, ChannelSum(cs, k) / (|cs| as real), k) <= 0.25 * (|cs| as real)
  {
    SquaresBelowSum(cs, k);
    ChannelVarianceArith(cs, k, ChannelSum(cs, k) / (|cs| as real));
  }

  /** With squares <= sum, the deviation from the channel mean mu is squares - n mu^2 <= n mu (1 - mu) <= n / 4. */
  lemma ChannelVarianceArith(cs: seq<Color>, k: nat, mu: real)
    requires cs != []
    requires ChannelSquares(cs, k) <= ChannelSum(cs, k)
    requires mu == ChannelSum(cs, k) / (|cs| as real)
    ensures ChannelDeviation(cs, mu, k) <= 0.25 * (|cs| as real)
  {
    DeviationExpand(cs, mu, k);
    VarianceArith(ChannelDeviation(cs, mu, k), ChannelSquares(cs, k), ChannelSum(cs, k), |cs| as real, mu);
  }

  /** The arithmetic behind ChannelVarianceArith. */
  lemma VarianceArith(dev: real, sq: real, s: real, n: real, mu: real)
    requires n > 0.0 && sq <= s && mu == s / n
    requires dev == Expanded(sq, s, n, mu)
    ensures dev <= 0.25 * n
  {
    assert s == n * mu;
    assert 2.0 * mu * s == 2.0 * n * (mu * mu);
    var e := mu - 0.5;
    assert e * e >= 0.0;
    assert n * (e * e) >= 0.0;
    assert n * mu - n * (mu * mu) == 0.25 * n - n * (e * e);
  }

  /** A cluster of unit-range members costs at most 3/4 per member around its mean. */
  lemma MeanCostBound(cs: seq<Color>)
    requires forall c :: c in cs ==> InUnitCube(c)
    ensures ClusterCost(cs, Mean(cs)) <= 0.75 * (|cs| as real)
  {
    if cs != [] {
      var m := Mean(cs);
      var n := |cs| as real;
      SumColorsChannel(cs, 0);
      SumColorsChannel(cs, 1);
      SumColorsChannel(cs, 2);
      assert m.r == ChannelSum(cs, 0) / n && m.g == ChannelSum(cs, 1) / n && m.b == ChannelSum(cs, 2) / n;
      ClusterCostByChannel(cs, m);
      ChannelVarianceBound(cs, 0);
      ChannelVarianceBound(cs, 1);
      ChannelVarianceBound(cs, 2);
    }
  }

  // ------------------------------------------------------------------ distortion by cluster

  /** The sum of the first m entries of a list of reals. */
  function Total(xs: seq<real>, m: nat): real
    requires m <= |xs|
    decreases m
  {
    if m == 0 then 0.0 else Total(xs, m - 1) + xs[m - 1]
  }

  /** Totals add up entry by entry. */
  lemma {:induction false} TotalAdd(xs: seq<real>, ys: seq<real>, zs: seq<real>, m: nat)
    requires m <= |xs| == |ys| == |zs|
    requires forall j :: 0 <= j < |xs| ==> xs[j] == ys[j] + zs[j]
    ensures Total(xs, m) == Total(ys, m) + Total(zs, m)
    decreases m
  {
    if m > 0 {
      TotalAdd(xs, ys, zs, m - 1);
    }
  }

  /** Lowering every entry lowers the total. */
  lemma {:induction false} TotalMonotone(xs: seq<real>, ys: seq<real>, m: nat)
    requires m <= |xs| == |ys|
    requires forall j :: 0 <= j < |xs| ==> xs[j] <= ys[j]
    ensures Total(xs, m) <= Total(ys, m)
    decreases m
  {
    if m > 0 {
      TotalMonotone(xs, ys, m - 1);
    }
  }

  /** Scaling every entry by 3/4 scales the total by 3/4. */
  lemma {:induction false} TotalThreeQuarters(xs: seq<real>, ys: seq<real>, m: nat)
    requires m <= |xs| == |ys|
    requires forall j :: 0 <= j < |xs| ==> ys[j] == 0.75 * xs[j]
    ensures Total(ys, m) == 0.75 * Total(xs, m)
    decreases m
  {
    if m > 0 {
      TotalThreeQuarters(xs, ys, m - 1);
    }
  }

  /** A list of zeros totals zero. */
  lemma {:induction false} TotalOfZeros(xs: seq<real>, m: nat)
    requires m <= |xs|
    requires forall j :: 0 <= j < |xs| ==> xs[j] == 0.0
    ensures Total(xs, m) == 0.0
    decreases m
  {
    if m > 0 {
      TotalOfZeros(xs, m - 1);
    }
  }

  /** Each centroid's cost against the samples carrying its label. */
  function ClusterCosts(vectors: seq<ImageVector>, clusters: seq<ImageVector>): seq<real> {
    seq(|clusters|, j requires 0 <= j < |clusters| => ClusterCost(Members(vectors, clusters[j].group), clusters[j].color))
  }

  /** How many samples carry each centroid's label. */
  function ClusterSizes(vectors: seq<ImageVector>, clusters: seq<ImageVector>): seq<real> {
    seq(|clusters|, j requires 0 <= j < |clusters| => |Members(vectors, clusters[j].group)| as real)
  }

  /** What one sample adds to each centroid's cost: its distance if it carries that centroid's label. */
  function Matches(vector: ImageVector, clusters: seq<ImageVector>): seq<real> {
    seq(|clusters|, j requires 0 <= j < |clusters| =>
      if clusters[j].group == vector.group then Distance(vector.color, clusters[j].color) else 0.0)
  }

  /** What one sample adds to each centroid's size: 1 if it carries that centroid's label. */
  function Hits(vector: ImageVector, clusters: seq<ImageVector>): seq<real> {
    seq(|clusters|, j requires 0 <= j < |clusters| => if clusters[j].group == vector.group then 1.0 else 0.0)
  }

  /** Appending a color adds its distance to a cluster's cost. */
  lemma ClusterCostSnoc(cs: seq<Color>, c: Color, x: Color)
    ensures ClusterCost(cs + [c], x) == ClusterCost(cs, x) + Distance(c, x)
  {
    assert (cs + [c])[..|cs|] == cs;
  }

  /** One more sample adds its matches to the centroids' costs and its hits to their sizes. */
  lemma ClustersSnoc(vectors: seq<ImageVector>, v: ImageVector, clusters: seq<ImageVector>)
    ensures forall j :: 0 <= j < |clusters| ==>
      ClusterCosts(vectors + [v], clusters)[j] == ClusterCosts(vectors, clusters)[j] + Matches(v, clusters)[j]
    ensures forall j :: 0 <= j < |clusters| ==>
      ClusterSizes(vectors + [v], clusters)[j] == ClusterSizes(vectors, clusters)[j] + Hits(v, clusters)[j]
  {
    forall j | 0 <= j < |clusters|
      ensures ClusterCosts(vectors + [v], clusters)[j] == ClusterCosts(vectors, clusters)[j] + Matches(v, clusters)[j]
      ensures ClusterSizes(vectors + [v], clusters)[j] == ClusterSizes(vectors, clusters)[j] + Hits(v, clusters)[j]
    {
      var c := clusters[j];
      MembersSnoc(vectors, v, c.group);
      if v.group == c.group {
        ClusterCostSnoc(Members(vectors, c.group), v.color, c.color);
      } else {
        assert Members(vectors + [v], c.group) == Members(vectors, c.group);
      }
    }
  }

  /**
   * With distinct labels a sample matches at most the first centroid carrying its label: its matches total
   * its calcClusterDistance share, and its hits at most 1.
   */
  lemma {:induction false} MatchesTotal(vector: ImageVector, clusters: seq<ImageVector>, m: nat)
    requires DistinctLabels(clusters) && m <= |clusters|
    ensures var k := FirstWithGroup(clusters, vector.group);
      && Total(Matches(vector, clusters), m) == (if 0 <= k < m then Distance(vector.color, clusters[k].color) else 0.0)
      && Total(Hits(vector, clusters), m) == (if 0 <= k < m then 1.0 else 0.0)
    decreases m
  {
    if m > 0 {
      MatchesTotal(vector, clusters, m - 1);
      var k := FirstWithGroup(clusters, vector.group);
      if clusters[m - 1].group == vector.group {
        assert k == m - 1;
      }
    }
  }

  /**
   * With distinct labels, calcClusterDistance's sum over samples is the sum over centroids of each one's
   * cost against its members, and the centroids claim no more samples than there are.
   */
  lemma {:induction false} DistortionByCluster(vectors: seq<ImageVector>, clusters: seq<ImageVector>)
    requires DistinctLabels(clusters)
    ensures Distortion(vectors, clusters) == Total(ClusterCosts(vectors, clusters), |clusters|)
    ensures Total(ClusterSizes(vectors, clusters), |clusters|) <= |vectors| as real
    decreases |vectors|
  {
    if vectors == [] {
      TotalOfZeros(ClusterCosts(vectors, clusters), |clusters|);
      TotalOfZeros(ClusterSizes(vectors, clusters), |clusters|);
    } else {
      var p, v := vectors[..|vectors| - 1], vectors[|vectors| - 1];
      assert vectors == p + [v];
      DistortionByCluster(p, clusters);
      ClustersSnoc(p, v, clusters);
      TotalAdd(ClusterCosts(vectors, clusters), ClusterCosts(p, clusters), Matches(v, clusters), |clusters|);
      TotalAdd(ClusterSizes(vectors, clusters), ClusterSizes(p, clusters), Hits(v, clusters), |clusters|);
      MatchesTotal(v, clusters, |clusters|);
    }
  }

  // ------------------------------------------------------------------ the two halves of a pass

  /** resetCenterVector never raises the distortion: each centroid moves to the mean of its members. */
  lemma RecomputeDescends(vectors: seq<ImageVector>, clusters: seq<ImageVector>)
    requires DistinctLabels(clusters)
    ensures Distortion(vectors, Recompute(vectors, clusters)) <= Distortion(vectors, clusters)
  {
    var next := Recompute(vectors, clusters);
    assert DistinctLabels(next) by {
      RecomputeKeepsLabels(vectors, clusters);
      assert forall j :: 0 <= j < |next| ==> next[j].group == Labels(next)[j] == Labels(clusters)[j] == clusters[j].group;
    }
    DistortionByCluster(vectors, clusters);
    DistortionByCluster(vectors, next);
    forall j | 0 <= j < |clusters|
      ensures ClusterCosts(vectors, next)[j] <= ClusterCosts(vectors, clusters)[j]
    {
      MeanMinimises(Members(vectors, clusters[j].group), clusters[j].color);
    }
    TotalMonotone(ClusterCosts(vectors, next), ClusterCosts(vectors, clusters), |clusters|);
  }

  /** Centroids that resetCenterVector leaves unchanged cost at most 3/4 per sample. */
  lemma FixedPointBound(vectors: seq<ImageVector>, clusters: seq<ImageVector>)
    requires DistinctLabels(clusters)
    requires forall i :: 0 <= i < |vectors| ==> InUnitCube(vectors[i].color)
    requires Recompute(vectors, clusters) == clusters
    ensures Distortion(vectors, clusters) <= 0.75 * (|vectors| as real)
  {
    var costs, sizes := ClusterCosts(vectors, clusters), ClusterSizes(vectors, clusters);
    var bounds := seq(|clusters|, j requires 0 <= j < |clusters| => 0.75 * sizes[j]);
    DistortionByCluster(vectors, clusters);
    forall j | 0 <= j < |clusters|
      ensures costs[j] <= bounds[j]
    {
      assert Recompute(vectors, clusters)[j] == clusters[j];
      MembersInUnitCube(vectors, clusters[j].group);
      MeanCostBound(Members(vectors, clusters[j].group));
    }
    TotalMonotone(costs, bounds, |clusters|);
    TotalThreeQuarters(sizes, bounds, |clusters|);
  }

  /** With labels 1..n, label g sits at index g - 1. */
  lemma LabelledIndex(clusters: seq<ImageVector>, g: int)
    requires Labelled(clusters) && 1 <= g <= |clusters|
    ensures FirstWithGroup(clusters, g) == g - 1
  {
    var k := FirstWithGroup(clusters, g);
    assert clusters[g - 1].group == g;
  }

  /** The state every pass starts from: labels 1..n, unit-range colors, each sample carrying a centroid's label. */
  predicate Invariant(samples: seq<ImageVector>, centroids: seq<ImageVector>) {
    && |centroids| > 0
    && Labelled(centroids)
    && (forall j :: 0 <= j < |centroids| ==> InUnitCube(centroids[j].color))
    && (forall i :: 0 <= i < |samples| ==> InUnitCube(samples[i].color) && 1 <= samples[i].group <= |centroids|)
  }

  /** detectGroup moves a sample to a label whose centroid is at least as close as its current label's. */
  lemma DetectGroupDescends(vector: ImageVector, clusters: seq<ImageVector>)
    requires |clusters| > 0 && Labelled(clusters)
    requires forall j :: 0 <= j < |clusters| ==> InUnitCube(clusters[j].color)
    requires InUnitCube(vector.color) && 1 <= vector.group <= |clusters|
    ensures var relabelled := vector.(group := NearestGroup(vector.color, clusters));
      && 1 <= relabelled.group <= |clusters|
      && SampleCost(relabelled, clusters) <= SampleCost(vector, clusters)
  {
    NearestExists(vector.color, clusters);
    var k := FirstNearest(vector.color, clusters);
    LabelledIndex(clusters, k + 1);
    LabelledIndex(clusters, vector.group);
  }

  /** The relabelling half of a pass keeps the invariant and never raises the distortion. */
  lemma AssignDescends(samples: seq<ImageVector>, clusters: seq<ImageVector>)
    requires Invariant(samples, clusters)
    ensures Invariant(Assign(samples, clusters), clusters)
    ensures Distortion(Assign(samples, clusters), clusters) <= Distortion(samples, clusters)
  {
    var relabelled := Assign(samples, clusters);
    forall i | 0 <= i < |samples|
      ensures 1 <= relabelled[i].group <= |clusters|
      ensures SampleCosts(relabelled, clusters)[i] <= SampleCosts(samples, clusters)[i]
    {
      DetectGroupDescends(samples[i], clusters);
    }
    DistortionIsTotal(relabelled, clusters, |samples|);
    DistortionIsTotal(samples, clusters, |samples|);
    assert relabelled[..|samples|] == relabelled && samples[..|samples|] == samples;
    TotalMonotone(SampleCosts(relabelled, clusters), SampleCosts(samples, clusters), |samples|);
  }

  /** Each sample's share of the distortion. */
  function SampleCosts(vectors: seq<ImageVector>, clusters: seq<ImageVector>): seq<real> {
    seq(|vectors|, i requires 0 <= i < |vectors| => SampleCost(vectors[i], clusters))
  }

  /** The distortion of the first m samples is the total of their shares. */
  lemma {:induction false} DistortionIsTotal(vectors: seq<ImageVector>, clusters: seq<ImageVector>, m: nat)
    requires m <= |vectors|
    ensures Distortion(vectors[..m], clusters) == Total(SampleCosts(vectors, clusters), m)
    decreases m
  {
    if m > 0 {
      DistortionIsTotal(vectors, clusters, m - 1);
      assert vectors[..m][..m - 1] == vectors[..m - 1];
    }
  }

  /** One pass of execKmeans, recompute then relabel, keeps the invariant and never raises the distortion. */
  lemma PassDescends(samples: seq<ImageVector>, centroids: seq<ImageVector>)
    requires Invariant(samples, centroids)
    ensures var next := Recompute(samples, centroids);
      && Invariant(Assign(samples, next), next)
      && Distortion(Assign(samples, next), next) <= Distortion(samples, centroids)
  {
    var next := Recompute(samples, centroids);
    RecomputeDescends(samples, centroids);
    RecomputeKeepsLabels(samples, centroids);
    forall j | 0 <= j < |next|
      ensures next[j].group == j + 1 && InUnitCube(next[j].color)
    {
      assert next[j].group == Labels(next)[j] == Labels(centroids)[j];
      MembersInUnitCube(samples, centroids[j].group);
      MeanInUnitCube(Members(samples, centroids[j].group));
    }
    AssignDescends(samples, next);
  }

  // ------------------------------------------------------------------ the whole loop

  /** A loop whose every pass keeps an invariant and never raises a cost ends no higher than it started. */
  lemma {:induction false} IterateDescends(relabel: Step, recompute: Step,
                                           inv: (seq<ImageVector>, seq<ImageVector>) -> bool,
                                           cost: (seq<ImageVector>, seq<ImageVector>) -> real,
                                           samples: seq<ImageVector>, centroids: seq<ImageVector>, fuel: nat)
    requires inv(samples, centroids)
    requires forall s, c :: inv(s, c) ==>
      && inv(relabel(s, recompute(s, c)), recompute(s, c))
      && cost(relabel(s, recompute(s, c)), recompute(s, c)) <= cost(s, c)
    ensures var r := Iterate(relabel, recompute, samples, centroids, fuel);
      inv(r.samples, r.centroids) && cost(r.samples, r.centroids) <= cost(samples, centroids)
    decreases fuel
  {
    if fuel > 0 {
      var next := recompute(samples, centroids);
      if next != centroids {
        IterateDescends(relabel, recompute, inv, cost, relabel(samples, next), next, fuel - 1);
      }
    }
  }

  /** execKmeans's loop keeps the invariant and ends with a distortion no higher than it started with. */
  lemma LloydDescends(samples: seq<ImageVector>, centroids: seq<ImageVector>, fuel: nat)
    requires Invariant(samples, centroids)
    ensures var r := Lloyd(samples, centroids, fuel);
      Invariant(r.samples, r.centroids) && Distortion(r.samples, r.centroids) <= Distortion(samples, centroids)
  {
    forall s, c | Invariant(s, c)
      ensures Invariant(Assign(s, Recompute(s, c)), Recompute(s, c))
      ensures Distortion(Assign(s, Recompute(s, c)), Recompute(s, c)) <= Distortion(s, c)
    {
      PassDescends(s, c);
    }
    IterateDescends(Assign, Recompute, Invariant, Distortion, samples, centroids, fuel);
  }

  /** initVector's centroids and the first detectGroup pass establish the invariant. */
  lemma InitialInvariant(vectors: seq<ImageVector>, seeds: seq<Color>)
    requires |seeds| > 0
    requires forall j :: 0 <= j < |seeds| ==> InUnitCube(seeds[j])
    requires forall i :: 0 <= i < |vectors| ==> InUnitCube(vectors[i].color)
    ensures Invariant(Assign(vectors, Initial(seeds)), Initial(seeds))
  {
    var initial := Initial(seeds);
    forall i | 0 <= i < |vectors|
      ensures 1 <= Assign(vectors, initial)[i].group <= |initial|
    {
      NearestExists(vectors[i].color, initial);
    }
  }

  /**
   * A run of execKmeans from unit-range samples and seeds reports a distortion no higher than that of the
   * first assignment to initVector's centroids, and, when its loop stopped by convergence, at most 3/4 per sample.
   */
  lemma KmeansRunDescends(vectors: seq<ImageVector>, seeds: seq<Color>, fuel: nat)
    requires |seeds| > 0
    requires forall j :: 0 <= j < |seeds| ==> InUnitCube(seeds[j])
    requires forall i :: 0 <= i < |vectors| ==> InUnitCube(vectors[i].color)
    ensures var initial := Initial(seeds);
      KmeansRun(vectors, seeds, fuel).distance <= Distortion(Assign(vectors, initial), initial)
    ensures var initial := Initial(seeds);
      Lloyd(Assign(vectors, initial), initial, fuel).converged ==>
        KmeansRun(vectors, seeds, fuel).distance <= 0.75 * (|vectors| as real)
  {
    var initial := Initial(seeds);
    var r := Lloyd(Assign(vectors, initial), initial, fuel);
    InitialInvariant(vectors, seeds);
    LloydDescends(Assign(vectors, initial), initial, fuel);
    LloydFixedPoint(vectors, initial, fuel);
    if r.converged {
      FixedPointBound(r.samples, r.centroids);
    }
  }

  /**
   * With at least one sample, a run that converged always beats kmeans's starting bound len(vectors), so
   * kmeans then returns that run or a better one and never the zero-valued fallback.
   */
  lemma ConvergedRunBeatsBound(vectors: seq<ImageVector>, seeds: seq<Color>, fuel: nat)
    requires |vectors| > 0 && |seeds| > 0
    requires forall j :: 0 <= j < |seeds| ==> InUnitCube(seeds[j])
    requires forall i :: 0 <= i < |vectors| ==> InUnitCube(vectors[i].color)
    requires Lloyd(Assign(vectors, Initial(seeds)), Initial(seeds), fuel).converged
    ensures KmeansRun(vectors, seeds, fuel).distance < |vectors| as real
  {
    KmeansRunDescends(vectors, seeds, fuel);
  }
}
