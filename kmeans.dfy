/**
 * The k-means engine of main.go: nearest-centroid assignment (detectGroup), centroid
 * initialisation (initVector) and recomputation (resetCenterVector), the exact convergence
 * test (checkEqual), the distortion (calcClusterDistance), one clustering run (execKmeans)
 * and the best-of-restarts selection (kmeans).
 *
 * Each loop of the source is a method proved against a specification function; the
 * properties the source relies on are proved about those functions.
 */
module Kmeans {
  import opened Colors

  /** detectGroup's starting "best distance": above any distance between unit-range colors (at most 3). */
  const Sentinel: real := 1024.0

  /** The number of independent restarts kmeans launches (loopCount). */
  const RestartCount: nat := 16

  // ------------------------------------------------------------------ detectGroup

  /** k is the first index of a centroid strictly nearest to v, and nearer than the sentinel. */
  ghost predicate IsFirstNearest(v: Color, clusters: seq<ImageVector>, k: int) {
    && 0 <= k < |clusters|
    && Distance(v, clusters[k].color) < Sentinel
    && (forall j :: 0 <= j < |clusters| ==> Distance(v, clusters[k].color) <= Distance(v, clusters[j].color))
    && (forall j :: 0 <= j < k ==> Distance(v, clusters[k].color) < Distance(v, clusters[j].color))
  }

  /**
   * The index of the centroid detectGroup settles on, scanning left to right and replacing
   * the best only on a strictly smaller distance; -1 when no centroid is below the sentinel.
   */
  function FirstNearest(v: Color, clusters: seq<ImageVector>): (k: int)
    ensures -1 <= k < |clusters|
    ensures k == -1 <==> forall j :: 0 <= j < |clusters| ==> Distance(v, clusters[j].color) >= Sentinel
    ensures k >= 0 ==> IsFirstNearest(v, clusters, k)
    decreases |clusters|
  {
    if clusters == [] then -1
    else
      var n := |clusters| - 1;
      var k := FirstNearest(v, clusters[..n]);
      var best := if k == -1 then Sentinel else Distance(v, clusters[k].color);
      if best > Distance(v, clusters[n].color) then n else k
  }

  /** The label detectGroup returns: that of the first nearest centroid, or -1 if there is none. */
  function NearestGroup(v: Color, clusters: seq<ImageVector>): int {
    var k := FirstNearest(v, clusters);
    if k == -1 then -1 else clusters[k].group
  }

  /**
   * With unit-range colors every distance is at most 3, below the sentinel, so detectGroup finds no
   * centroid exactly when the centroid list is empty.
   */
  lemma NearestExists(v: Color, clusters: seq<ImageVector>)
    requires InUnitCube(v)
    requires forall j :: 0 <= j < |clusters| ==> InUnitCube(clusters[j].color)
    ensures FirstNearest(v, clusters) == -1 <==> clusters == []
    ensures clusters != [] ==> NearestGroup(v, clusters) == clusters[FirstNearest(v, clusters)].group
  {
    if clusters != [] {
      assert Distance(v, clusters[0].color) <= 3.0;
    }
  }

  /** detectGroup: the label of the nearest centroid, first one winning ties. */
  method DetectGroup(vector: ImageVector, clusters: seq<ImageVector>) returns (group: int)
    ensures group == NearestGroup(vector.color, clusters)
  {
    group := -1;
    var distance := Sentinel;
    var i := 0;
    while i < |clusters|
      invariant 0 <= i <= |clusters|
      invariant group == NearestGroup(vector.color, clusters[..i])
      invariant distance == (var k := FirstNearest(vector.color, clusters[..i]);
                             if k == -1 then Sentinel else Distance(vector.color, clusters[k].color))
    {
      assert clusters[..i + 1][..i] == clusters[..i];
      var tmpDistance := Distance(vector.color, clusters[i].color);
      if distance > tmpDistance {
        distance := tmpDistance;
        group := clusters[i].group;
      }
      i := i + 1;
    }
    assert clusters[..i] == clusters;
  }

  // ------------------------------------------------------------------- initVector

  /** Centroid i carries the label i + 1, so the labels are 1..|clusters| and pairwise distinct. */
  predicate Labelled(clusters: seq<ImageVector>) {
    forall i :: 0 <= i < |clusters| ==> clusters[i].group == i + 1
  }

  /** No two centroids share a label. */
  predicate DistinctLabels(clusters: seq<ImageVector>) {
    forall i, j :: 0 <= i < j < |clusters| ==> clusters[i].group != clusters[j].group
  }

  /** The centroids initVector builds from one draw of random colors. */
  function Initial(seeds: seq<Color>): seq<ImageVector> {
    seq(|seeds|, i requires 0 <= i < |seeds| => ImageVector(seeds[i], i + 1))
  }

  /** initVector: one centroid per drawn color, labelled 1..size in order. */
  method InitVector(seeds: seq<Color>) returns (resultVectors: seq<ImageVector>)
    ensures |resultVectors| == |seeds|
    ensures forall i :: 0 <= i < |seeds| ==> resultVectors[i].color == seeds[i]
    ensures Labelled(resultVectors) && DistinctLabels(resultVectors)
  {
    var tmpVectors := new ImageVector[|seeds|];
    for i := 0 to |seeds|
      invariant forall j :: 0 <= j < i ==> tmpVectors[j] == ImageVector(seeds[j], j + 1)
    {
      tmpVectors[i] := ImageVector(seeds[i], i + 1);
    }
    resultVectors := tmpVectors[..];
  }

  // ------------------------------------------------------------ resetCenterVector

  /** The colors of the samples carrying label group, in sample order. */
  function Members(vectors: seq<ImageVector>, group: int): (m: seq<Color>)
    ensures |m| <= |vectors|
    decreases |vectors|
  {
    if vectors == [] then []
    else
      var n := |vectors| - 1;
      Members(vectors[..n], group) + (if vectors[n].group == group then [vectors[n].color] else [])
  }

  /** Component-wise sum of colors. */
  function SumColors(cs: seq<Color>): Color
    decreases |cs|
  {
    if cs == [] then Black
    else
      var s := SumColors(cs[..|cs| - 1]);
      var c := cs[|cs| - 1];
      Color(s.r + c.r, s.g + c.g, s.b + c.b)
  }

  /** Appending one color adds it to the sum. */
  lemma SumColorsSnoc(cs: seq<Color>, c: Color)
    ensures SumColors(cs + [c]) == Color(SumColors(cs).r + c.r, SumColors(cs).g + c.g, SumColors(cs).b + c.b)
  {
    assert (cs + [c])[..|cs|] == cs;
  }

  /** Members of unit-range samples are unit-range colors. */
  lemma {:induction false} MembersInUnitCube(vectors: seq<ImageVector>, group: int)
    requires forall i :: 0 <= i < |vectors| ==> InUnitCube(vectors[i].color)
    ensures forall c :: c in Members(vectors, group) ==> InUnitCube(c)
    decreases |vectors|
  {
    if vectors != [] {
      MembersInUnitCube(vectors[..|vectors| - 1], group);
    }
  }

  /** Appending one sample appends its color to the members of its own label only. */
  lemma MembersSnoc(vectors: seq<ImageVector>, v: ImageVector, group: int)
    ensures Members(vectors + [v], group) == Members(vectors, group) + (if v.group == group then [v.color] else [])
  {
    assert (vectors + [v])[..|vectors|] == vectors;
  }

  /** One more sample either adds its color to the running sum and count of a label, or leaves both alone. */
  lemma MembersStep(vectors: seq<ImageVector>, i: nat, group: int)
    requires i < |vectors|
    ensures var before := Members(vectors[..i], group);
      var after := Members(vectors[..i + 1], group);
      var s := SumColors(before);
      var c := vectors[i].color;
      if vectors[i].group == group then
        SumColors(after) == Color(s.r + c.r, s.g + c.g, s.b + c.b) && |after| == |before| + 1
      else
        after == before
  {
    assert vectors[..i + 1] == vectors[..i] + [vectors[i]];
    MembersSnoc(vectors[..i], vectors[i], group);
    if vectors[i].group == group {
      SumColorsSnoc(Members(vectors[..i], group), vectors[i].color);
    } else {
      assert Members(vectors[..i], group) + [] == Members(vectors[..i], group);
    }
  }

  /** Component-wise mean; the zero color when there is nothing to average. */
  function Mean(cs: seq<Color>): Color {
    if cs == [] then Black
    else
      var s, n := SumColors(cs), |cs| as real;
      Color(s.r / n, s.g / n, s.b / n)
  }

  /** The centroid resetCenterVector computes: same label, color the mean of the label's members. */
  function ResetCenter(vectors: seq<ImageVector>, cluster: ImageVector): ImageVector {
    ImageVector(Mean(Members(vectors, cluster.group)), cluster.group)
  }

  /** Each channel of a sum of n unit-range colors lies in [0, n]. */
  lemma {:induction false} SumColorsBounds(cs: seq<Color>)
    requires forall c :: c in cs ==> InUnitCube(c)
    ensures var s := SumColors(cs); var n := |cs| as real;
      0.0 <= s.r <= n && 0.0 <= s.g <= n && 0.0 <= s.b <= n
    decreases |cs|
  {
    if cs != [] {
      assert cs[|cs| - 1] in cs;
      SumColorsBounds(cs[..|cs| - 1]);
    }
  }

  /** The mean of unit-range colors is a unit-range color. */
  lemma MeanInUnitCube(cs: seq<Color>)
    requires forall c :: c in cs ==> InUnitCube(c)
    ensures InUnitCube(Mean(cs))
  {
    if cs != [] {
      SumColorsBounds(cs);
      var s, n := SumColors(cs), |cs| as real;
      assert s.r / n <= 1.0 && s.g / n <= 1.0 && s.b / n <= 1.0 by {
        assert s.r <= n * 1.0 && s.g <= n * 1.0 && s.b <= n * 1.0;
      }
    }
  }

  /** The sum of n copies of one color is n times it. */
  lemma {:induction false} SumOfCopies(c: Color, n: nat)
    ensures SumColors(seq(n, _ => c)) == Color(n as real * c.r, n as real * c.g, n as real * c.b)
  {
    if n > 0 {
      assert seq(n, _ => c)[..n - 1] == seq(n - 1, _ => c);
      SumOfCopies(c, n - 1);
    }
  }

  /** A cluster whose members all share one color has that color as its mean. */
  lemma MeanOfCopies(c: Color, n: nat)
    requires n > 0
    ensures Mean(seq(n, _ => c)) == c
  {
    SumOfCopies(c, n);
  }

  /** resetCenterVector: the label is kept and the color becomes the members' mean, or (0,0,0) when there are none. */
  method ResetCenterVector(vectors: seq<ImageVector>, cluster: ImageVector) returns (newVector: ImageVector)
    ensures newVector == ResetCenter(vectors, cluster)
    ensures newVector.group == cluster.group
    ensures Members(vectors, cluster.group) == [] ==> newVector.color == Black
  {
    var r, g, b := 0.0, 0.0, 0.0;
    var count := 0.0;
    var i := 0;
    while i < |vectors|
      invariant 0 <= i <= |vectors|
      invariant Color(r, g, b) == SumColors(Members(vectors[..i], cluster.group))
      invariant count == |Members(vectors[..i], cluster.group)| as real
    {
      MembersStep(vectors, i, cluster.group);
      if cluster.group == vectors[i].group {
        r := r + vectors[i].color.r;
        g := g + vectors[i].color.g;
        b := b + vectors[i].color.b;
        count := count + 1.0;
      }
      i := i + 1;
    }
    assert vectors[..i] == vectors;
    if count != 0.0 {
      r, g, b := r / count, g / count, b / count;
    }
    newVector := ImageVector(Color(r, g, b), cluster.group);
  }

  // ------------------------------------------------------------------- checkEqual

  /** checkEqual: true exactly when both lists have the same length and agree on R, G, B and label at every index. */
  method CheckEqual(prev: seq<ImageVector>, after: seq<ImageVector>) returns (equal: bool)
    ensures equal <==> prev == after
  {
    if |prev| != |after| {
      return false;
    }
    var i := 0;
    while i < |prev|
      invariant 0 <= i <= |prev|
      invariant forall j :: 0 <= j < i ==> prev[j] == after[j]
    {
      if prev[i].color.r != after[i].color.r || prev[i].color.g != after[i].color.g
        || prev[i].color.b != after[i].color.b || prev[i].group != after[i].group
      {
        return false;
      }
      i := i + 1;
    }
    return true;
  }

  // ---------------------------------------------------------- calcClusterDistance

  /** The index of the first centroid with label group, or -1 when no centroid has it. */
  function FirstWithGroup(clusters: seq<ImageVector>, group: int): (k: int)
    ensures -1 <= k < |clusters|
    ensures k == -1 <==> forall j :: 0 <= j < |clusters| ==> clusters[j].group != group
    ensures k >= 0 ==> clusters[k].group == group && forall j :: 0 <= j < k ==> clusters[j].group != group
    decreases |clusters|
  {
    if clusters == [] then -1
    else if clusters[0].group == group then 0
    else
      var k := FirstWithGroup(clusters[1..], group);
      if k == -1 then -1 else k + 1
  }

  /** One sample's share of the distortion: its distance to the first centroid with its label, 0 if none. */
  function SampleCost(vector: ImageVector, clusters: seq<ImageVector>): real {
    var k := FirstWithGroup(clusters, vector.group);
    if k == -1 then 0.0 else Distance(vector.color, clusters[k].color)
  }

  /** The distortion: the sum of the samples' costs. */
  function Distortion(vectors: seq<ImageVector>, clusters: seq<ImageVector>): (d: real)
    ensures d >= 0.0
    decreases |vectors|
  {
    if vectors == [] then 0.0
    else
      var n := |vectors| - 1;
      Distortion(vectors[..n], clusters) + SampleCost(vectors[n], clusters)
  }

  /** calcClusterDistance: the distortion of the samples against the centroids. */
  method CalcClusterDistance(vectors: seq<ImageVector>, clusters: seq<ImageVector>) returns (distance: real)
    ensures distance == Distortion(vectors, clusters)
    ensures distance >= 0.0
  {
    distance := 0.0;
    var i := 0;
    while i < |vectors|
      invariant 0 <= i <= |vectors|
      invariant distance == Distortion(vectors[..i], clusters)
    {
      assert vectors[..i + 1][..i] == vectors[..i];
      var vector := vectors[i];
      var j := 0;
      ghost var before := distance;
      while j < |clusters|
        invariant 0 <= j <= |clusters|
        invariant distance == before
        invariant forall l :: 0 <= l < j ==> clusters[l].group != vector.group
      {
        if clusters[j].group == vector.group {
          distance := distance + Distance(vector.color, clusters[j].color);
          break;
        }
        j := j + 1;
      }
      assert distance == before + SampleCost(vector, clusters);
      i := i + 1;
    }
    assert vectors[..i] == vectors;
  }

  // ------------------------------------------------------------------- execKmeans

  /** Every sample relabelled by detectGroup against clusters; colors are untouched. */
  function Assign(vectors: seq<ImageVector>, clusters: seq<ImageVector>): seq<ImageVector> {
    seq(|vectors|, i requires 0 <= i < |vectors| => vectors[i].(group := NearestGroup(vectors[i].color, clusters)))
  }

  /** Every centroid recomputed by resetCenterVector from the labelled samples. */
  function Recompute(vectors: seq<ImageVector>, clusters: seq<ImageVector>): seq<ImageVector> {
    seq(|clusters|, i requires 0 <= i < |clusters| => ResetCenter(vectors, clusters[i]))
  }

  /** The state of a run: labelled samples, centroids, and whether the last pass changed nothing. */
  datatype Clustering = Clustering(samples: seq<ImageVector>, centroids: seq<ImageVector>, converged: bool)

  /** One half of a pass: relabel samples against centroids, or recompute centroids from labelled samples. */
  type Step = (seq<ImageVector>, seq<ImageVector>) -> seq<ImageVector>

  /**
   * The loop of execKmeans over given relabel and recompute steps, starting from samples
   * already labelled against centroids, with at most fuel passes: recompute; stop if nothing
   * changed; otherwise relabel against the new centroids and go round again.
   */
  function Iterate(relabel: Step, recompute: Step, samples: seq<ImageVector>, centroids: seq<ImageVector>, fuel: nat): Clustering
    decreases fuel
  {
    if fuel == 0 then Clustering(samples, centroids, false)
    else
      var next := recompute(samples, centroids);
      if next == centroids then Clustering(samples, next, true)
      else Iterate(relabel, recompute, relabel(samples, next), next, fuel - 1)
  }

  /** The loop of execKmeans with detectGroup relabelling and resetCenterVector recomputation. */
  function Lloyd(samples: seq<ImageVector>, centroids: seq<ImageVector>, fuel: nat): Clustering {
    Iterate(Assign, Recompute, samples, centroids, fuel)
  }

  /** One run's result: its centroids and its distortion (kmeansVector). */
  datatype KmeansVector = KmeansVector(centroids: seq<ImageVector>, distance: real)

  /** The result of execKmeans from one draw of initial colors, with at most fuel passes. */
  function KmeansRun(vectors: seq<ImageVector>, seeds: seq<Color>, fuel: nat): KmeansVector {
    var initial := Initial(seeds);
    var final := Lloyd(Assign(vectors, initial), initial, fuel);
    KmeansVector(final.centroids, Distortion(final.samples, final.centroids))
  }

  /** The labels of a centroid list, in order. */
  function Labels(clusters: seq<ImageVector>): seq<int> {
    seq(|clusters|, i requires 0 <= i < |clusters| => clusters[i].group)
  }

  /** Relabelling depends only on the samples' colors. */
  lemma AssignIgnoresLabels(vectors: seq<ImageVector>, c1: seq<ImageVector>, c2: seq<ImageVector>)
    ensures Assign(Assign(vectors, c1), c2) == Assign(vectors, c2)
  {
  }

  /** resetCenterVector keeps every label, so recomputation keeps the centroid list's length and labels. */
  lemma RecomputeKeepsLabels(vectors: seq<ImageVector>, clusters: seq<ImageVector>)
    ensures Labels(Recompute(vectors, clusters)) == Labels(clusters)
  {
  }

  /** A loop whose recompute step keeps labels never changes the centroids' labels. */
  lemma {:induction false} IterateKeepsLabels(relabel: Step, recompute: Step, samples: seq<ImageVector>,
                                              centroids: seq<ImageVector>, fuel: nat)
    requires forall s, c :: Labels(recompute(s, c)) == Labels(c)
    ensures Labels(Iterate(relabel, recompute, samples, centroids, fuel).centroids) == Labels(centroids)
    decreases fuel
  {
    if fuel > 0 {
      var next := recompute(samples, centroids);
      if next != centroids {
        IterateKeepsLabels(relabel, recompute, relabel(samples, next), next, fuel - 1);
      }
    }
  }

  /**
   * A loop whose relabel step depends only on the samples' colors ends with the samples
   * labelled against its final centroids.
   */
  lemma {:induction false} IterateKeepsAssignment(relabel: Step, recompute: Step, vectors: seq<ImageVector>,
                                                  centroids: seq<ImageVector>, fuel: nat)
    requires forall c1, c2 :: relabel(relabel(vectors, c1), c2) == relabel(vectors, c2)
    ensures var r := Iterate(relabel, recompute, relabel(vectors, centroids), centroids, fuel);
      r.samples == relabel(vectors, r.centroids)
    decreases fuel
  {
    if fuel > 0 {
      var next := recompute(relabel(vectors, centroids), centroids);
      if next != centroids {
        IterateKeepsAssignment(relabel, recompute, vectors, next, fuel - 1);
      }
    }
  }

  /** A loop that stops by convergence stops at a fixed point of its recompute step. */
  lemma {:induction false} IterateFixedPoint(relabel: Step, recompute: Step, samples: seq<ImageVector>,
                                             centroids: seq<ImageVector>, fuel: nat)
    ensures var r := Iterate(relabel, recompute, samples, centroids, fuel);
      r.converged ==> recompute(r.samples, r.centroids) == r.centroids
    decreases fuel
  {
    if fuel > 0 {
      var next := recompute(samples, centroids);
      if next != centroids {
        IterateFixedPoint(relabel, recompute, relabel(samples, next), next, fuel - 1);
      }
    }
  }

  /** execKmeans never changes how many centroids there are nor their labels. */
  lemma LloydKeepsLabels(samples: seq<ImageVector>, centroids: seq<ImageVector>, fuel: nat)
    ensures Labels(Lloyd(samples, centroids, fuel).centroids) == Labels(centroids)
  {
    forall s, c ensures Labels(Recompute(s, c)) == Labels(c) {
      RecomputeKeepsLabels(s, c);
    }
    IterateKeepsLabels(Assign, Recompute, samples, centroids, fuel);
  }

  /**
   * When execKmeans stops by convergence, its samples are labelled against its final centroids
   * and recomputing from those labels gives back the same centroids.
   */
  lemma LloydFixedPoint(vectors: seq<ImageVector>, centroids: seq<ImageVector>, fuel: nat)
    ensures var r := Lloyd(Assign(vectors, centroids), centroids, fuel);
      && r.samples == Assign(vectors, r.centroids)
      && (r.converged ==> Recompute(r.samples, r.centroids) == r.centroids)
  {
    forall c1, c2 ensures Assign(Assign(vectors, c1), c2) == Assign(vectors, c2) {
      AssignIgnoresLabels(vectors, c1, c2);
    }
    IterateKeepsAssignment(Assign, Recompute, vectors, centroids, fuel);
    IterateFixedPoint(Assign, Recompute, Assign(vectors, centroids), centroids, fuel);
  }

  /** A run returns exactly one centroid per drawn color, labelled 1..size, with a non-negative distortion. */
  lemma KmeansRunShape(vectors: seq<ImageVector>, seeds: seq<Color>, fuel: nat)
    ensures var run := KmeansRun(vectors, seeds, fuel);
      |run.centroids| == |seeds| && Labelled(run.centroids) && run.distance >= 0.0
  {
    var initial := Initial(seeds);
    LloydKeepsLabels(Assign(vectors, initial), initial, fuel);
    var final := Lloyd(Assign(vectors, initial), initial, fuel);
    assert |Labels(final.centroids)| == |Labels(initial)|;
    forall i | 0 <= i < |final.centroids| ensures final.centroids[i].group == i + 1 {
      assert Labels(final.centroids)[i] == Labels(initial)[i];
    }
  }

  /** execKmeans's relabelling loop, run in place on the run's own copy of the samples. */
  method AssignGroups(samples: array<ImageVector>, clusters: seq<ImageVector>)
    modifies samples
    ensures samples[..] == Assign(old(samples[..]), clusters)
  {
    var i := 0;
    while i < samples.Length
      invariant 0 <= i <= samples.Length
      invariant forall j :: 0 <= j < i ==>
        samples[j] == old(samples[j]).(group := NearestGroup(old(samples[j]).color, clusters))
      invariant forall j :: i <= j < samples.Length ==> samples[j] == old(samples[j])
    {
      var group := DetectGroup(samples[i], clusters);
      samples[i] := samples[i].(group := group);
      i := i + 1;
    }
  }

  /** execKmeans's recomputation loop, replacing each centroid in place. */
  method RecomputeCenters(samples: seq<ImageVector>, resultVectors: array<ImageVector>)
    modifies resultVectors
    ensures resultVectors[..] == Recompute(samples, old(resultVectors[..]))
  {
    var i := 0;
    while i < resultVectors.Length
      invariant 0 <= i <= resultVectors.Length
      invariant forall j :: 0 <= j < i ==> resultVectors[j] == ResetCenter(samples, old(resultVectors[j]))
      invariant forall j :: i <= j < resultVectors.Length ==> resultVectors[j] == old(resultVectors[j])
    {
      resultVectors[i] := ResetCenterVector(samples, resultVectors[i]);
      i := i + 1;
    }
  }

  /**
   * execKmeans: label the samples against freshly initialised centroids, then recompute and
   * relabel until a pass leaves the centroids unchanged (or maxIterations passes are spent),
   * and report the centroids with their distortion.
   */
  method ExecKmeans(vectors: seq<ImageVector>, seeds: seq<Color>, maxIterations: nat) returns (result: KmeansVector)
    ensures result == KmeansRun(vectors, seeds, maxIterations)
  {
    var initial := InitVector(seeds);
    assert initial == Initial(seeds);
    var resultVectors := new ImageVector[|initial|](i requires 0 <= i < |initial| => initial[i]);
    var samples := new ImageVector[|vectors|](i requires 0 <= i < |vectors| => vectors[i]);
    assert resultVectors[..] == initial && samples[..] == vectors;
    AssignGroups(samples, resultVectors[..]);
    ghost var goal := Lloyd(samples[..], resultVectors[..], maxIterations);
    var iterations := 0;
    var converged := false;
    while !converged && iterations < maxIterations
      invariant 0 <= iterations <= maxIterations
      invariant !converged ==> Lloyd(samples[..], resultVectors[..], maxIterations - iterations) == goal
      invariant converged ==> Clustering(samples[..], resultVectors[..], true) == goal
      decreases maxIterations - iterations, !converged
    {
      var copyVectors := resultVectors[..];
      RecomputeCenters(samples[..], resultVectors);
      converged := CheckEqual(copyVectors, resultVectors[..]);
      if !converged {
        AssignGroups(samples, resultVectors[..]);
      }
      iterations := iterations + 1;
    }
    var distance := CalcClusterDistance(samples[..], resultVectors[..]);
    result := KmeansVector(resultVectors[..], distance);
  }

  // ----------------------------------------------------------------------- kmeans

  /** The size zero-valued entries kmeans starts its result with. */
  function Zeros(size: nat): seq<ImageVector> {
    seq(size, _ => ImageVector(Black, 0))
  }

  /** Go's copy(dst, src): the first min(len(dst), len(src)) entries of dst are taken from src. */
  function CopyInto(dst: seq<ImageVector>, src: seq<ImageVector>): (r: seq<ImageVector>)
    ensures |r| == |dst|
    ensures forall i :: 0 <= i < |r| ==> r[i] == (if i < |src| then src[i] else dst[i])
  {
    if |src| >= |dst| then src[..|dst|] else src + dst[|src|..]
  }

  /**
   * kmeans: run execKmeans once per restart, each on its own copy of the samples, and keep the
   * first run whose distortion is strictly below the best so far, starting from len(vectors).
   */
  method Kmeans(vectors: seq<ImageVector>, size: nat, seeds: seq<seq<Color>>, maxIterations: nat)
    returns (resultVector: seq<ImageVector>, distance: real)
    requires |seeds| == RestartCount
    requires forall r :: 0 <= r < |seeds| ==> |seeds[r]| == size
    ensures |resultVector| == size
    ensures distance <= |vectors| as real
    ensures forall r :: 0 <= r < |seeds| ==> distance <= KmeansRun(vectors, seeds[r], maxIterations).distance
    ensures (forall r :: 0 <= r < |seeds| ==> KmeansRun(vectors, seeds[r], maxIterations).distance >= |vectors| as real)
      ==> resultVector == Zeros(size) && distance == |vectors| as real
    ensures (exists r :: 0 <= r < |seeds| && KmeansRun(vectors, seeds[r], maxIterations).distance < |vectors| as real)
      ==> exists w :: 0 <= w < |seeds| && IsBest(Runs(vectors, seeds, maxIterations), w, resultVector, distance)
  {
    var runs: seq<KmeansVector> := [];
    for count := 0 to RestartCount
      invariant |runs| == count
      invariant forall r :: 0 <= r < count ==> runs[r] == KmeansRun(vectors, seeds[r], maxIterations)
    {
      var run := ExecKmeans(vectors, seeds[count], maxIterations);
      runs := runs + [run];
    }
    assert runs == Runs(vectors, seeds, maxIterations);
    forall r | 0 <= r < |runs|
      ensures |runs[r].centroids| == size
    {
      KmeansRunShape(vectors, seeds[r], maxIterations);
    }
    resultVector, distance := SelectBest(runs, size, |vectors| as real);
  }

  /** The results of the restarts, in run order. */
  function Runs(vectors: seq<ImageVector>, seeds: seq<seq<Color>>, fuel: nat): seq<KmeansVector> {
    seq(|seeds|, r requires 0 <= r < |seeds| => KmeansRun(vectors, seeds[r], fuel))
  }

  /** Run w achieves distance, its centroids are the result, and every earlier run was strictly worse. */
  ghost predicate IsBest(runs: seq<KmeansVector>, w: int, resultVector: seq<ImageVector>, distance: real) {
    && 0 <= w < |runs|
    && runs[w].distance == distance
    && runs[w].centroids == resultVector
    && forall r :: 0 <= r < w ==> runs[r].distance > distance
  }

  /**
   * The draining loop of kmeans: starting from size zero entries and the bound, take a run's
   * centroids whenever its distortion is strictly below the best so far.
   */
  method SelectBest(runs: seq<KmeansVector>, size: nat, bound: real) returns (resultVector: seq<ImageVector>, distance: real)
    requires forall r :: 0 <= r < |runs| ==> |runs[r].centroids| == size
    ensures |resultVector| == size
    ensures distance <= bound
    ensures forall r :: 0 <= r < |runs| ==> distance <= runs[r].distance
    ensures (forall r :: 0 <= r < |runs| ==> runs[r].distance >= bound) ==> resultVector == Zeros(size) && distance == bound
    ensures (exists r :: 0 <= r < |runs| && runs[r].distance < bound) ==> exists w :: IsBest(runs, w, resultVector, distance)
  {
    distance := bound;
    resultVector := Zeros(size);
    ghost var winner := -1;
    for i := 0 to |runs|
      invariant |resultVector| == size
      invariant distance <= bound
      invariant forall r :: 0 <= r < i ==> distance <= runs[r].distance
      invariant winner == -1 ==>
        resultVector == Zeros(size) && distance == bound && forall r :: 0 <= r < i ==> runs[r].distance >= bound
      invariant winner != -1 ==> winner < i && distance < bound && IsBest(runs, winner, resultVector, distance)
    {
      if distance > runs[i].distance {
        resultVector := CopyInto(resultVector, runs[i].centroids);
        distance := runs[i].distance;
        winner := i;
      }
    }
  }
}
