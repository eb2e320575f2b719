# pickupcolor: a verified model of the k-means palette engine

pickupcolor reads an image and keeps its vivid pixels, those with saturation and value above 0.5.
It clusters their colors with k-means, 16 restarts, keeping the restart with the lowest distortion, and
writes a strip of k color blocks, each 160 pixels wide and 320 tall, to `<stem>-pickupcolor<k>.png`.
This project models that engine in `main.go` and proves what its code promises.

- `colors.dfy` (module `Colors`): colors, tagged samples (`imageVector`) and `calcDistance`.
- `kmeans.dfy` (module `Kmeans`): `detectGroup`, `initVector`, `resetCenterVector`, `checkEqual`,
  `calcClusterDistance`, `execKmeans` and `kmeans`. Each loop of the source is a method.
  `DetectGroup`, `ResetCenterVector`, `CalcClusterDistance` and `ExecKmeans` are proved equal to a
  specification function (`NearestGroup`, `ResetCenter`, `Distortion`, `KmeansRun`). `InitVector`,
  `CheckEqual` and `SelectBest` state their results directly in their postconditions. The structural
  properties of a run (labels never change, a converged run is a fixed point) are lemmas about the
  specification functions.
- `descent.dfy` (module `Descent`): why the loop is worth running. The recompute half of a pass moves
  every centroid to the mean of its members, which is the best centre for them; the relabel half moves
  every sample to a centroid at least as close. So no pass raises the distortion. When the samples and the initial colors have
  channels in [0, 1] and there is at least one sample and one centroid, a run that converges has
  distortion at most 3/4 per sample, below the `len(vectors)` bound `kmeans` starts from.
- `palette.dfy` (module `Palette`): the glue in `main`. This is the sample filter in row-major order,
  the `x/160` block index and the palette strip, and the output file name.

Channels are `real`s. The random initial colors are a parameter (`seeds`, one list per restart). The
convergence loop, which compares centroids for exact equality, is bounded by a `maxIterations` count.

Three places where the code decides, rather than the usual description of k-means:
- An empty cluster's centroid becomes (0,0,0), because `newVector` starts zeroed (`ResetCenterVector`).
- A run only replaces the result when its distortion is strictly below the best so far, starting
  from `len(vectors)`. If no run beats that bound, `kmeans` returns `size` zero-valued entries with
  group 0 and the distance `len(vectors)` (`Kmeans`, `SelectBest`). That includes the case of no samples.
- Fresh samples carry group 0, the zero value of a new `imageVector` (`Sample`, `KeptSamples`).

## Model

| member | source | states |
|---|---|---|
| Colors.Distance | main.go:183-189 | the squared RGB distance is non-negative, zero from a color to itself, and at most 3 between unit-range colors |
| Kmeans.FirstNearest | main.go:220-232 | the index detectGroup settles on is -1 exactly when every centroid is at or above the sentinel 1024; otherwise no centroid is nearer and every earlier one is strictly farther (first strict minimum wins) |
| Kmeans.NearestGroup | main.go:220-232 | detectGroup's answer: the label of the centroid FirstNearest picks, or -1 when it picks none |
| Kmeans.NearestExists | main.go:220-232 | with unit-range colors (distance at most 3 < 1024) detectGroup finds no centroid exactly when the centroid list is empty |
| Kmeans.DetectGroup | main.go:220-232 | the loop returns the label of the first nearest centroid, -1 when none is below the sentinel |
| Kmeans.Initial | main.go:205-218 | initVector's centroids: the i-th drawn color with label i + 1, for each drawn color in order |
| Kmeans.InitVector | main.go:205-218 | exactly one centroid per drawn color, in order, centroid i labelled i + 1, labels pairwise distinct |
| Kmeans.Members | main.go:238-239 | the colors of the samples whose label equals the cluster's, in sample order; never more of them than samples |
| Kmeans.SumColors | main.go:240-242 | the component-wise sum of R, G and B over those colors, starting from (0,0,0) |
| Kmeans.Mean | main.go:247-256 | the sum divided channel by channel by the member count, or (0,0,0) when the count is zero |
| Kmeans.ResetCenter | main.go:234-258 | the recomputed centroid: the cluster's own label and the mean of its members' colors |
| Kmeans.MembersInUnitCube | main.go:238-245 | the members of a label, gathered from unit-range samples, are unit-range colors |
| Kmeans.MeanInUnitCube | main.go:247-251 | the component-wise mean of unit-range colors is unit-range |
| Kmeans.MeanOfCopies | main.go:238-251 | a cluster whose members all have one color is recentred exactly on that color |
| Kmeans.ResetCenterVector | main.go:234-258 | the loop keeps the cluster's label and yields the mean of the samples carrying it, or (0,0,0) when there are none |
| Kmeans.CheckEqual | main.go:260-270 | true exactly when both lists are equal (same length, same R, G, B and label at every index); hence reflexive and false on a length mismatch |
| Kmeans.FirstWithGroup | main.go:193-199 | the inner loop of calcClusterDistance stops at the first centroid with the sample's label, or finds none exactly when no centroid has it |
| Kmeans.SampleCost | main.go:193-199 | one sample's share of the distortion: its distance to the first centroid with its label, 0 when no centroid has it |
| Kmeans.Distortion | main.go:191-202 | the distortion (sum over samples of the distance to the first centroid with their label, 0 if none) is non-negative |
| Kmeans.CalcClusterDistance | main.go:191-202 | the nested loop computes exactly that distortion |
| Kmeans.Assign | main.go:154-156 | the relabelling loop (also main.go:168-170): every sample keeps its color and takes the label detectGroup gives against the centroids |
| Kmeans.Recompute | main.go:161-163 | every centroid replaced, in place and in order, by resetCenterVector's result against the labelled samples |
| Kmeans.Iterate | main.go:159-171 | the loop over given relabel and recompute steps: recompute; stop and mark converged if the centroids are unchanged; else relabel against the new centroids and repeat; at most fuel passes |
| Kmeans.Lloyd | main.go:159-171 | that loop with detectGroup relabelling (Assign) and resetCenterVector recomputation (Recompute) |
| Kmeans.KmeansRun | main.go:151-181 | one execKmeans run: initVector's centroids from the drawn colors, a first labelling, the loop, then calcClusterDistance of the final labels and centroids |
| Kmeans.AssignIgnoresLabels | main.go:168-170 | relabelling depends only on the samples' colors: relabelling twice is relabelling once against the later centroids |
| Kmeans.RecomputeKeepsLabels | main.go:161-163 | recomputing all centroids keeps their number and their labels in order |
| Kmeans.IterateKeepsLabels | main.go:159-171 | a loop whose recompute step keeps labels ends with the labels it started with |
| Kmeans.IterateKeepsAssignment | main.go:159-171 | a loop whose relabel step depends only on colors ends with the samples labelled against its final centroids |
| Kmeans.IterateFixedPoint | main.go:159-171 | the loop reports convergence only at centroids that recomputation leaves unchanged |
| Kmeans.LloydKeepsLabels | main.go:159-171 | execKmeans's loop never changes the number of centroids nor their labels |
| Kmeans.LloydFixedPoint | main.go:159-171 | at the end of the loop the samples are labelled against the final centroids, and a converged loop's centroids are their own recomputation |
| Kmeans.KmeansRunShape | main.go:151-181 | a run returns exactly size centroids labelled 1..size and a non-negative distortion |
| Kmeans.AssignGroups | main.go:154-156 | the in-place relabelling loop leaves every sample's color and sets its label to detectGroup's answer |
| Kmeans.RecomputeCenters | main.go:161-163 | the in-place loop replaces every centroid by resetCenterVector's result |
| Kmeans.ExecKmeans | main.go:151-181 | the run (initialise, label, recompute until checkEqual holds, relabel, measure) computes exactly the specified run's centroids and distortion |
| Kmeans.CopyInto | main.go:144 | Go's copy: the destination keeps its length, its first min(len) entries come from the source, the rest are kept |
| Kmeans.Zeros | main.go:129 | make(imageVectors, size): size entries with color (0,0,0) and group 0 |
| Kmeans.SelectBest | main.go:142-147 | the drain returns a distance at most the bound and at most every run's; if no run is below the bound, size zero entries and the bound; otherwise the centroids and distance of a run that every earlier run strictly exceeds (ties keep the earliest) |
| Kmeans.Kmeans | main.go:126-149 | over 16 restarts: result of length size, distance at most len(vectors) and at most every run's distortion, the zero fallback when no run beats len(vectors), otherwise the earliest best run |
| Descent.ClusterCostByChannel | main.go:183-189 | a cluster's cost splits into the R, G and B squared deviations |
| Descent.DeviationExpand | main.go:183-189 | the squared deviations of a channel from y equal squares - 2 y sum + n y^2 |
| Descent.MeanMinimisesChannel | main.go:247-251 | the channel mean has the least squared deviation of any value |
| Descent.MeanMinimises | main.go:234-258 | the centroid resetCenterVector computes costs its members no more than any other color |
| Descent.SquaresBelowSum | main.go:240-243 | for unit-range members the sum of squares of a channel is at most its sum |
| Descent.ChannelVarianceBound | main.go:247-251 | unit-range members deviate from their channel mean by at most n/4 in total |
| Descent.MeanCostBound | main.go:234-258 | a recentred cluster of unit-range members costs at most 3/4 per member |
| Descent.TotalMonotone | main.go:191-202 | lowering every sample's or cluster's share lowers the total distortion |
| Descent.DistortionByCluster | main.go:191-202 | with distinct labels the distortion is the sum of the clusters' costs, and the cluster sizes add up to at most the sample count |
| Descent.RecomputeDescends | main.go:161-163 | recomputing the centroids never raises the distortion |
| Descent.FixedPointBound | main.go:159-166 | centroids that recomputation leaves unchanged have distortion at most 3/4 per sample |
| Descent.DetectGroupDescends | main.go:220-232 | relabelling a sample moves it to a valid label whose centroid is at least as close |
| Descent.AssignDescends | main.go:168-170 | the relabelling half of a pass keeps samples labelled 1..size and never raises the distortion |
| Descent.DistortionIsTotal | main.go:191-202 | the distortion of a prefix of the samples is the total of their shares |
| Descent.PassDescends | main.go:159-171 | one pass, recompute then relabel, keeps the invariant and never raises the distortion |
| Descent.IterateDescends | main.go:159-171 | a loop whose passes keep an invariant and never raise a cost ends no higher than it started |
| Descent.LloydDescends | main.go:159-171 | execKmeans's loop ends with a distortion no higher than at its start |
| Descent.InitialInvariant | main.go:152-156 | initVector's centroids and the first labelling give labels 1..size, unit-range colors, every sample carrying a centroid's label |
| Descent.KmeansRunDescends | main.go:151-181 | a run's distortion is at most that of the first labelling, and at most 3/4 per sample when it converged |
| Descent.ConvergedRunBeatsBound | main.go:126-149 | with at least one sample, a converged run beats the starting bound len(vectors), so kmeans does not fall back to zeros |
| Palette.Vivid | main.go:70-72 | a pixel is kept when its saturation and value are both strictly above 0.5 |
| Palette.Sample | main.go:73-75 | a kept pixel becomes an imageVector with its color and the zero label 0 |
| Palette.RowMajor | main.go:67-68 | the pixels rows top to bottom, each row left to right |
| Palette.Kept | main.go:67-78 | the samples of the vivid pixels of a pixel list, in list order |
| Palette.KeptAppend | main.go:67-78 | filtering a concatenation is the concatenation of the filtered parts, so pixel order carries over |
| Palette.KeptMembers | main.go:67-78 | a sample is kept exactly when some pixel with S > 0.5 and V > 0.5 has its color, with label 0 |
| Palette.KeptSamples | main.go:72-76 | every kept sample of unit-range pixels is unit-range and carries group 0 |
| Palette.SampleImage | main.go:67-78 | the nested loop produces exactly the vivid pixels' samples in row-major order |
| Palette.BlockIndex | main.go:105 | int(x/160) is the j with 160 j <= x < 160 (j + 1) |
| Palette.BlockIndexRange | main.go:101-105 | column x belongs to block j exactly when 160 j <= x < 160 (j + 1), and every column below 160 k selects one of the k results |
| Palette.RenderStrip | main.go:101-110 | a fresh strip 160 k by 320 whose pixel (x, y) has the color of result x/160 |
| Palette.SplitDots | main.go:112 | strings.Split on "." gives at least one piece, none containing a dot |
| Palette.SplitJoin | main.go:112 | joining the pieces back with dots gives the path again |
| Palette.Stem | main.go:112-116 | filename[0]: the first piece of strings.Split(path, "."), the path up to its first dot |
| Palette.StemIsPrefix | main.go:112-116 | filename[0] is the longest dot-free prefix of the path |
| Palette.StemOfDotted | main.go:112-116 | a dot-free prefix followed by a dot is the stem |
| Palette.Itoa | main.go:116 | strconv.Itoa of a non-negative count: its decimal digits, most significant first, "0" for zero |
| Palette.ItoaRoundTrip | main.go:116 | strconv.Itoa writes decimal digits with no leading zero, and reading them back gives k |
| Palette.OutputName | main.go:116 | newfilename: the stem, then "-pickupcolor", then the cluster count in decimal, then ".png" |
| Palette.OutputNameParts | main.go:112-116 | the output name is the stem, "-pickupcolor", k in decimal and ".png", whose dot is the only dot in the name |

## Left out

- File open, image decode, PNG encode and printing to stdout (main.go:49-63, 93-99, 117-123) are I/O; the
  model starts from a grid of pixels and ends with the strip and the file name.
- The 16 goroutines, the WaitGroup and the channel (main.go:131-142) are a sequential loop over restarts,
  drained in run order. Each run works on its own copy of the samples. The shared slice that the
  goroutines relabel concurrently (main.go:155, 169) is a data race and is not modelled.
- `rand.Seed` and `rand.Float64` (main.go:79, 211): the initial colors of each restart are the `seeds` parameter.
- go-colorful's `MakeColor`, `Hsv`, `Hcl`, `Hex` and `RGB255` are foreign conversions. A `Pixel` carries its
  saturation and value as given data, and the strip stores `Color`s rather than 8-bit RGBA.
- The hue sort of the results (main.go:36-41, 95) is left out: `RenderStrip` draws the results in the order given.
- IEEE float64 rounding: channels are exact reals, so sums, means and the equality test are exact.
- Kmeans.ExecKmeans: the loop at main.go:159-171 stops only when two passes give equal centroids, which
  cannot be shown to happen. The model runs at most `maxIterations` passes and records whether it stopped by
  convergence (`Clustering.converged`); the 3/4-per-sample bound is proved for runs that converged.
- `strconv.Atoi` and the default of 6 clusters (main.go:82-89): the cluster count is a parameter. A
  negative count, which makes Go's `make` panic, is excluded by using `nat`.
- Palette.ItoaRoundTrip: covers only non-negative numbers, the only cluster counts that reach the file name.
- The `len(filename) < 1` guard (main.go:113-115) can never fire, since splitting always yields a piece
  (`SplitDots` ensures it); the model has no such branch.
