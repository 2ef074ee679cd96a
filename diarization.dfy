/** The speaker-diarization engine of `SpeakerDiarization`: audio is cut into
    three-second windows, each window is mapped to an embedding vector by an
    opaque model, the vectors are clustered by twenty rounds of k-means, and the
    cluster labels become timed speaker segments that are merged when the same
    speaker continues.

    Samples, embeddings and times are exact reals. Distances are compared
    squared: the source compares square roots, and the square root is monotone,
    so both choose the same nearest centroid. */
module SpeakerDiarization {
  import opened Wrappers
  import opened Numbers

  /** Three seconds at 16 kHz. */
  const SegmentLength: nat := 16000 * 3
  /** `16000 * 1.5.toInt()`: the conversion truncates 1.5 to 1 before the
      product, so windows start one second apart, not one and a half. */
  const HopLength: nat := 16000 * 1
  /** Windows shorter than half a segment are dropped. */
  const MinWindowLength: nat := SegmentLength / 2
  /** Segment times still step by the intended 1.5 s and last 3 s. */
  const HopSeconds: real := 1.5
  const SegmentSeconds: real := 3.0
  const SegmentConfidence: real := 0.85
  /** k-means runs a fixed number of rounds with no convergence test. */
  const KMeansRounds: nat := 20

  datatype SpeakerSegment = SpeakerSegment(speakerId: int, startTime: real, endTime: real, confidence: real)

  // ---------------------------------------------------------------------------
  // Windowing

  /** Exactly `target` values: the input's prefix, then zeros. */
  function PadOrTruncate(a: seq<real>, target: nat): (r: seq<real>)
    ensures |r| == target
    ensures forall i :: 0 <= i < target ==> r[i] == if i < |a| then a[i] else 0.0
  {
    if |a| == target then a
    else if |a| < target then a + seq(target - |a|, _ => 0.0)
    else a[..target]
  }

  /** The samples `[j * hop, min(j * hop + segment, size))` that window `j` covers. */
  function WindowSlice(audio: seq<real>, j: nat): seq<real>
    requires j * HopLength <= |audio|
  {
    var start := j * HopLength;
    var end := if start + SegmentLength < |audio| then start + SegmentLength else |audio|;
    audio[start..end]
  }

  /** How many windows are kept: a start `j * hop` is kept while at least
      `MinWindowLength` samples remain after it. */
  function WindowCount(size: nat): nat
  {
    if size < MinWindowLength then 0 else (size - MinWindowLength) / HopLength + 1
  }

  /** Window `j` as the embedding model receives it: padded or cut to a segment. */
  function Window(audio: seq<real>, j: nat): seq<real>
    requires j * HopLength <= |audio|
  {
    PadOrTruncate(WindowSlice(audio, j), SegmentLength)
  }

  /** A start `i` (a multiple of the hop below the size) is kept exactly when it
      is one of the first `WindowCount` starts. */
  lemma KeptIffCounted(size: nat, j: nat)
    requires j * HopLength < size
    ensures var start := j * HopLength;
            var end := if start + SegmentLength < size then start + SegmentLength else size;
            (end - start >= MinWindowLength) <==> j < WindowCount(size)
  {
  }

  /** `windows` are the first kept windows of the audio, in order. */
  predicate KeptWindows(audio: seq<real>, windows: seq<seq<real>>)
  {
    forall j :: 0 <= j < |windows| ==>
      j * HopLength < |audio| && |WindowSlice(audio, j)| >= MinWindowLength &&
      windows[j] == Window(audio, j)
  }

  /** Keeping the next window extends the kept windows. */
  lemma KeepWindow(audio: seq<real>, windows: seq<seq<real>>)
    requires KeptWindows(audio, windows)
    requires |windows| * HopLength < |audio| && |WindowSlice(audio, |windows|)| >= MinWindowLength
    ensures KeptWindows(audio, windows + [Window(audio, |windows|)])
  {
  }

  /** The windowing loop of `diarize`: starts step by the hop while they lie
      inside the audio; a slice is kept when it holds at least half a segment,
      and is padded or cut to a whole segment. */
  method FrameAudio(audio: seq<real>) returns (windows: seq<seq<real>>)
    ensures |windows| == WindowCount(|audio|)
    ensures forall j :: 0 <= j < |windows| ==>
              j * HopLength < |audio| && |WindowSlice(audio, j)| >= MinWindowLength &&
              windows[j] == Window(audio, j) && |windows[j]| == SegmentLength
  {
    windows := [];
    var i := 0;
    ghost var steps := 0;
    while i < |audio|
      invariant i == steps * HopLength
      invariant steps > 0 ==> (steps - 1) * HopLength < |audio|
      invariant |windows| == if steps < WindowCount(|audio|) then steps else WindowCount(|audio|)
      invariant KeptWindows(audio, windows)
      decreases |audio| - i
    {
      var end := if i + SegmentLength < |audio| then i + SegmentLength else |audio|;
      var slice := audio[i..end];
      KeptIffCounted(|audio|, steps);
      assert slice == WindowSlice(audio, steps);
      if |slice| >= MinWindowLength {
        KeepWindow(audio, windows);
        windows := windows + [PadOrTruncate(slice, SegmentLength)];
      }
      i := i + HopLength;
      steps := steps + 1;
    }
    CountedBelowSteps(|audio|, steps);
  }

  /** Once the starts have passed the end, every kept window has been seen. */
  lemma CountedBelowSteps(size: nat, steps: nat)
    requires steps * HopLength >= size
    ensures WindowCount(size) <= steps
  {
  }

  /** The windowing unit test: ten seconds of audio give more than one window,
      and the first raw slice is a whole segment. */
  lemma TenSecondsOfAudio(audio: seq<real>)
    requires |audio| == 16000 * 10
    ensures WindowCount(|audio|) == 9
    ensures |WindowSlice(audio, 0)| == SegmentLength
    ensures forall j :: 0 <= j < 9 ==> j * HopLength == 16000 * j
  {
  }

  // ---------------------------------------------------------------------------
  // Distances and the nearest centroid

  function Sq(x: real): real { x * x }

  /** Squared Euclidean distance, summed left to right like `map { .. }.sum()`. */
  function SqDist(a: seq<real>, b: seq<real>): (r: real)
    requires |a| == |b|
    ensures r >= 0.0
  {
    if |a| == 0 then 0.0
    else SqDist(a[..|a| - 1], b[..|b| - 1]) + Sq(a[|a| - 1] - b[|b| - 1])
  }

  /** Every vector of `vs` has `dim` coordinates. */
  predicate Uniform(vs: seq<seq<real>>, dim: nat)
  {
    forall i :: 0 <= i < |vs| ==> |vs[i]| == dim
  }

  /** `r` is the nearest centroid to `e`, and no lower index is as near. */
  predicate IsNearest(e: seq<real>, cents: seq<seq<real>>, r: nat)
    requires Uniform(cents, |e|) && r < |cents|
  {
    (forall j :: 0 <= j < |cents| ==> SqDist(e, cents[r]) <= SqDist(e, cents[j])) &&
    (forall j :: 0 <= j < r ==> SqDist(e, cents[r]) < SqDist(e, cents[j]))
  }

  /** The centroid the assignment step picks for `e`. With no centroids it is
      the initial `bestCluster = 0`. */
  function Nearest(e: seq<real>, cents: seq<seq<real>>): (r: nat)
    requires Uniform(cents, |e|)
    ensures |cents| == 0 ==> r == 0
    ensures |cents| > 0 ==> r < |cents| && IsNearest(e, cents, r)
    decreases |cents|
  {
    if |cents| <= 1 then 0
    else
      var m := |cents| - 1;
      var r := Nearest(e, cents[..m]);
      if SqDist(e, cents[m]) < SqDist(e, cents[r]) then m else r
  }

  /** The inner loop of the assignment step: scan the centroids in order and
      keep the first one strictly nearer than the best so far. The initial
      `Float.MAX_VALUE` bound is modelled as "no candidate yet". */
  method NearestCentroid(e: seq<real>, centroids: array<seq<real>>) returns (best: int)
    requires Uniform(centroids[..], |e|)
    ensures best == Nearest(e, centroids[..])
  {
    var found := false;
    var minDistance := 0.0;
    best := 0;
    var j := 0;
    while j < centroids.Length
      invariant 0 <= j <= centroids.Length
      invariant found <==> j > 0
      invariant best == Nearest(e, centroids[..j])
      invariant found ==> minDistance == SqDist(e, centroids[best])
    {
      assert centroids[..j + 1][..j] == centroids[..j];
      var distance := SqDist(e, centroids[j]);
      if !found || distance < minDistance {
        minDistance := distance;
        best := j;
      }
      found := true;
      j := j + 1;
    }
    assert centroids[..j] == centroids[..];
  }

  // ---------------------------------------------------------------------------
  // k-means

  /** Indices of the points labelled `j`, in increasing order (the `filter`). */
  function Members(labels: seq<int>, j: int): (pts: seq<nat>)
    ensures forall t :: 0 <= t < |pts| ==> pts[t] < |labels| && labels[pts[t]] == j
    ensures forall i :: 0 <= i < |labels| && labels[i] == j ==> i in pts
    ensures forall s, t :: 0 <= s < t < |pts| ==> pts[s] < pts[t]
  {
    if |labels| == 0 then []
    else
      var n := |labels| - 1;
      Members(labels[..n], j) + if labels[n] == j then [n] else []
  }

  /** `average()`: the sum divided by the number of values. */
  function Average(xs: seq<real>): (r: real)
    requires |xs| > 0
    ensures r * (|xs| as real) == Sum(xs)
  {
    Sum(xs) / (|xs| as real)
  }

  /** Coordinate `d` of the listed points. */
  function Column(embs: seq<seq<real>>, pts: seq<nat>, d: nat): seq<real>
    requires forall t :: 0 <= t < |pts| ==> pts[t] < |embs| && d < |embs[pts[t]]|
  {
    seq(|pts|, t requires 0 <= t < |pts| => embs[pts[t]][d])
  }

  /** The coordinate-wise mean of the listed points. */
  function Mean(embs: seq<seq<real>>, pts: seq<nat>, dim: nat): (m: seq<real>)
    requires Uniform(embs, dim) && |pts| > 0
    requires forall t :: 0 <= t < |pts| ==> pts[t] < |embs|
    ensures |m| == dim
    ensures forall d :: 0 <= d < dim ==> m[d] * (|pts| as real) == Sum(Column(embs, pts, d))
  {
    seq(dim, d requires 0 <= d < dim => Average(Column(embs, pts, d)))
  }

  /** The assignment step: every point gets its nearest centroid. */
  function Assign(embs: seq<seq<real>>, cents: seq<seq<real>>, dim: nat): (labels: seq<int>)
    requires Uniform(embs, dim) && Uniform(cents, dim)
    ensures |labels| == |embs|
    ensures forall i :: 0 <= i < |embs| ==> labels[i] == Nearest(embs[i], cents)
  {
    seq(|embs|, i requires 0 <= i < |embs| => Nearest(embs[i], cents))
  }

  /** The update step: a centroid with no members keeps its value, any other
      becomes the mean of its members. */
  function Update(embs: seq<seq<real>>, labels: seq<int>, cents: seq<seq<real>>, dim: nat): (r: seq<seq<real>>)
    requires Uniform(embs, dim) && Uniform(cents, dim) && |labels| == |embs|
    ensures |r| == |cents| && Uniform(r, dim)
    ensures forall j :: 0 <= j < |cents| ==>
              r[j] == if |Members(labels, j)| == 0 then cents[j] else Mean(embs, Members(labels, j), dim)
  {
    seq(|cents|, j requires 0 <= j < |cents| =>
      if |Members(labels, j)| == 0 then cents[j] else Mean(embs, Members(labels, j), dim))
  }

  datatype KMeansState = KMeansState(labels: seq<int>, centroids: seq<seq<real>>)

  /** Labels in `[0, k)`, or all zero when there are no clusters. */
  predicate LabelsInRange(labels: seq<int>, k: nat)
  {
    forall i :: 0 <= i < |labels| ==> 0 <= labels[i] && (labels[i] < k || labels[i] == 0)
  }

  /** One round: assign every point, then update the centroids from the
      new labels. */
  function Round(embs: seq<seq<real>>, cents: seq<seq<real>>, dim: nat): (s: KMeansState)
    requires Uniform(embs, dim) && Uniform(cents, dim)
    ensures |s.labels| == |embs| && |s.centroids| == |cents| && Uniform(s.centroids, dim)
    ensures s.labels == Assign(embs, cents, dim)
    ensures s.centroids == Update(embs, s.labels, cents, dim)
  {
    var a := Assign(embs, cents, dim);
    KMeansState(a, Update(embs, a, cents, dim))
  }

  /** The labels and centroids after `rounds` rounds, starting from all-zero
      labels (a fresh `IntArray`) and the initial centroids. */
  function Rounds(embs: seq<seq<real>>, c0: seq<seq<real>>, dim: nat, rounds: nat): (s: KMeansState)
    requires Uniform(embs, dim) && Uniform(c0, dim)
    ensures |s.labels| == |embs| && |s.centroids| == |c0| && Uniform(s.centroids, dim)
  {
    if rounds == 0 then KMeansState(seq(|embs|, _ => 0), c0)
    else Round(embs, Rounds(embs, c0, dim, rounds - 1).centroids, dim)
  }

  /** Every round leaves each label naming an existing cluster. */
  lemma {:induction false} RoundsLabelsInRange(embs: seq<seq<real>>, c0: seq<seq<real>>, dim: nat, rounds: nat)
    requires Uniform(embs, dim) && Uniform(c0, dim)
    ensures LabelsInRange(Rounds(embs, c0, dim, rounds).labels, |c0|)
  {
    if rounds > 0 {
      RoundsLabelsInRange(embs, c0, dim, rounds - 1);
    }
  }

  /** The centroids the run starts from: copies of the embeddings drawn at the
      injected indices (the source draws them with `(0 until n).random()`). */
  function InitialCentroids(embs: seq<seq<real>>, init: seq<nat>): (c: seq<seq<real>>)
    requires forall i :: 0 <= i < |init| ==> init[i] < |embs|
    ensures |c| == |init|
    ensures forall i :: 0 <= i < |init| ==> c[i] == embs[init[i]]
  {
    seq(|init|, i requires 0 <= i < |init| => embs[init[i]])
  }

  /** What the injected random draws must satisfy for `n` points and `k` clusters. */
  predicate ValidDraws(init: seq<nat>, n: nat, k: int)
  {
    n > 0 && k >= 0 ==> |init| == k && forall i :: 0 <= i < |init| ==> init[i] < n
  }

  /** The labels k-means returns on a non-empty input with `k >= 0`. */
  function KMeansLabels(embs: seq<seq<real>>, k: nat, init: seq<nat>): (labels: seq<int>)
    requires |embs| > 0 && Uniform(embs, |embs[0]|) && ValidDraws(init, |embs|, k)
    ensures |labels| == |embs| && LabelsInRange(labels, k)
  {
    var dim := |embs[0]|;
    var c0 := InitialCentroids(embs, init);
    RoundsLabelsInRange(embs, c0, dim, KMeansRounds);
    Rounds(embs, c0, dim, KMeansRounds).labels
  }

  /** One assignment step: every label becomes the nearest current centroid. */
  method AssignStep(embs: seq<seq<real>>, dim: nat, centroids: array<seq<real>>, labels: array<int>)
    requires Uniform(embs, dim) && Uniform(centroids[..], dim) && labels.Length == |embs|
    modifies labels
    ensures labels[..] == Assign(embs, centroids[..], dim)
  {
    for i := 0 to labels.Length
      invariant forall t :: 0 <= t < i ==> labels[t] == Nearest(embs[t], centroids[..])
    {
      labels[i] := NearestCentroid(embs[i], centroids);
    }
  }

  /** One update step: every centroid with members moves to their mean,
      coordinate by coordinate; the others stay. */
  method UpdateStep(embs: seq<seq<real>>, dim: nat, labels: array<int>, centroids: array<seq<real>>)
    requires Uniform(embs, dim) && Uniform(centroids[..], dim) && labels.Length == |embs|
    modifies centroids
    ensures centroids[..] == Update(embs, labels[..], old(centroids[..]), dim)
  {
    ghost var cents := centroids[..];
    for j := 0 to centroids.Length
      invariant forall t :: 0 <= t < j ==> centroids[t] == Update(embs, labels[..], cents, dim)[t]
      invariant forall t :: j <= t < centroids.Length ==> centroids[t] == cents[t]
    {
      var pts := Members(labels[..], j);
      if |pts| > 0 {
        var row := MeanRow(embs, pts, dim, centroids[j]);
        centroids[j] := row;
      }
    }
  }

  /** The inner loop of the update: the row's coordinates overwritten one by
      one with the members' averages. */
  method MeanRow(embs: seq<seq<real>>, pts: seq<nat>, dim: nat, row0: seq<real>) returns (row: seq<real>)
    requires Uniform(embs, dim) && |pts| > 0 && |row0| == dim
    requires forall t :: 0 <= t < |pts| ==> pts[t] < |embs|
    ensures row == Mean(embs, pts, dim)
  {
    row := row0;
    for d := 0 to dim
      invariant |row| == dim
      invariant forall e :: 0 <= e < d ==> row[e] == Average(Column(embs, pts, e))
    {
      row := row[d := Average(Column(embs, pts, d))];
    }
  }

  /** The centroid array, filled with the embeddings at the drawn indices. */
  method InitCentroids(embs: seq<seq<real>>, init: seq<nat>, dim: nat) returns (centroids: array<seq<real>>)
    requires forall i :: 0 <= i < |init| ==> init[i] < |embs|
    ensures fresh(centroids)
    ensures centroids[..] == InitialCentroids(embs, init)
  {
    centroids := new seq<real>[|init|](_ => seq(dim, _ => 0.0));
    for i := 0 to |init|
      modifies centroids
      invariant forall t :: 0 <= t < i ==> centroids[t] == embs[init[t]]
    {
      centroids[i] := embs[init[i]];
    }
  }

  /** The twenty rounds of assignment and update over the two arrays. */
  method RunRounds(embs: seq<seq<real>>, dim: nat, labels: array<int>, centroids: array<seq<real>>)
    requires Uniform(embs, dim) && Uniform(centroids[..], dim)
    requires labels[..] == seq(|embs|, _ => 0)
    modifies labels, centroids
    ensures KMeansState(labels[..], centroids[..]) == Rounds(embs, old(centroids[..]), dim, KMeansRounds)
  {
    ghost var c0 := centroids[..];
    for round := 0 to KMeansRounds
      invariant KMeansState(labels[..], centroids[..]) == Rounds(embs, c0, dim, round)
    {
      RoundStep(embs, dim, labels, centroids);
    }
  }

  /** One round over the arrays. */
  method RoundStep(embs: seq<seq<real>>, dim: nat, labels: array<int>, centroids: array<seq<real>>)
    requires Uniform(embs, dim) && Uniform(centroids[..], dim) && labels.Length == |embs|
    modifies labels, centroids
    ensures KMeansState(labels[..], centroids[..]) == Round(embs, old(centroids[..]), dim)
  {
    AssignStep(embs, dim, centroids, labels);
    UpdateStep(embs, dim, labels, centroids);
  }

  /** `kMeansClustering`: `embeddings[0]` fails on an empty input, a negative
      `k` fails to allocate the centroids, and otherwise twenty rounds of
      assignment and update run over the `labels` and `centroids` arrays. */
  method KMeansClustering(embs: seq<seq<real>>, k: int, init: seq<nat>) returns (r: Result<seq<int>>)
    requires |embs| > 0 ==> Uniform(embs, |embs[0]|)
    requires ValidDraws(init, |embs|, k)
    ensures |embs| == 0 ==> r == Err(IndexOutOfBounds)
    ensures |embs| > 0 && k < 0 ==> r == Err(NegativeArraySize)
    ensures |embs| > 0 && k >= 0 ==> r.Ok? && r.value == KMeansLabels(embs, k, init)
    ensures r.Ok? ==> |r.value| == |embs| && LabelsInRange(r.value, k)
  {
    if |embs| == 0 {
      return Err(IndexOutOfBounds);
    }
    var n := |embs|;
    var dim := |embs[0]|;
    if k < 0 {
      return Err(NegativeArraySize);
    }
    var labels := new int[n](_ => 0);
    var centroids := InitCentroids(embs, init, dim);
    ghost var c0 := centroids[..];
    RunRounds(embs, dim, labels, centroids);
    RoundsLabelsInRange(embs, c0, dim, KMeansRounds);
    r := Ok(labels[..]);
  }

  // ---------------------------------------------------------------------------
  // Segments

  /** The segment `diarize` builds for window `i` with cluster `cluster`. */
  function SegmentFor(i: nat, cluster: int): SpeakerSegment
  {
    SpeakerSegment(cluster, HopSeconds * (i as real), HopSeconds * (i as real) + SegmentSeconds, SegmentConfidence)
  }

  /** The segment loop of `diarize`: one segment per label, in label order,
      window `i` spanning `[1.5 i, 1.5 i + 3]` seconds with confidence 0.85. */
  method BuildSegments(labels: seq<int>) returns (segs: seq<SpeakerSegment>)
    ensures |segs| == |labels|
    ensures forall i :: 0 <= i < |labels| ==>
              segs[i].speakerId == labels[i] && segs[i].startTime == 1.5 * (i as real) &&
              segs[i].endTime == segs[i].startTime + 3.0 && segs[i].confidence == 0.85
  {
    segs := [];
    for i := 0 to |labels|
      invariant |segs| == i
      invariant forall t :: 0 <= t < i ==> segs[t] == SegmentFor(t, labels[t])
    {
      var startTime := HopSeconds * (i as real);
      var endTime := startTime + SegmentSeconds;
      segs := segs + [SpeakerSegment(labels[i], startTime, endTime, SegmentConfidence)];
    }
  }

  function Abs(x: real): real { if x < 0.0 then -x else x }

  /** `next` continues `current`: the same speaker, starting less than a second
      away from where `current` ends. */
  predicate Joins(current: SpeakerSegment, next: SpeakerSegment)
  {
    current.speakerId == next.speakerId && Abs(current.endTime - next.startTime) < 1.0
  }

  /** The merge scan from a current segment over the rest of the input. */
  function MergeFrom(current: SpeakerSegment, rest: seq<SpeakerSegment>): seq<SpeakerSegment>
    decreases |rest|
  {
    if rest == [] then [current]
    else if Joins(current, rest[0]) then MergeFrom(current.(endTime := rest[0].endTime), rest[1..])
    else [current] + MergeFrom(rest[0], rest[1..])
  }

  /** `mergeConsecutiveSegments` as a function of its input. */
  function Merge(segs: seq<SpeakerSegment>): seq<SpeakerSegment>
  {
    if segs == [] then [] else MergeFrom(segs[0], segs[1..])
  }

  /** `mergeConsecutiveSegments`: a scan with a `current` segment that absorbs
      each following segment it joins and is emitted when one does not. */
  method MergeConsecutiveSegments(segs: seq<SpeakerSegment>) returns (merged: seq<SpeakerSegment>)
    ensures merged == Merge(segs)
  {
    if segs == [] {
      return segs;
    }
    merged := [];
    var current := segs[0];
    for i := 1 to |segs|
      invariant merged + MergeFrom(current, segs[i..]) == Merge(segs)
    {
      var next := segs[i];
      assert segs[i..][1..] == segs[i + 1..];
      if Joins(current, next) {
        current := current.(endTime := next.endTime);
      } else {
        merged := merged + [current];
        current := next;
      }
    }
    merged := merged + [current];
  }

  /** Merging keeps at least one segment of a non-empty input and never adds
      any; the first output starts like the first input and keeps its speaker
      and confidence. */
  lemma {:induction false} MergeFromShape(current: SpeakerSegment, rest: seq<SpeakerSegment>)
    ensures 1 <= |MergeFrom(current, rest)| <= |rest| + 1
    ensures MergeFrom(current, rest)[0].speakerId == current.speakerId
    ensures MergeFrom(current, rest)[0].startTime == current.startTime
    ensures MergeFrom(current, rest)[0].confidence == current.confidence
    decreases |rest|
  {
    if rest != [] {
      if Joins(current, rest[0]) {
        MergeFromShape(current.(endTime := rest[0].endTime), rest[1..]);
      } else {
        MergeFromShape(rest[0], rest[1..]);
      }
    }
  }

  lemma MergeLength(segs: seq<SpeakerSegment>)
    ensures segs == [] ==> Merge(segs) == []
    ensures segs != [] ==> 1 <= |Merge(segs)| <= |segs|
    ensures segs != [] ==> Merge(segs)[0].speakerId == segs[0].speakerId &&
                           Merge(segs)[0].startTime == segs[0].startTime &&
                           Merge(segs)[0].confidence == segs[0].confidence
  {
    if segs != [] {
      MergeFromShape(segs[0], segs[1..]);
    }
  }

  /** No two neighbouring segments join. */
  predicate Settled(segs: seq<SpeakerSegment>)
  {
    forall i :: 0 <= i < |segs| - 1 ==> !Joins(segs[i], segs[i + 1])
  }

  /** The last output of a scan carries the speaker and end time of the last input. */
  function LastInput(current: SpeakerSegment, rest: seq<SpeakerSegment>): SpeakerSegment
  {
    if rest == [] then current else rest[|rest| - 1]
  }

  lemma {:induction false} MergeFromSettled(current: SpeakerSegment, rest: seq<SpeakerSegment>)
    ensures Settled(MergeFrom(current, rest))
    ensures |MergeFrom(current, rest)| > 0
    decreases |rest|
  {
    MergeFromShape(current, rest);
    if rest != [] {
      if Joins(current, rest[0]) {
        MergeFromSettled(current.(endTime := rest[0].endTime), rest[1..]);
      } else {
        var tail := MergeFrom(rest[0], rest[1..]);
        MergeFromSettled(rest[0], rest[1..]);
        MergeFromShape(rest[0], rest[1..]);
        assert !Joins(current, tail[0]);
        var out := [current] + tail;
        forall i | 0 <= i < |out| - 1
          ensures !Joins(out[i], out[i + 1])
        {
          if i > 0 {
            assert out[i] == tail[i - 1] && out[i + 1] == tail[i];
          }
        }
      }
    }
  }

  /** Merge output is settled: neighbouring outputs never join. */
  lemma MergeIsSettled(segs: seq<SpeakerSegment>)
    ensures Settled(Merge(segs))
  {
    if segs != [] {
      MergeFromSettled(segs[0], segs[1..]);
    }
  }

  /** A settled sequence is left as it is. */
  lemma {:induction false} MergeSettledIdentity(segs: seq<SpeakerSegment>)
    requires Settled(segs)
    ensures Merge(segs) == segs
    decreases |segs|
  {
    if |segs| > 1 {
      MergeSettledIdentity(segs[1..]);
      assert segs[1..][1..] == segs[2..];
      assert !Joins(segs[0], segs[1]);
      assert MergeFrom(segs[0], segs[1..]) == [segs[0]] + MergeFrom(segs[1], segs[2..]);
      assert segs == [segs[0]] + segs[1..];
    }
  }

  /** Merging changes nothing exactly when no neighbours join. */
  lemma MergeFixedPointIff(segs: seq<SpeakerSegment>)
    ensures Merge(segs) == segs <==> Settled(segs)
  {
    MergeIsSettled(segs);
    if Settled(segs) {
      MergeSettledIdentity(segs);
    }
  }

  /** A second merge pass changes nothing. */
  lemma MergeIdempotent(segs: seq<SpeakerSegment>)
    ensures Merge(Merge(segs)) == Merge(segs)
  {
    MergeIsSettled(segs);
    MergeSettledIdentity(Merge(segs));
  }

  // Merging appends one input at a time: an independent description of the
  // output as the maximal runs of neighbouring inputs that join.

  /** The reference merge, built from the back: a new last input either extends
      the last run (when it joins its left neighbour) or starts a run. */
  function MergeRuns(segs: seq<SpeakerSegment>): (r: seq<SpeakerSegment>)
    ensures segs != [] ==> |r| > 0
  {
    if |segs| <= 1 then segs
    else
      var m := MergeRuns(segs[..|segs| - 1]);
      var x := segs[|segs| - 1];
      if Joins(segs[|segs| - 2], x) then m[..|m| - 1] + [m[|m| - 1].(endTime := x.endTime)]
      else m + [x]
  }

  /** `Joins` reads only the speaker and end time of the current segment. */
  lemma JoinsDependsOnSpeakerAndEnd(a: SpeakerSegment, b: SpeakerSegment, x: SpeakerSegment)
    requires a.speakerId == b.speakerId && a.endTime == b.endTime
    ensures Joins(a, x) == Joins(b, x)
  {
  }

  /** Appending one input to a scan's rest extends or adds the last run. */
  lemma {:induction false} MergeFromSnoc(current: SpeakerSegment, rest: seq<SpeakerSegment>, x: SpeakerSegment)
    ensures var m := MergeFrom(current, rest);
            |m| > 0 &&
            m[|m| - 1].speakerId == LastInput(current, rest).speakerId &&
            m[|m| - 1].endTime == LastInput(current, rest).endTime &&
            MergeFrom(current, rest + [x]) ==
              if Joins(LastInput(current, rest), x) then m[..|m| - 1] + [m[|m| - 1].(endTime := x.endTime)]
              else m + [x]
    decreases |rest|
  {
    MergeFromShape(current, rest);
    if rest == [] {
      assert [x][1..] == [];
    } else {
      var r0 := rest[0];
      assert (rest + [x])[0] == r0 && (rest + [x])[1..] == rest[1..] + [x];
      if Joins(current, r0) {
        var c := current.(endTime := r0.endTime);
        MergeFromSnoc(c, rest[1..], x);
        if rest[1..] == [] {
          JoinsDependsOnSpeakerAndEnd(c, r0, x);
        } else {
          assert LastInput(c, rest[1..]) == LastInput(current, rest);
        }
      } else {
        MergeFromSnoc(r0, rest[1..], x);
        assert LastInput(r0, rest[1..]) == LastInput(current, rest);
        var t := MergeFrom(r0, rest[1..]);
        var m := [current] + t;
        assert m[..|m| - 1] == [current] + t[..|t| - 1];
        assert m[|m| - 1] == t[|t| - 1];
      }
    }
  }

  /** The scan agrees with the reference merge: each output segment is a
      maximal run of neighbouring inputs that join, with the run's first
      speaker, start and confidence and its last end time. */
  lemma {:induction false} MergeIsMergeRuns(segs: seq<SpeakerSegment>)
    ensures Merge(segs) == MergeRuns(segs)
    decreases |segs|
  {
    if |segs| > 1 {
      var init := segs[..|segs| - 1];
      var x := segs[|segs| - 1];
      MergeIsMergeRuns(init);
      assert init[1..] + [x] == segs[1..];
      MergeFromSnoc(segs[0], init[1..], x);
      assert LastInput(segs[0], init[1..]) == segs[|segs| - 2];
    }
  }

  /** The merge unit test: two overlapping segments of speaker 0 become one
      ending at 5.5 s, and the result is shorter than the input. */
  lemma MergeUnitTest()
    ensures var segs := [SpeakerSegment(0, 0.0, 3.0, 0.8), SpeakerSegment(0, 2.5, 5.5, 0.8),
                         SpeakerSegment(1, 5.0, 8.0, 0.8), SpeakerSegment(0, 8.5, 11.5, 0.8)];
            Merge(segs) == [SpeakerSegment(0, 0.0, 5.5, 0.8), SpeakerSegment(1, 5.0, 8.0, 0.8),
                            SpeakerSegment(0, 8.5, 11.5, 0.8)] &&
            |Merge(segs)| < |segs| && Merge(segs)[0].endTime == 5.5
  {
    var segs := [SpeakerSegment(0, 0.0, 3.0, 0.8), SpeakerSegment(0, 2.5, 5.5, 0.8),
                 SpeakerSegment(1, 5.0, 8.0, 0.8), SpeakerSegment(0, 8.5, 11.5, 0.8)];
    assert Joins(segs[0], segs[1]);
    assert !Joins(segs[0].(endTime := 5.5), segs[2]);
    assert !Joins(segs[2], segs[3]);
    assert segs[1..][1..] == segs[2..];
    assert segs[2..][1..] == [segs[3]];
  }

  /** Segments built by `diarize` are 1.5 s apart and last 3 s, so neighbours
      are 1.5 s from joining: merging leaves one segment per window. */
  lemma {:induction false} BuiltSegmentsAreSettled(labels: seq<int>, segs: seq<SpeakerSegment>)
    requires |segs| == |labels|
    requires forall i :: 0 <= i < |labels| ==> segs[i] == SegmentFor(i, labels[i])
    ensures Settled(segs) && Merge(segs) == segs
  {
    forall i | 0 <= i < |segs| - 1
      ensures !Joins(segs[i], segs[i + 1])
    {
      assert segs[i].endTime - segs[i + 1].startTime == 1.5;
    }
    MergeSettledIdentity(segs);
  }

  // ---------------------------------------------------------------------------
  // diarize

  /** The embedding of every kept window, in window order. */
  function Embeddings(audio: seq<real>, embed: seq<real> -> seq<real>): (es: seq<seq<real>>)
    ensures |es| == WindowCount(|audio|)
    ensures forall j :: 0 <= j < |es| ==> j * HopLength < |audio| && es[j] == embed(Window(audio, j))
  {
    seq(WindowCount(|audio|), j requires 0 <= j < WindowCount(|audio|) =>
      assert j * HopLength < |audio|; embed(Window(audio, j)))
  }

  /** `diarize`: window the audio, embed each window with the opaque model,
      cluster the embeddings into `numSpeakers` groups, build one segment per
      window and merge. Audio shorter than half a segment yields no window, so
      clustering fails on `embeddings[0]`; otherwise the merge never fires and
      the result has one segment per window, carrying its cluster label. */
  method Diarize(audio: seq<real>, numSpeakers: int, embed: seq<real> -> seq<real>, dim: nat, init: seq<nat>)
    returns (r: Result<seq<SpeakerSegment>>)
    requires forall w :: |embed(w)| == dim
    requires ValidDraws(init, WindowCount(|audio|), numSpeakers)
    ensures |audio| < MinWindowLength ==> r == Err(IndexOutOfBounds)
    ensures |audio| >= MinWindowLength && numSpeakers < 0 ==> r == Err(NegativeArraySize)
    ensures |audio| >= MinWindowLength && numSpeakers >= 0 ==>
              r.Ok? && |r.value| == WindowCount(|audio|) &&
              var labels := KMeansLabels(Embeddings(audio, embed), numSpeakers, init);
              forall i :: 0 <= i < |r.value| ==> r.value[i] == SegmentFor(i, labels[i])
  {
    var embeddings := EmbedWindows(audio, embed, dim);
    var clustered := KMeansClustering(embeddings, numSpeakers, init);
    if clustered.Err? {
      return Err(clustered.error);
    }
    var merged := SegmentsOf(clustered.value);
    r := Ok(merged);
  }

  /** The windows of the audio, each embedded by the model. */
  method EmbedWindows(audio: seq<real>, embed: seq<real> -> seq<real>, dim: nat) returns (embeddings: seq<seq<real>>)
    requires forall w :: |embed(w)| == dim
    ensures embeddings == Embeddings(audio, embed)
    ensures Uniform(embeddings, dim)
  {
    var windows := FrameAudio(audio);
    embeddings := seq(|windows|, i requires 0 <= i < |windows| => embed(windows[i]));
  }

  /** The segment loop followed by the merge, which leaves the built
      segments as they are. */
  method SegmentsOf(labels: seq<int>) returns (merged: seq<SpeakerSegment>)
    ensures |merged| == |labels|
    ensures forall i :: 0 <= i < |labels| ==> merged[i] == SegmentFor(i, labels[i])
  {
    var segs := BuildSegments(labels);
    forall i | 0 <= i < |labels|
      ensures segs[i] == SegmentFor(i, labels[i])
    {
    }
    BuiltSegmentsAreSettled(labels, segs);
    merged := MergeConsecutiveSegments(segs);
  }
}
