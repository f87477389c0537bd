/** The labelled samples, the in-place Fisher-Yates shuffle and the train/validation split. */
module Dataset {
  import opened Floats
  import opened Random
  import opened Wrappers
  import opened Networks

  /** Image: a pixel vector, None where the loader left the pointer NULL, and the label
      (0 for a cat, 1 for a dog). */
  datatype Image = Image(pixels: Option<seq<Float>>, category: int)

  /** What the training and evaluation loops demand of a sample: a pixel vector, when
      present, has at least INPUT_SIZE values (forward reads that many), and the label is
      0 or 1 (it indexes the two-entry output buffer unchecked). */
  predicate Usable(img: Image) {
    && (img.pixels.Some? ==> |img.pixels.value| >= INPUT_SIZE)
    && 0 <= img.category <= 1
  }

  /** The number of `rand()` calls shuffle_images makes on `count` elements. */
  function DrawsFor(count: int): nat {
    if count <= 1 then 0 else count - 1
  }

  function Swap<T>(s: seq<T>, i: nat, j: nat): (r: seq<T>)
    requires i < |s| && j < |s|
    ensures |r| == |s| && r[i] == s[j] && r[j] == s[i]
    ensures forall k {:trigger r[k]} :: 0 <= k < |s| && k != i && k != j ==> r[k] == s[k]
  {
    s[i := s[j]][j := s[i]]
  }

  /** The loop of shuffle_images from index `i` down to 1: element `i` is swapped with
      element `rand() % (i + 1)`, where the k-th call to `rand()` returns `draw(k)`. */
  function ShuffleDown<T>(s: seq<T>, i: nat, draw: nat -> RandInt, k: nat): (r: seq<T>)
    requires i < |s|
    ensures |r| == |s|
    decreases i
  {
    if i == 0 then s else ShuffleDown(Swap(s, i, draw(k) % (i + 1)), i - 1, draw, k + 1)
  }

  /** shuffle_images on all of `s`, starting at the k-th call to `rand()`. */
  function Shuffled<T>(s: seq<T>, draw: nat -> RandInt, k: nat): (r: seq<T>)
    ensures |r| == |s|
  {
    if |s| <= 1 then s else ShuffleDown(s, |s| - 1, draw, k)
  }

  /** An exchange keeps every element, as often as it was there. */
  lemma SwapPermutes<T>(s: seq<T>, i: nat, j: nat)
    requires i < |s| && j < |s|
    ensures multiset(Swap(s, i, j)) == multiset(s)
  {
  }

  /** Each step of the loop exchanges two elements, so the loop only reorders. */
  lemma {:induction false} ShuffleDownPermutes<T>(s: seq<T>, i: nat, draw: nat -> RandInt, k: nat)
    requires i < |s|
    ensures multiset(ShuffleDown(s, i, draw, k)) == multiset(s)
    decreases i
  {
    if i > 0 {
      var j := draw(k) % (i + 1);
      SwapPermutes(s, i, j);
      ShuffleDownPermutes(Swap(s, i, j), i - 1, draw, k + 1);
    }
  }

  /** The shuffle is a permutation: every sample stays, as often as it was there. */
  lemma ShuffledPermutes<T>(s: seq<T>, draw: nat -> RandInt, k: nat)
    ensures multiset(Shuffled(s, draw, k)) == multiset(s)
  {
    if |s| > 1 {
      ShuffleDownPermutes(s, |s| - 1, draw, k);
    }
  }

  /** shuffle_images: on a NULL array or `count <= 0` it does nothing; otherwise it permutes
      the first `count` elements in place by Fisher-Yates, using `count - 1` calls to
      `rand()`, and leaves the rest of the array alone. */
  method ShuffleImages(images: array?<Image>, count: int, rng: Rng)
    requires images != null ==> count <= images.Length
    modifies images, rng
    ensures images == null || count <= 0 ==> unchanged(rng) && (images != null ==> unchanged(images))
    ensures images != null && count > 0 ==>
      && images[..count] == Shuffled(old(images[..count]), rng.draw, old(rng.calls))
      && images[count..] == old(images[count..])
      && rng.calls == old(rng.calls) + DrawsFor(count)
  {
    if images == null || count <= 0 {
      return;
    }
    ShufflePrefix(images, count, rng);
  }

  /** The loop of shuffle_images, on a present array and a positive count. */
  method ShufflePrefix(images: array<Image>, count: nat, rng: Rng)
    requires 0 < count <= images.Length
    modifies images, rng
    ensures images[..count] == Shuffled(old(images[..count]), rng.draw, old(rng.calls))
    ensures images[count..] == old(images[count..])
    ensures rng.calls == old(rng.calls) + DrawsFor(count)
  {
    ghost var target := Shuffled(images[..count], rng.draw, rng.calls);
    ghost var current := images[..count];
    var i := count - 1;
    while i > 0
      invariant 0 <= i < count
      invariant images[..count] == current
      invariant ShuffleDown(current, i, rng.draw, rng.calls) == target
      invariant rng.calls == old(rng.calls) + (count - 1 - i)
      invariant images[count..] == old(images[count..])
    {
      var r := rng.Next();
      var j := r % (i + 1);
      SwapElements(images, count, i, j);
      current := Swap(current, i, j);
      i := i - 1;
    }
  }

  /** The exchange in the body of shuffle_images, through a temporary. */
  method SwapElements(images: array<Image>, count: nat, i: nat, j: nat)
    requires i < count && j < count && count <= images.Length
    modifies images
    ensures images[..count] == Swap(old(images[..count]), i, j)
    ensures images[count..] == old(images[count..])
  {
    var temp := images[i];
    images[i] := images[j];
    images[j] := temp;
  }

  // ---------------------------------------------------------------------------
  // split_dataset

  /** A C `Image *`: NULL, or `base + offset`. */
  datatype ImagePtr = Null | Ptr(base: array<Image>, offset: int)

  /** The four values split_dataset writes through its out-pointers. */
  datatype Split = Split(trainSet: ImagePtr, trainCount: int, valSet: ImagePtr, valCount: int)

  /** The ratio clamped to [0, 1]. */
  function ClampRatio(ratio: real): (r: real)
    ensures 0.0 <= r <= 1.0
    ensures 0.0 <= ratio <= 1.0 ==> r == ratio
    ensures ratio < 0.0 ==> r == 0.0
    ensures ratio > 1.0 ==> r == 1.0
  {
    if ratio < 0.0 then 0.0 else if ratio > 1.0 then 1.0 else ratio
  }

  /** `trunc(ratio * total)` for the clamped ratio. */
  function RawTrainCount(ratio: real, total: nat): (n: int)
    ensures 0 <= n <= total
  {
    var r := ClampRatio(ratio);
    assert 0.0 <= r * total as real <= total as real by {
      assert r * total as real <= 1.0 * total as real;
    }
    (r * total as real).Floor
  }

  /** The training count split_dataset computes for `total > 0` samples: the truncated
      product, forced into [1, total - 1] only when there are at least two samples. */
  function TrainCount(ratio: real, total: int): (n: int)
    requires total > 0
    ensures 0 <= n <= total
    ensures total > 1 ==> 1 <= n <= total - 1
    ensures total > 1 && 1 <= RawTrainCount(ratio, total) <= total - 1 ==> n == RawTrainCount(ratio, total)
    ensures total == 1 ==> n == RawTrainCount(ratio, total)
  {
    var n := RawTrainCount(ratio, total);
    if total > 1 then
      if n < 1 then 1 else if n > total - 1 then total - 1 else n
    else n
  }

  /** With one sample, the sample goes to training exactly when the ratio is at least 1:
      the clamp to [1, total - 1] does not apply. */
  lemma OneSampleSplit(ratio: real)
    ensures TrainCount(ratio, 1) == (if ratio >= 1.0 then 1 else 0)
  {
    var r := ClampRatio(ratio);
    if r < 1.0 {
      assert (r * 1 as real).Floor == 0;
    }
  }

  /** The cases of tests/test_network.c: four samples at 0.5 split 2/2, one sample at
      -1.0 splits 0/1. */
  lemma SplitExamples()
    ensures TrainCount(0.5, 4) == 2 && 4 - TrainCount(0.5, 4) == 2
    ensures TrainCount(-1.0, 1) == 0 && 1 - TrainCount(-1.0, 1) == 1
  {
    assert (0.5 * 4 as real).Floor == 2;
    OneSampleSplit(-1.0);
  }

  /** split_dataset. With any out-pointer NULL it writes and shuffles nothing (None). With a
      NULL array or `total <= 0` it writes NULL slices and zero counts without shuffling.
      Otherwise it shuffles the first `total` elements once and writes two contiguous
      slices of that same array: the training slice at its start, the validation slice
      right after it. */
  method SplitDataset(images: array?<Image>, totalCount: int, trainRatio: real, outs: bool, rng: Rng)
    returns (r: Option<Split>)
    requires images != null ==> totalCount <= images.Length
    modifies images, rng
    ensures !outs ==> r == None && unchanged(rng) && (images != null ==> unchanged(images))
    ensures outs && (images == null || totalCount <= 0) ==>
      r == Some(Split(Null, 0, Null, 0)) && unchanged(rng) && (images != null ==> unchanged(images))
    ensures outs && images != null && totalCount > 0 ==>
      && var n := TrainCount(trainRatio, totalCount);
      && r == Some(Split(Ptr(images, 0), n, Ptr(images, n), totalCount - n))
      && images[..totalCount] == Shuffled(old(images[..totalCount]), rng.draw, old(rng.calls))
      && images[totalCount..] == old(images[totalCount..])
      && rng.calls == old(rng.calls) + DrawsFor(totalCount)
      && Slice(r.value.trainSet, n) + Slice(r.value.valSet, totalCount - n) == images[..totalCount]
      && multiset(Slice(r.value.trainSet, n)) + multiset(Slice(r.value.valSet, totalCount - n))
           == multiset(old(images[..totalCount]))
  {
    if !outs {
      return None;
    }
    if images == null || totalCount <= 0 {
      return Some(Split(Null, 0, Null, 0));
    }
    var ratio := ClampRatio(trainRatio);
    ShuffleImages(images, totalCount, rng);
    var trainSamples := RawTrainCount(ratio, totalCount);
    if totalCount > 1 {
      if trainSamples < 1 {
        trainSamples := 1;
      }
      if trainSamples > totalCount - 1 {
        trainSamples := totalCount - 1;
      }
    }
    assert trainSamples == TrainCount(trainRatio, totalCount);
    r := Some(Split(Ptr(images, 0), trainSamples, Ptr(images, trainSamples), totalCount - trainSamples));
    ghost var t := images[..totalCount];
    SplitPartitions(old(images[..totalCount]), trainRatio, rng.draw, old(rng.calls));
    assert t[..trainSamples] + t[trainSamples..] == t;
    assert multiset(t[..trainSamples]) + multiset(t[trainSamples..]) == multiset(old(images[..totalCount]));
    SlicesCover(images, totalCount, trainSamples);
  }

  /** The elements a pointer and a count designate. */
  ghost function Slice(p: ImagePtr, count: int): seq<Image>
    reads if p.Ptr? then {p.base} else {}
    requires p.Ptr? ==> 0 <= p.offset && 0 <= count && p.offset + count <= p.base.Length
  {
    if p.Null? then [] else p.base[p.offset..p.offset + count]
  }

  /** The slice at the array's start and the one right after it cover the first `total`
      elements. */
  lemma SlicesCover(images: array<Image>, total: nat, n: nat)
    requires n <= total <= images.Length
    ensures Slice(Ptr(images, 0), n) == images[..total][..n]
    ensures Slice(Ptr(images, n), total - n) == images[..total][n..]
  {
  }

  /** Every sample of the shuffled collection lands in exactly one of the two slices, and
      together they hold the original samples. */
  lemma SplitPartitions(s: seq<Image>, ratio: real, draw: nat -> RandInt, k: nat)
    requires |s| > 0
    ensures var t, n := Shuffled(s, draw, k), TrainCount(ratio, |s|);
      && t[..n] + t[n..] == t
      && multiset(t[..n]) + multiset(t[n..]) == multiset(s)
  {
    var t, n := Shuffled(s, draw, k), TrainCount(ratio, |s|);
    ShuffledPermutes(s, draw, k);
    assert t[..n] + t[n..] == t;
  }
}
