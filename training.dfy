/** train and evaluate_network: stochastic gradient descent over a shuffled sample set,
    and the loss and accuracy of a network on a sample set. */
module Training {
  import opened Floats
  import opened Random
  import opened Wrappers
  import opened Layers
  import opened Networks
  import opened Dataset

  predicate AllUsable(s: seq<Image>) {
    forall k :: 0 <= k < |s| ==> Usable(s[k])
  }

  /** Reordering the samples keeps them usable. */
  lemma PermutationKeepsUsable(s: seq<Image>, t: seq<Image>)
    requires multiset(s) == multiset(t) && AllUsable(s)
    ensures AllUsable(t)
  {
    forall k | 0 <= k < |t|
      ensures Usable(t[k])
    {
      assert t[k] in multiset(t);
      var j :| 0 <= j < |s| && s[j] == t[k];
    }
  }

  /** malloc of a float buffer: NULL when `fails`, otherwise a new buffer that happens to
      hold `contents`. */
  method Malloc(fails: bool, contents: seq<Float>) returns (a: array?<Float>)
    ensures fails ==> a == null
    ensures !fails ==> a != null && fresh(a) && a[..] == contents
  {
    if fails {
      return null;
    }
    a := new Float[|contents|](i requires 0 <= i < |contents| => contents[i]);
  }

  // ---------------------------------------------------------------------------
  // train, as functions

  /** One sample of train's inner loop: forward, then backward with the activations
      forward left in the buffers. A sample without pixels changes nothing. */
  function Learn(ops: FloatOps, v: NetValue, img: Image): (r: NetValue)
    requires Shaped(v) && Usable(img)
    ensures Shaped(r)
    ensures img.pixels.None? ==> r == v
  {
    match img.pixels
    case None => v
    case Some(px) =>
      Backprop(ops, v, px, HiddenOf(ops, v, px), OutputOf(ops, v, px), img.category, LEARNING_RATE)
  }

  /** One epoch: every sample once, in the order of `s`. */
  function Epoch(ops: FloatOps, v: NetValue, s: seq<Image>): (r: NetValue)
    requires Shaped(v) && AllUsable(s)
    ensures Shaped(r)
    decreases |s|, 1
  {
    if |s| == 0 then v else LearnLast(ops, v, s)
  }

  /** The epoch over a non-empty run of samples: the epoch over all but the last, then
      the last sample. */
  function LearnLast(ops: FloatOps, v: NetValue, s: seq<Image>): (r: NetValue)
    requires Shaped(v) && AllUsable(s) && |s| > 0
    ensures Shaped(r)
    decreases |s|, 0
  {
    Learn(ops, Epoch(ops, v, s[..|s| - 1]), s[|s| - 1])
  }

  /** The sample order after `epochs` shuffles, starting at the k-th call to `rand()`:
      each shuffle starts where the previous one stopped drawing. */
  function ShuffledTimes<T>(s: seq<T>, draw: nat -> RandInt, k: nat, epochs: nat): (r: seq<T>)
    ensures |r| == |s|
    decreases epochs
  {
    if epochs == 0 then s
    else Shuffled(ShuffledTimes(s, draw, k, epochs - 1), draw, CallsAfter(k, DrawsFor(|s|), epochs - 1))
  }

  /** However often it is shuffled, the sample set keeps its samples. */
  lemma {:induction false} ShuffledTimesPermutes<T>(s: seq<T>, draw: nat -> RandInt, k: nat, epochs: nat)
    ensures multiset(ShuffledTimes(s, draw, k, epochs)) == multiset(s)
    decreases epochs
  {
    if epochs > 0 {
      var before := ShuffledTimes(s, draw, k, epochs - 1);
      ShuffledTimesPermutes(s, draw, k, epochs - 1);
      ShuffledPermutes(before, draw, CallsAfter(k, DrawsFor(|s|), epochs - 1));
    }
  }

  /** The network after `epochs` epochs of train, starting at the k-th call to `rand()`:
      the network after the earlier epochs, then one pass over the order the last shuffle
      left. */
  function Trained(ops: FloatOps, v: NetValue, s: seq<Image>, draw: nat -> RandInt, k: nat, epochs: nat): (r: NetValue)
    requires Shaped(v) && AllUsable(s)
    ensures Shaped(r)
    decreases epochs
  {
    if epochs == 0 then v
    else
      ShuffledTimesUsable(s, draw, k, epochs);
      Epoch(ops, Trained(ops, v, s, draw, k, epochs - 1), ShuffledTimes(s, draw, k, epochs))
  }

  /** The `rand()` calls made after `e` epochs of `d` calls each, starting at call `k`. */
  function CallsAfter(k: nat, d: nat, e: nat): (r: nat)
    ensures r >= k
    decreases e
  {
    if e == 0 then k else CallsAfter(k, d, e - 1) + d
  }

  /** Every epoch makes the same number of calls. */
  lemma {:induction false} CallsAfterIs(k: nat, d: nat, e: nat)
    ensures CallsAfter(k, d, e) == k + e * d
    decreases e
  {
    if e > 0 {
      CallsAfterIs(k, d, e - 1);
      assert (e - 1) * d + d == e * d;
    }
  }

  /** A shuffle keeps every sample usable. */
  lemma ShuffledUsable(s: seq<Image>, draw: nat -> RandInt, k: nat)
    requires AllUsable(s)
    ensures AllUsable(Shuffled(s, draw, k))
  {
    ShuffledPermutes(s, draw, k);
    PermutationKeepsUsable(s, Shuffled(s, draw, k));
  }

  /** So do repeated shuffles. */
  lemma ShuffledTimesUsable(s: seq<Image>, draw: nat -> RandInt, k: nat, epochs: nat)
    requires AllUsable(s)
    ensures AllUsable(ShuffledTimes(s, draw, k, epochs))
  {
    ShuffledTimesPermutes(s, draw, k, epochs);
    PermutationKeepsUsable(s, ShuffledTimes(s, draw, k, epochs));
  }

  /** An epoch over two runs of samples is the epoch over the first run followed by the
      epoch over the second. */
  lemma {:induction false} EpochConcat(ops: FloatOps, v: NetValue, a: seq<Image>, b: seq<Image>)
    requires Shaped(v) && AllUsable(a) && AllUsable(b)
    ensures AllUsable(a + b)
    ensures Epoch(ops, v, a + b) == Epoch(ops, Epoch(ops, v, a), b)
    decreases |b|
  {
    if |b| > 0 {
      var b' := b[..|b| - 1];
      assert (a + b)[..|a + b| - 1] == a + b';
      EpochConcat(ops, v, a, b');
    } else {
      assert a + b == a;
    }
  }

  /** Samples without pixels are skipped: an epoch over them leaves the network as it was. */
  lemma {:induction false} EpochSkipsEmpty(ops: FloatOps, v: NetValue, s: seq<Image>)
    requires Shaped(v) && AllUsable(s)
    requires forall k :: 0 <= k < |s| ==> s[k].pixels.None?
    ensures Epoch(ops, v, s) == v
    decreases |s|
  {
    if |s| > 0 {
      EpochSkipsEmpty(ops, v, s[..|s| - 1]);
    }
  }

  /** train returns at once, touching nothing, on a NULL network or array, a count or
      epoch number that is not positive, or a failed allocation of a scratch buffer. */
  predicate TrainSkips(nn: Network?, images: array?<Image>, count: int, epochs: int, hiddenFails: bool, outputFails: bool) {
    nn == null || images == null || count <= 0 || epochs <= 0 || hiddenFails || outputFails
  }

  /** train. `hiddenFails` and `outputFails` are the outcomes of its two scratch
      allocations. Otherwise each epoch reshuffles the first `count` samples in place and
      runs every sample through forward and backward; a network with a layer without
      storage is left as it is, since forward and backward then do nothing. */
  method Train(nn: Network?, images: array?<Image>, count: int, epochs: int, ops: FloatOps, rng: Rng,
               hiddenFails: bool, outputFails: bool)
    requires nn != null ==> nn.Valid()
    requires !TrainSkips(nn, images, count, epochs, hiddenFails, outputFails) ==>
      && count <= images.Length && AllUsable(images[..count])
      && (nn.Ready() ==> Shaped(nn.Value()))
    modifies images, rng
    modifies if nn == null then {} else {nn.layer1.weights, nn.layer1.biases, nn.layer2.weights, nn.layer2.biases}
    ensures TrainSkips(nn, images, count, epochs, hiddenFails, outputFails) ==>
      && unchanged(rng)
      && (images != null ==> unchanged(images))
      && (nn != null ==> unchanged(nn.Storage()))
    ensures !TrainSkips(nn, images, count, epochs, hiddenFails, outputFails) ==>
      && images[..count] == ShuffledTimes(old(images[..count]), rng.draw, old(rng.calls), epochs)
      && images[count..] == old(images[count..])
      && rng.calls == old(rng.calls) + epochs * DrawsFor(count)
      && nn.Valid() && nn.Ready() == old(nn.Ready())
      && (nn.Ready() ==>
            nn.Value() == Trained(ops, old(nn.Value()), old(images[..count]), rng.draw, old(rng.calls), epochs))
      && (!nn.Ready() ==> unchanged(nn.Storage()))
  {
    var hidden := Malloc(hiddenFails, seq(HIDDEN_SIZE, _ => ZERO));
    var output := Malloc(outputFails, seq(OUTPUT_SIZE, _ => ZERO));
    if nn == null || images == null || count <= 0 || epochs <= 0 || hidden == null || output == null {
      return;
    }
    TrainEpochs(nn, images, count, epochs, hidden, output, ops, rng);
  }

  /** The epoch loop of train, once every guard has passed. */
  method TrainEpochs(nn: Network, images: array<Image>, count: nat, epochs: nat, hidden: array<Float>, output: array<Float>,
                     ops: FloatOps, rng: Rng)
    requires nn.Valid() && (nn.Ready() ==> Shaped(nn.Value()))
    requires hidden !in nn.Storage() && output !in nn.Storage() && hidden != output
    requires hidden.Length == HIDDEN_SIZE && output.Length == OUTPUT_SIZE
    requires 0 < count <= images.Length && AllUsable(images[..count])
    modifies images, rng, hidden, output, nn.layer1.weights, nn.layer1.biases, nn.layer2.weights, nn.layer2.biases
    ensures images[..count] == ShuffledTimes(old(images[..count]), rng.draw, old(rng.calls), epochs)
    ensures images[count..] == old(images[count..])
    ensures rng.calls == old(rng.calls) + epochs * DrawsFor(count)
    ensures nn.Valid() && nn.Ready() == old(nn.Ready())
    ensures nn.Ready() ==> nn.Value() == Trained(ops, old(nn.Value()), old(images[..count]), rng.draw, old(rng.calls), epochs)
    ensures !nn.Ready() ==> unchanged(nn.Storage())
  {
    ghost var s0, k0, d := images[..count], rng.calls, DrawsFor(count);
    var epoch := 0;
    while epoch < epochs
      invariant 0 <= epoch <= epochs
      invariant nn.Valid() && nn.Ready() == old(nn.Ready())
      invariant images[count..] == old(images[count..])
      invariant rng.calls == CallsAfter(k0, d, epoch)
      invariant images[..count] == ShuffledTimes(s0, rng.draw, k0, epoch)
      invariant nn.Ready() ==> nn.Value() == Trained(ops, old(nn.Value()), s0, rng.draw, k0, epoch)
      invariant !nn.Ready() ==> unchanged(nn.Storage())
    {
      OrderDone(s0, rng.draw, k0, epoch);
      if nn.Ready() {
        TrainedDone(ops, old(nn.Value()), s0, rng.draw, k0, epoch);
      }
      RunEpoch(nn, images, count, hidden, output, ops, rng);
      epoch := epoch + 1;
    }
    CallsAfterIs(k0, d, epochs);
  }

  /** What one more epoch adds to the order and the `rand()` calls of `e` epochs of train. */
  lemma OrderDone(s: seq<Image>, draw: nat -> RandInt, k: nat, e: nat)
    requires AllUsable(s)
    ensures AllUsable(ShuffledTimes(s, draw, k, e))
    ensures CallsAfter(k, DrawsFor(|s|), e + 1) == CallsAfter(k, DrawsFor(|s|), e) + DrawsFor(|s|)
    ensures ShuffledTimes(s, draw, k, e + 1) == Shuffled(ShuffledTimes(s, draw, k, e), draw, CallsAfter(k, DrawsFor(|s|), e))
  {
    ShuffledTimesUsable(s, draw, k, e);
  }

  /** What one more epoch adds to the network of `e` epochs of train. */
  lemma TrainedDone(ops: FloatOps, v: NetValue, s: seq<Image>, draw: nat -> RandInt, k: nat, e: nat)
    requires AllUsable(s) && Shaped(v)
    ensures AllUsable(ShuffledTimes(s, draw, k, e + 1))
    ensures Trained(ops, v, s, draw, k, e + 1) == Epoch(ops, Trained(ops, v, s, draw, k, e), ShuffledTimes(s, draw, k, e + 1))
  {
    ShuffledTimesUsable(s, draw, k, e + 1);
  }

  /** One epoch of train: a shuffle of the first `count` samples, then every sample in
      the new order. */
  method RunEpoch(nn: Network, images: array<Image>, count: nat, hidden: array<Float>, output: array<Float>,
                  ops: FloatOps, rng: Rng)
    requires nn.Valid() && (nn.Ready() ==> Shaped(nn.Value()))
    requires hidden !in nn.Storage() && output !in nn.Storage() && hidden != output
    requires hidden.Length == HIDDEN_SIZE && output.Length == OUTPUT_SIZE
    requires 0 < count <= images.Length && AllUsable(images[..count])
    modifies images, rng, hidden, output, nn.layer1.weights, nn.layer1.biases, nn.layer2.weights, nn.layer2.biases
    ensures images[..count] == Shuffled(old(images[..count]), rng.draw, old(rng.calls))
    ensures images[count..] == old(images[count..])
    ensures rng.calls == old(rng.calls) + DrawsFor(count)
    ensures AllUsable(images[..count])
    ensures nn.Valid() && nn.Ready() == old(nn.Ready())
    ensures nn.Ready() ==> nn.Value() == Epoch(ops, old(nn.Value()), images[..count])
    ensures !nn.Ready() ==> unchanged(nn.Storage())
  {
    ghost var before := images[..count];
    ShuffleImages(images, count, rng);
    ShuffledUsable(before, rng.draw, old(rng.calls));
    RunSamples(nn, images, count, hidden, output, ops);
  }

  /** The sample loop of one epoch of train. The loss and the number of correct
      predictions it accumulates only feed a progress line, so they are not results. */
  method RunSamples(nn: Network, images: array<Image>, count: nat, hidden: array<Float>, output: array<Float>, ops: FloatOps)
    requires nn.Valid() && (nn.Ready() ==> Shaped(nn.Value()))
    requires hidden !in nn.Storage() && output !in nn.Storage() && hidden != output
    requires hidden.Length == HIDDEN_SIZE && output.Length == OUTPUT_SIZE
    requires count <= images.Length && AllUsable(images[..count])
    modifies hidden, output, nn.layer1.weights, nn.layer1.biases, nn.layer2.weights, nn.layer2.biases
    ensures nn.Valid() && nn.Ready() == old(nn.Ready())
    ensures nn.Ready() ==> nn.Value() == Epoch(ops, old(nn.Value()), images[..count])
    ensures !nn.Ready() ==> unchanged(nn.Storage())
  {
    ghost var v0 := if nn.Ready() then Some(nn.Value()) else None;
    ghost var s := images[..count];
    var totalLoss := ZERO;
    var correct := 0;
    for i := 0 to count
      invariant nn.Valid() && nn.Ready() == old(nn.Ready())
      invariant nn.Ready() ==> nn.Value() == Epoch(ops, v0.value, s[..i])
      invariant !nn.Ready() ==> unchanged(nn.Storage())
    {
      if v0.Some? {
        EpochStep(ops, v0.value, s, i);
      }
      totalLoss, correct := TrainSample(nn, images[i], hidden, output, ops, totalLoss, correct);
    }
    assert s[..count] == s;
  }

  /** The epoch over the first `i + 1` samples is the epoch over the first `i`, then sample `i`. */
  lemma EpochStep(ops: FloatOps, v: NetValue, s: seq<Image>, i: nat)
    requires Shaped(v) && AllUsable(s) && i < |s|
    ensures AllUsable(s[..i]) && AllUsable(s[..i + 1])
    ensures Epoch(ops, v, s[..i + 1]) == Learn(ops, Epoch(ops, v, s[..i]), s[i])
  {
    assert s[..i + 1][..i] == s[..i];
  }

  /** The body of train's sample loop: forward, the loss and accuracy bookkeeping, then
      backward with the activations forward left in the buffers. */
  method TrainSample(nn: Network, img: Image, hidden: array<Float>, output: array<Float>, ops: FloatOps,
                     totalLoss: Float, correct: int) returns (totalLoss': Float, correct': int)
    requires nn.Valid() && (nn.Ready() ==> Shaped(nn.Value()))
    requires hidden !in nn.Storage() && output !in nn.Storage() && hidden != output
    requires hidden.Length == HIDDEN_SIZE && output.Length == OUTPUT_SIZE
    requires Usable(img)
    modifies hidden, output, nn.layer1.weights, nn.layer1.biases, nn.layer2.weights, nn.layer2.biases
    ensures nn.Valid() && nn.Ready() == old(nn.Ready())
    ensures nn.Ready() ==> Shaped(nn.Value()) && nn.Value() == Learn(ops, old(nn.Value()), img)
    ensures !nn.Ready() ==> unchanged(nn.Storage())
  {
    Forward(nn, img.pixels, hidden, output, ops);
    totalLoss' := ops.sub(totalLoss, ops.log(ops.add(output[img.category], EPSILON)));
    var predicted := if ops.greater(output[0], output[1]) then 0 else 1;
    correct' := if predicted == img.category then correct + 1 else correct;
    assert hidden[..] == hidden[..HIDDEN_SIZE] && output[..] == output[..OUTPUT_SIZE];
    Backward(nn, img.pixels, hidden, output, img.category, LEARNING_RATE, ops);
  }

  // ---------------------------------------------------------------------------
  // evaluate_network

  /** What the evaluation loop has accumulated: the loss sum, the number of correct
      predictions and the contents of the output buffer. */
  datatype Tally = Tally(loss: Float, correct: int, output: seq<Float>)

  /** The evaluation loop over `s`, with `start` the initial contents of the output buffer
      and `net` the network's value when both layers have storage. When forward does not
      run (no pixels, or no storage) the loss and prediction are read from whatever the
      buffer still holds. */
  function Evaluated(ops: FloatOps, net: Option<NetValue>, s: seq<Image>, start: seq<Float>): (t: Tally)
    requires |start| == OUTPUT_SIZE && AllUsable(s) && (net.Some? ==> Shaped(net.value))
    ensures |t.output| == OUTPUT_SIZE
    ensures 0 <= t.correct <= |s|
    decreases |s|
  {
    if |s| == 0 then Tally(ZERO, 0, start)
    else Tallied(ops, net, Evaluated(ops, net, s[..|s| - 1], start), s[|s| - 1])
  }

  /** One sample of the evaluation loop: the output buffer is refreshed when forward runs,
      then the sample's loss is subtracted and a correct prediction counted. */
  function Tallied(ops: FloatOps, net: Option<NetValue>, t: Tally, img: Image): (r: Tally)
    requires |t.output| == OUTPUT_SIZE && Usable(img) && (net.Some? ==> Shaped(net.value))
    ensures |r.output| == OUTPUT_SIZE
    ensures t.correct <= r.correct <= t.correct + 1
    ensures net.None? || img.pixels.None? ==> r.output == t.output
  {
    var out := if net.Some? && img.pixels.Some? then OutputOf(ops, net.value, img.pixels.value) else t.output;
    Tally(ops.sub(t.loss, ops.log(ops.add(out[img.category], EPSILON))),
          t.correct + (if Predict(ops, out) == img.category then 1 else 0),
          out)
  }

  /** When the network has storage and every sample has pixels, the initial contents of
      the output buffer cannot reach the loss or the accuracy. */
  lemma {:induction false} EvaluatedIgnoresStart(ops: FloatOps, v: NetValue, s: seq<Image>, a: seq<Float>, b: seq<Float>)
    requires |a| == OUTPUT_SIZE && |b| == OUTPUT_SIZE && AllUsable(s) && Shaped(v)
    requires forall k :: 0 <= k < |s| ==> s[k].pixels.Some?
    ensures Evaluated(ops, Some(v), s, a).loss == Evaluated(ops, Some(v), s, b).loss
    ensures Evaluated(ops, Some(v), s, a).correct == Evaluated(ops, Some(v), s, b).correct
    ensures |s| > 0 ==> Evaluated(ops, Some(v), s, a) == Evaluated(ops, Some(v), s, b)
    decreases |s|
  {
    if |s| > 0 {
      EvaluatedIgnoresStart(ops, v, s[..|s| - 1], a, b);
    }
  }

  /** The value the network contributes to evaluation: its parameters when both layers
      have storage, nothing otherwise. */
  ghost function NetOf(nn: Network): (net: Option<NetValue>)
    reads nn, nn.layer1, nn.layer2, nn.layer1.weights, nn.layer1.biases, nn.layer2.weights, nn.layer2.biases
    requires nn.Valid()
    ensures net.Some? <==> nn.Ready()
  {
    if nn.Ready() then Some(nn.Value()) else None
  }

  predicate EvaluateSkips(nn: Network?, images: array?<Image>, count: int, hiddenFails: bool, outputFails: bool) {
    nn == null || images == null || count <= 0 || hiddenFails || outputFails
  }

  /** evaluate_network: 0 and 0 on a NULL network or array, a count that is not positive
      or a failed scratch allocation; otherwise the mean loss over the first `count`
      samples and the percentage of them predicted correctly. `garbage` is what the
      output buffer holds when it is allocated. The network is never written. */
  method EvaluateNetwork(nn: Network?, images: array?<Image>, count: int, ops: FloatOps,
                         hiddenFails: bool, outputFails: bool, garbage: seq<Float>) returns (loss: Float, acc: Float)
    requires nn != null ==> nn.Valid()
    requires !EvaluateSkips(nn, images, count, hiddenFails, outputFails) ==>
      && count <= images.Length && AllUsable(images[..count])
      && (nn.Ready() ==> Shaped(nn.Value()))
    requires |garbage| == OUTPUT_SIZE
    ensures EvaluateSkips(nn, images, count, hiddenFails, outputFails) ==> loss == ZERO && acc == ZERO
    ensures !EvaluateSkips(nn, images, count, hiddenFails, outputFails) ==>
      && var t := Evaluated(ops, NetOf(nn), images[..count], garbage);
      && loss == ops.div(t.loss, ops.ofInt(count))
      && acc == ops.mul(HUNDRED, ops.div(ops.ofInt(t.correct), ops.ofInt(count)))
  {
    if nn == null || images == null || count <= 0 {
      return ZERO, ZERO;
    }
    var hidden := Malloc(hiddenFails, seq(HIDDEN_SIZE, _ => ZERO));
    var output := Malloc(outputFails, garbage);
    if hidden == null || output == null {
      return ZERO, ZERO;
    }
    var totalLoss, correct := EvaluateSamples(nn, images, count, hidden, output, ops);
    loss := ops.div(totalLoss, ops.ofInt(count));
    acc := ops.mul(HUNDRED, ops.div(ops.ofInt(correct), ops.ofInt(count)));
  }

  /** The sample loop of evaluate_network. */
  method EvaluateSamples(nn: Network, images: array<Image>, count: nat, hidden: array<Float>, output: array<Float>,
                         ops: FloatOps) returns (totalLoss: Float, correct: int)
    requires nn.Valid() && (nn.Ready() ==> Shaped(nn.Value()))
    requires hidden !in nn.Storage() && output !in nn.Storage() && hidden != output
    requires hidden.Length == HIDDEN_SIZE && output.Length == OUTPUT_SIZE
    requires count <= images.Length && AllUsable(images[..count])
    modifies hidden, output
    ensures Tally(totalLoss, correct, output[..]) == Evaluated(ops, NetOf(nn), images[..count], old(output[..]))
  {
    ghost var net, s, start := NetOf(nn), images[..count], output[..];
    totalLoss, correct := ZERO, 0;
    for i := 0 to count
      invariant net == NetOf(nn)
      invariant Evaluated(ops, net, s[..i], start) == Tally(totalLoss, correct, output[..])
    {
      assert s[..i + 1][..i] == s[..i];
      assert Usable(s[i]);
      totalLoss, correct := EvaluateSample(nn, net, images[i], hidden, output, ops, totalLoss, correct);
    }
    assert s[..count] == s;
  }

  /** The body of the evaluation loop: forward, then the loss and accuracy bookkeeping. */
  method EvaluateSample(nn: Network, ghost net: Option<NetValue>, img: Image, hidden: array<Float>, output: array<Float>,
                        ops: FloatOps, totalLoss: Float, correct: int) returns (totalLoss': Float, correct': int)
    requires nn.Valid() && (nn.Ready() ==> Shaped(nn.Value())) && net == NetOf(nn)
    requires hidden !in nn.Storage() && output !in nn.Storage() && hidden != output
    requires hidden.Length == HIDDEN_SIZE && output.Length == OUTPUT_SIZE
    requires Usable(img)
    modifies hidden, output
    ensures net == NetOf(nn)
    ensures Tally(totalLoss', correct', output[..]) == Tallied(ops, net, Tally(totalLoss, correct, old(output[..])), img)
  {
    Forward(nn, img.pixels, hidden, output, ops);
    assert output[..] == output[..OUTPUT_SIZE];
    totalLoss' := ops.sub(totalLoss, ops.log(ops.add(output[img.category], EPSILON)));
    var predicted := if ops.greater(output[0], output[1]) then 0 else 1;
    correct' := if predicted == img.category then correct + 1 else correct;
  }
}
