/** The two-layer network and its forward and backward passes. The arithmetic is that of
    src/catdog.c, operation by operation and in the same order, over the uninterpreted
    float operations of `FloatOps`. */
module Networks {
  import opened Floats
  import opened Random
  import opened Layers
  import opened Wrappers

  // The architecture constants of include/catdog.h.
  const IMG_SIZE: nat := 64
  const INPUT_SIZE: nat := IMG_SIZE * IMG_SIZE * 3
  const HIDDEN_SIZE: nat := 128
  const OUTPUT_SIZE: nat := 2

  /** What a network holds, as a value. */
  datatype NetValue = NetValue(layer1: Params, layer2: Params)

  /** The shape forward and backward index with: layer1 maps INPUT_SIZE inputs to
      HIDDEN_SIZE hidden units, layer2 maps those to OUTPUT_SIZE scores. */
  predicate Shaped(v: NetValue) {
    && WellShaped(v.layer1) && WellShaped(v.layer2)
    && v.layer1.rows == HIDDEN_SIZE && v.layer1.cols == INPUT_SIZE
    && v.layer2.rows == OUTPUT_SIZE && v.layer2.cols == HIDDEN_SIZE
  }

  // ---------------------------------------------------------------------------
  // The forward pass, as functions.

  /** `acc + w[0]*x[0] + ... + w[n-1]*x[n-1]`, accumulated left to right. */
  function Dot(ops: FloatOps, acc: Float, w: seq<Float>, x: seq<Float>, n: nat): Float
    requires n <= |w| && n <= |x|
  {
    if n == 0 then acc else ops.add(Dot(ops, acc, w, x, n - 1), ops.mul(w[n - 1], x[n - 1]))
  }

  /** The hidden activations: relu of each layer1 unit's biased weighted sum. */
  function HiddenOf(ops: FloatOps, v: NetValue, input: seq<Float>): (h: seq<Float>)
    requires Shaped(v) && |input| >= INPUT_SIZE
    ensures |h| == HIDDEN_SIZE
  {
    seq(HIDDEN_SIZE, i requires 0 <= i < HIDDEN_SIZE =>
      Relu(ops, Dot(ops, v.layer1.biases[i], v.layer1.weights[i], input, INPUT_SIZE)))
  }

  /** The raw output scores: each layer2 unit's biased weighted sum of the hidden units. */
  function RawOf(ops: FloatOps, v: NetValue, hidden: seq<Float>): (raw: seq<Float>)
    requires Shaped(v) && |hidden| >= HIDDEN_SIZE
    ensures |raw| == OUTPUT_SIZE
  {
    seq(OUTPUT_SIZE, i requires 0 <= i < OUTPUT_SIZE =>
      Dot(ops, v.layer2.biases[i], v.layer2.weights[i], hidden, HIDDEN_SIZE))
  }

  /** The running maximum of `s[0..n]` as softmax computes it: a later element replaces
      the maximum only when it is strictly greater. */
  function MaxOf(ops: FloatOps, s: seq<Float>, n: nat): Float
    requires 1 <= n <= |s|
  {
    if n == 1 then s[0]
    else
      var m := MaxOf(ops, s, n - 1);
      if ops.greater(s[n - 1], m) then s[n - 1] else m
  }

  /** `0 + s[0] + ... + s[n-1]`, accumulated left to right. */
  function SumOf(ops: FloatOps, s: seq<Float>, n: nat): Float
    requires n <= |s|
  {
    if n == 0 then ZERO else ops.add(SumOf(ops, s, n - 1), s[n - 1])
  }

  /** The shifted exponentials `expf(raw[i] - max)`. */
  function ExpsOf(ops: FloatOps, raw: seq<Float>): (e: seq<Float>)
    requires |raw| >= 1
    ensures |e| == |raw|
  {
    var m := MaxOf(ops, raw, |raw|);
    seq(|raw|, i requires 0 <= i < |raw| => ops.exp(ops.sub(raw[i], m)))
  }

  /** softmax with the maximum subtracted: each shifted exponential over their sum. */
  function SoftmaxOf(ops: FloatOps, raw: seq<Float>): (out: seq<Float>)
    requires |raw| >= 1
    ensures |out| == |raw|
  {
    var e := ExpsOf(ops, raw);
    var total := SumOf(ops, e, |e|);
    seq(|raw|, i requires 0 <= i < |raw| => ops.div(e[i], total))
  }

  /** The class probabilities forward computes for one input. */
  function OutputOf(ops: FloatOps, v: NetValue, input: seq<Float>): (out: seq<Float>)
    requires Shaped(v) && |input| >= INPUT_SIZE
    ensures |out| == OUTPUT_SIZE
  {
    SoftmaxOf(ops, RawOf(ops, v, HiddenOf(ops, v, input)))
  }

  /** The predicted class: `output[0] > output[1] ? 0 : 1`, so a tie predicts class 1. */
  function Predict(ops: FloatOps, out: seq<Float>): (c: int)
    requires |out| >= 2
    ensures c == 0 || c == 1
    ensures c == 0 <==> ops.greater(out[0], out[1])
  {
    if ops.greater(out[0], out[1]) then 0 else 1
  }

  // ---------------------------------------------------------------------------
  // The backward pass, as functions.

  /** `output[i] - (i == trueLabel ? 1 : 0)`: the cross-entropy gradient at the softmax input. */
  function OutputGrad(ops: FloatOps, output: seq<Float>, trueLabel: int): (g: seq<Float>)
    requires |output| >= OUTPUT_SIZE
    ensures |g| == OUTPUT_SIZE
  {
    seq(OUTPUT_SIZE, i requires 0 <= i < OUTPUT_SIZE => ops.sub(output[i], if i == trueLabel then ONE else ZERO))
  }

  /** `0 + og[0]*w2[0][i] + ... + og[n-1]*w2[n-1][i]`: column `i` of layer2 weighted by the
      output gradient. */
  function BackSum(ops: FloatOps, og: seq<Float>, w2: seq<seq<Float>>, i: nat, n: nat): Float
    requires n <= |og| && n <= |w2|
    requires forall k :: 0 <= k < n ==> i < |w2[k]|
  {
    if n == 0 then ZERO else ops.add(BackSum(ops, og, w2, i, n - 1), ops.mul(og[n - 1], w2[n - 1][i]))
  }

  /** The hidden gradient, computed from the layer2 weights `w2` it is given. */
  function HiddenGrad(ops: FloatOps, og: seq<Float>, w2: seq<seq<Float>>, hidden: seq<Float>): (g: seq<Float>)
    requires |og| == OUTPUT_SIZE && |w2| == OUTPUT_SIZE && |hidden| >= HIDDEN_SIZE
    requires forall k :: 0 <= k < OUTPUT_SIZE ==> |w2[k]| == HIDDEN_SIZE
    ensures |g| == HIDDEN_SIZE
  {
    seq(HIDDEN_SIZE, i requires 0 <= i < HIDDEN_SIZE =>
      ops.mul(BackSum(ops, og, w2, i, OUTPUT_SIZE), ReluDerivative(ops, hidden[i])))
  }

  /** One gradient-descent step on a layer: `w[i][j] -= lr * grad[i] * x[j]` and
      `b[i] -= lr * grad[i]`, with the shape unchanged. */
  function Update(ops: FloatOps, p: Params, grad: seq<Float>, x: seq<Float>, lr: Float): (q: Params)
    requires WellShaped(p) && |grad| >= p.rows && |x| >= p.cols
    ensures WellShaped(q) && q.rows == p.rows && q.cols == p.cols
  {
    Params(p.rows, p.cols,
      seq(p.rows, i requires 0 <= i < p.rows => StepRowOf(ops, p.weights[i], grad[i], x, lr)),
      seq(p.rows, i requires 0 <= i < p.rows => ops.sub(p.biases[i], ops.mul(lr, grad[i]))))
  }

  /** One weight row after a step: `row[j] - lr * g * x[j]` for every entry. */
  function StepRowOf(ops: FloatOps, row: seq<Float>, g: Float, x: seq<Float>, lr: Float): (r: seq<Float>)
    requires |x| >= |row|
    ensures |r| == |row|
  {
    seq(|row|, j requires 0 <= j < |row| => ops.sub(row[j], ops.mul(ops.mul(lr, g), x[j])))
  }

  /** backward: both layers take one step, and layer1's gradient is computed from the
      layer2 weights as they were before layer2's step. */
  function Backprop(ops: FloatOps, v: NetValue, input: seq<Float>, hidden: seq<Float>, output: seq<Float>,
                    trueLabel: int, lr: Float): (r: NetValue)
    requires Shaped(v) && |input| >= INPUT_SIZE && |hidden| >= HIDDEN_SIZE && |output| >= OUTPUT_SIZE
    ensures Shaped(r)
  {
    var og := OutputGrad(ops, output, trueLabel);
    var hg := HiddenGrad(ops, og, v.layer2.weights, hidden);
    NetValue(Update(ops, v.layer1, hg, input, lr), Update(ops, v.layer2, og, hidden, lr))
  }

  // ---------------------------------------------------------------------------
  // The network object.

  /** NeuralNetwork: two layers, owned exclusively; their storage never overlaps. */
  class Network {
    var layer1: Layer
    var layer2: Layer

    constructor (layer1: Layer, layer2: Layer)
      ensures this.layer1 == layer1 && this.layer2 == layer2
    {
      this.layer1 := layer1;
      this.layer2 := layer2;
    }

    ghost predicate Valid()
      reads this, layer1, layer2, layer1.weights, layer2.weights
    {
      && layer1 != layer2 && layer1.Valid() && layer2.Valid()
      && layer1.Storage() !! layer2.Storage()
    }

    /** The arrays the two layers own. */
    ghost function Storage(): set<object>
      reads this, layer1, layer2
    {
      layer1.Storage() + layer2.Storage()
    }

    /** No layer is a sentinel or released: the guard of forward, backward and save. */
    predicate Ready()
      reads this, layer1, layer2
    {
      layer1.Allocated() && layer2.Allocated()
    }

    ghost function Value(): NetValue
      reads this, layer1, layer2, layer1.weights, layer1.biases, layer2.weights, layer2.biases
      requires Valid() && Ready()
    {
      NetValue(layer1.Value(), layer2.Value())
    }
  }

  /** create_network: layer1 is HIDDEN_SIZE x INPUT_SIZE, layer2 is OUTPUT_SIZE x HIDDEN_SIZE,
      each created all-or-nothing from its own allocation outcomes. */
  method CreateNetwork(ops: FloatOps, rng: Rng, fails1: nat -> bool, fails2: nat -> bool) returns (nn: Network)
    modifies rng
    ensures fresh(nn) && fresh(nn.layer1) && fresh(nn.layer2) && fresh(nn.Storage()) && nn.Valid()
    ensures Builds(HIDDEN_SIZE, INPUT_SIZE, fails1) ==>
      nn.layer1.Allocated() && nn.layer1.rows == HIDDEN_SIZE && nn.layer1.cols == INPUT_SIZE
    ensures !Builds(HIDDEN_SIZE, INPUT_SIZE, fails1) ==> nn.layer1.IsSentinel()
    ensures Builds(OUTPUT_SIZE, HIDDEN_SIZE, fails2) ==>
      nn.layer2.Allocated() && nn.layer2.rows == OUTPUT_SIZE && nn.layer2.cols == HIDDEN_SIZE
    ensures !Builds(OUTPUT_SIZE, HIDDEN_SIZE, fails2) ==> nn.layer2.IsSentinel()
    ensures nn.Ready() ==> Shaped(nn.Value())
    ensures rng.calls == old(rng.calls) + DrawsUsed(HIDDEN_SIZE, INPUT_SIZE, fails1) + DrawsUsed(OUTPUT_SIZE, HIDDEN_SIZE, fails2)
    ensures Builds(HIDDEN_SIZE, INPUT_SIZE, fails1) ==>
      nn.layer1.Value() == Params(HIDDEN_SIZE, INPUT_SIZE,
        InitMatrix(ops, rng.draw, old(rng.calls), HIDDEN_SIZE, INPUT_SIZE), seq(HIDDEN_SIZE, _ => ZERO))
    ensures Builds(OUTPUT_SIZE, HIDDEN_SIZE, fails2) ==>
      nn.layer2.Value() == Params(OUTPUT_SIZE, HIDDEN_SIZE,
        InitMatrix(ops, rng.draw, old(rng.calls) + DrawsUsed(HIDDEN_SIZE, INPUT_SIZE, fails1), OUTPUT_SIZE, HIDDEN_SIZE),
        seq(OUTPUT_SIZE, _ => ZERO))
  {
    var l1 := CreateLayer(HIDDEN_SIZE, INPUT_SIZE, ops, rng, fails1);
    var l2 := CreateLayer(OUTPUT_SIZE, HIDDEN_SIZE, ops, rng, fails2);
    nn := new Network(l1, l2);
  }

  /** free_network: releases both layers; a NULL network is ignored. */
  method FreeNetwork(nn: Network?)
    modifies if nn == null then {} else {nn.layer1, nn.layer2}
    ensures nn != null ==> !nn.layer1.Allocated() && !nn.layer2.Allocated()
    ensures nn != null ==>
      && nn.layer1.rows == old(nn.layer1.rows) && nn.layer1.cols == old(nn.layer1.cols)
      && nn.layer2.rows == old(nn.layer2.rows) && nn.layer2.cols == old(nn.layer2.cols)
    ensures nn != null && old(nn.Valid()) ==> nn.Valid()
  {
    if nn == null {
      return;
    }
    FreeLayer(nn.layer1);
    FreeLayer(nn.layer2);
  }

  // ---------------------------------------------------------------------------
  // forward

  /** The guards of forward and backward pass: no NULL argument and no layer without storage. */
  predicate Runs(nn: Network?, input: Option<seq<Float>>, hidden: array?<Float>, output: array?<Float>)
    reads nn, if nn == null then {} else {nn.layer1, nn.layer2}
  {
    nn != null && input.Some? && hidden != null && output != null && nn.Ready()
  }

  /** What forward and backward demand of their caller when they run: the architecture's
      shape, an input of INPUT_SIZE values and buffers of HIDDEN_SIZE and OUTPUT_SIZE. */
  ghost predicate Fits(nn: Network?, input: Option<seq<Float>>, hidden: array?<Float>, output: array?<Float>)
    reads nn, if nn == null then {} else {nn.layer1, nn.layer2}
    reads if nn == null then {} else {nn.layer1.weights, nn.layer1.biases, nn.layer2.weights, nn.layer2.biases}
  {
    && (nn != null ==> nn.Valid())
    && (hidden != null && output != null ==> hidden != output)
    && (nn != null ==> hidden !in nn.Storage() && output !in nn.Storage())
    && (Runs(nn, input, hidden, output) ==>
          && Shaped(nn.Value()) && |input.value| >= INPUT_SIZE
          && hidden.Length >= HIDDEN_SIZE && output.Length >= OUTPUT_SIZE)
  }

  /** forward: on NULL arguments or a layer without storage it writes nothing; otherwise
      the first HIDDEN_SIZE hidden entries become the hidden activations and the first
      OUTPUT_SIZE output entries the class probabilities, and nothing else is written. */
  method Forward(nn: Network?, input: Option<seq<Float>>, hidden: array?<Float>, output: array?<Float>, ops: FloatOps)
    requires Fits(nn, input, hidden, output)
    modifies hidden, output
    ensures nn != null ==> nn.Ready() == old(nn.Ready())
    ensures nn != null && nn.Ready() ==> nn.Valid() && nn.Value() == old(nn.Value())
    ensures !Runs(nn, input, hidden, output) ==>
      (hidden != null ==> unchanged(hidden)) && (output != null ==> unchanged(output))
    ensures Runs(nn, input, hidden, output) ==>
      && hidden[..HIDDEN_SIZE] == HiddenOf(ops, nn.Value(), input.value)
      && output[..OUTPUT_SIZE] == OutputOf(ops, nn.Value(), input.value)
      && hidden[HIDDEN_SIZE..] == old(hidden[HIDDEN_SIZE..])
      && output[OUTPUT_SIZE..] == old(output[OUTPUT_SIZE..])
  {
    if nn == null || input.None? || hidden == null || output == null {
      return;
    }
    if !nn.Ready() {
      return;
    }
    ghost var v := nn.Value();
    HiddenPass(nn.layer1, input.value, hidden, ops);
    assert hidden[..HIDDEN_SIZE] == HiddenOf(ops, v, input.value);
    var raw := new Float[OUTPUT_SIZE];
    OutputPass(nn.layer2, hidden, raw, ops);
    assert raw[..] == RawOf(ops, v, hidden[..]);
    assert RawOf(ops, v, hidden[..]) == RawOf(ops, v, hidden[..HIDDEN_SIZE]) by {
      DotPrefix(ops, v.layer2, hidden[..]);
    }
    Softmax(raw, output, OUTPUT_SIZE, ops);
    assert raw[..OUTPUT_SIZE] == raw[..];
  }

  /** The weighted sum over a longer vector only reads its first `cols` entries. */
  lemma DotPrefix(ops: FloatOps, p: Params, x: seq<Float>)
    requires WellShaped(p) && p.cols == HIDDEN_SIZE && |x| >= HIDDEN_SIZE
    ensures forall i :: 0 <= i < p.rows ==>
      Dot(ops, p.biases[i], p.weights[i], x, HIDDEN_SIZE) == Dot(ops, p.biases[i], p.weights[i], x[..HIDDEN_SIZE], HIDDEN_SIZE)
  {
    forall i | 0 <= i < p.rows {
      DotSameEntries(ops, p.biases[i], p.weights[i], x, x[..HIDDEN_SIZE], HIDDEN_SIZE);
    }
  }

  /** A weighted sum depends only on the entries it reads. */
  lemma {:induction false} DotSameEntries(ops: FloatOps, acc: Float, w: seq<Float>, x: seq<Float>, y: seq<Float>, n: nat)
    requires n <= |w| && n <= |x| && n <= |y|
    requires x[..n] == y[..n]
    ensures Dot(ops, acc, w, x, n) == Dot(ops, acc, w, y, n)
  {
    if n > 0 {
      assert x[..n - 1] == x[..n][..n - 1] && y[..n - 1] == y[..n][..n - 1];
      assert x[n - 1] == x[..n][n - 1] && y[n - 1] == y[..n][n - 1];
      DotSameEntries(ops, acc, w, x, y, n - 1);
    }
  }

  /** `bias + weights[i][0]*x[0] + ... + weights[i][n-1]*x[n-1]`, the inner loop of both passes. */
  method WeightedSum(w: array<seq<Float>>, i: nat, bias: Float, x: seq<Float>, n: nat, ops: FloatOps) returns (sum: Float)
    requires i < w.Length && n <= |w[i]| && n <= |x|
    ensures sum == Dot(ops, bias, w[i], x, n)
  {
    sum := bias;
    for j := 0 to n
      invariant sum == Dot(ops, bias, w[i], x, j)
    {
      sum := ops.add(sum, ops.mul(w[i][j], x[j]));
    }
  }

  /** Layer 1 of forward: `hidden[i] = relu(b1[i] + sum_j w1[i][j] * input[j])`. */
  method HiddenPass(layer: Layer, input: seq<Float>, hidden: array<Float>, ops: FloatOps)
    requires layer.Valid() && layer.Allocated()
    requires layer.rows == HIDDEN_SIZE && layer.cols == INPUT_SIZE
    requires |input| >= INPUT_SIZE && hidden.Length >= HIDDEN_SIZE
    requires hidden != layer.biases
    modifies hidden
    ensures forall i :: 0 <= i < HIDDEN_SIZE ==>
      hidden[i] == Relu(ops, Dot(ops, layer.biases[i], layer.weights[i], input, INPUT_SIZE))
    ensures hidden[HIDDEN_SIZE..] == old(hidden[HIDDEN_SIZE..])
  {
    for i := 0 to HIDDEN_SIZE
      invariant forall k :: 0 <= k < i ==>
        hidden[k] == Relu(ops, Dot(ops, layer.biases[k], layer.weights[k], input, INPUT_SIZE))
      invariant hidden[HIDDEN_SIZE..] == old(hidden[HIDDEN_SIZE..])
    {
      var sum := WeightedSum(layer.weights, i, layer.biases[i], input, INPUT_SIZE, ops);
      hidden[i] := Relu(ops, sum);
    }
  }

  /** Layer 2 of forward: `raw[i] = b2[i] + sum_j w2[i][j] * hidden[j]`. */
  method OutputPass(layer: Layer, hidden: array<Float>, raw: array<Float>, ops: FloatOps)
    requires layer.Valid() && layer.Allocated()
    requires layer.rows == OUTPUT_SIZE && layer.cols == HIDDEN_SIZE
    requires hidden.Length >= HIDDEN_SIZE && raw.Length == OUTPUT_SIZE
    requires raw != layer.biases && raw != hidden
    modifies raw
    ensures forall i :: 0 <= i < OUTPUT_SIZE ==>
      raw[i] == Dot(ops, layer.biases[i], layer.weights[i], hidden[..], HIDDEN_SIZE)
  {
    for i := 0 to OUTPUT_SIZE
      invariant forall k :: 0 <= k < i ==>
        raw[k] == Dot(ops, layer.biases[k], layer.weights[k], hidden[..], HIDDEN_SIZE)
    {
      var sum := WeightedSum(layer.weights, i, layer.biases[i], hidden[..], HIDDEN_SIZE, ops);
      raw[i] := sum;
    }
  }

  /** softmax: the first `size` outputs become the max-shifted softmax of the first `size`
      inputs; nothing else is written. */
  method Softmax(input: array<Float>, output: array<Float>, size: int, ops: FloatOps)
    requires 1 <= size <= input.Length && size <= output.Length && input != output
    modifies output
    ensures output[..size] == SoftmaxOf(ops, input[..size])
    ensures output[size..] == old(output[size..])
  {
    ghost var s := input[..size];
    var max := input[0];
    for i := 1 to size
      invariant max == MaxOf(ops, s, i)
    {
      if ops.greater(input[i], max) {
        max := input[i];
      }
    }
    ghost var e := ExpsOf(ops, s);
    var sum := ZERO;
    for i := 0 to size
      invariant forall k :: 0 <= k < i ==> output[k] == e[k]
      invariant sum == SumOf(ops, e, i)
      invariant output[size..] == old(output[size..])
    {
      output[i] := ops.exp(ops.sub(input[i], max));
      sum := ops.add(sum, output[i]);
    }
    for i := 0 to size
      invariant forall k :: 0 <= k < i ==> output[k] == ops.div(e[k], sum)
      invariant forall k :: i <= k < size ==> output[k] == e[k]
      invariant output[size..] == old(output[size..])
    {
      output[i] := ops.div(output[i], sum);
    }
    assert output[..size] == SoftmaxOf(ops, s);
  }

  // ---------------------------------------------------------------------------
  // backward

  /** backward: on NULL arguments or a layer without storage it writes nothing; otherwise
      both layers take one gradient step, with layer1's gradient computed from the layer2
      weights as they were before the call; the layers keep their shape and arrays. */
  method Backward(nn: Network?, input: Option<seq<Float>>, hidden: array?<Float>, output: array?<Float>,
                  trueLabel: int, lr: Float, ops: FloatOps)
    requires Fits(nn, input, hidden, output)
    modifies if nn == null then {} else {nn.layer1.weights, nn.layer1.biases, nn.layer2.weights, nn.layer2.biases}
    ensures nn != null ==> nn.Valid() && nn.Ready() == old(nn.Ready())
    ensures !Runs(nn, input, hidden, output) ==> nn != null ==>
      && unchanged(nn.Storage())
      && (nn.Ready() ==> nn.Value() == old(nn.Value()))
    ensures Runs(nn, input, hidden, output) ==>
      && nn.Ready()
      && nn.Value() == Backprop(ops, old(nn.Value()), input.value, old(hidden[..]), old(output[..]), trueLabel, lr)
  {
    if nn == null || input.None? || hidden == null || output == null {
      return;
    }
    if !nn.Ready() {
      return;
    }
    ghost var v := nn.Value();
    var og := OutputGradPass(output, trueLabel, ops);
    var hg := HiddenGradPass(nn.layer2, og, hidden, ops);
    Step(nn.layer2, og[..], hidden[..], lr, ops);
    Step(nn.layer1, hg[..], input.value, lr, ops);
  }

  /** The output-gradient loop of backward: the probabilities minus the one-hot label. */
  method OutputGradPass(output: array<Float>, trueLabel: int, ops: FloatOps) returns (og: array<Float>)
    requires output.Length >= OUTPUT_SIZE
    ensures fresh(og) && og[..] == OutputGrad(ops, output[..], trueLabel)
  {
    og := new Float[OUTPUT_SIZE];
    for i := 0 to OUTPUT_SIZE
      invariant forall k :: 0 <= k < i ==> og[k] == OutputGrad(ops, output[..], trueLabel)[k]
    {
      og[i] := ops.sub(output[i], if i == trueLabel then ONE else ZERO);
    }
  }

  /** The hidden-gradient loop of backward, which only reads layer2. */
  method HiddenGradPass(layer2: Layer, og: array<Float>, hidden: array<Float>, ops: FloatOps) returns (hg: array<Float>)
    requires layer2.Valid() && layer2.Allocated()
    requires layer2.rows == OUTPUT_SIZE && layer2.cols == HIDDEN_SIZE
    requires og.Length == OUTPUT_SIZE && hidden.Length >= HIDDEN_SIZE
    ensures fresh(hg)
    ensures hg[..] == HiddenGrad(ops, og[..], layer2.Value().weights, hidden[..])
  {
    ghost var w2, ogs, hs := layer2.weights[..], og[..], hidden[..];
    hg := new Float[HIDDEN_SIZE](_ => ZERO);
    for i := 0 to HIDDEN_SIZE
      invariant forall k :: 0 <= k < i ==> hg[k] == ops.mul(BackSum(ops, ogs, w2, k, OUTPUT_SIZE), ReluDerivative(ops, hs[k]))
    {
      var sum := BackSumAt(layer2.weights, og, i, ops);
      hg[i] := ops.mul(sum, ReluDerivative(ops, hidden[i]));
    }
    assert hg[..] == HiddenGrad(ops, ogs, w2, hs);
  }

  /** The inner loop of the hidden gradient: the running value of `hidden_grad[i]`, from 0,
      over the output units in order. */
  method BackSumAt(w2: array<seq<Float>>, og: array<Float>, i: nat, ops: FloatOps) returns (sum: Float)
    requires og.Length == OUTPUT_SIZE && w2.Length == OUTPUT_SIZE
    requires forall k :: 0 <= k < OUTPUT_SIZE ==> i < |w2[k]|
    ensures sum == BackSum(ops, og[..], w2[..], i, OUTPUT_SIZE)
  {
    sum := ZERO;
    for j := 0 to OUTPUT_SIZE
      invariant sum == BackSum(ops, og[..], w2[..], i, j)
    {
      sum := ops.add(sum, ops.mul(og[j], w2[j][i]));
    }
  }

  /** The update loops of backward, one layer at a time:
      `w[i][j] -= lr * grad[i] * x[j]` and `b[i] -= lr * grad[i]`. */
  method Step(layer: Layer, grad: seq<Float>, x: seq<Float>, lr: Float, ops: FloatOps)
    requires layer.Valid() && layer.Allocated()
    requires |grad| >= layer.rows && |x| >= layer.cols
    modifies layer.weights, layer.biases
    ensures layer.Valid() && layer.Allocated()
    ensures layer.Value() == Update(ops, old(layer.Value()), grad, x, lr)
  {
    ghost var p := layer.Value();
    ghost var q := Update(ops, p, grad, x, lr);
    var w, b := layer.weights, layer.biases;
    for i := 0 to layer.rows
      invariant forall k :: 0 <= k < w.Length ==> w[k] == if k < i then q.weights[k] else p.weights[k]
      invariant forall k :: 0 <= k < b.Length ==> b[k] == if k < i then q.biases[k] else p.biases[k]
    {
      StepRow(w, i, grad[i], x, lr, ops);
      b[i] := ops.sub(b[i], ops.mul(lr, grad[i]));
    }
    assert w[..] == q.weights && b[..] == q.biases;
  }

  /** The inner update loop of backward: `w[i][j] -= lr * g * x[j]` along row `i`. */
  method StepRow(w: array<seq<Float>>, i: nat, g: Float, x: seq<Float>, lr: Float, ops: FloatOps)
    requires i < w.Length && |w[i]| <= |x|
    modifies w
    ensures w[..] == old(w[..])[i := StepRowOf(ops, old(w[i]), g, x, lr)]
  {
    ghost var row := w[i];
    for j := 0 to |w[i]|
      invariant |w[i]| == |row|
      invariant w[..] == old(w[..])[i := w[i]]
      invariant forall k :: 0 <= k < |row| ==>
        w[i][k] == if k < j then ops.sub(row[k], ops.mul(ops.mul(lr, g), x[k])) else row[k]
    {
      w[i] := w[i][j := ops.sub(w[i][j], ops.mul(ops.mul(lr, g), x[j]))];
    }
    assert w[i] == StepRowOf(ops, row, g, x, lr);
  }
}
