/** One dense layer of the classifier: a `rows x cols` weight matrix and `rows` biases,
    created all-or-nothing and released idempotently. */
module Layers {
  import opened Floats
  import opened Random

  /** What a layer holds, as a value: its shape, its weight rows and its biases. */
  datatype Params = Params(rows: int, cols: int, weights: seq<seq<Float>>, biases: seq<Float>)

  /** `p` has the shape of a layer that create_layer can build: `rows` weight rows of
      `cols` entries each and `rows` biases, with both dimensions C `int`s. */
  predicate WellShaped(p: Params) {
    && IsInt(p.rows) && IsInt(p.cols) && 0 <= p.rows
    && |p.weights| == p.rows && |p.biases| == p.rows
    && forall i :: 0 <= i < p.rows ==> |p.weights[i]| == p.cols
  }

  /** The initial value of one weight: `(randf() - 0.5f) * 0.1f`, where
      `randf() = (float)rand() / (float)RAND_MAX` and `r` is the value `rand()` returned. */
  function InitWeight(ops: FloatOps, r: RandInt): Float {
    ops.mul(ops.sub(ops.div(ops.ofInt(r), ops.ofInt(RAND_MAX)), HALF), TENTH)
  }

  /** The weights create_layer draws when it starts at the `start`-th call to `rand()`:
      row by row, one call per entry. */
  function InitMatrix(ops: FloatOps, draw: nat -> RandInt, start: nat, rows: nat, cols: int): (m: seq<seq<Float>>)
    requires rows > 0 ==> cols >= 0
  {
    seq(rows, i requires 0 <= i < rows => InitRow(ops, draw, start + i * cols, cols))
  }

  /** One weight row of create_layer, drawn from the `start`-th call to `rand()` on. */
  function InitRow(ops: FloatOps, draw: nat -> RandInt, start: nat, cols: nat): seq<Float> {
    seq(cols, j requires 0 <= j < cols => InitWeight(ops, draw(start + j)))
  }

  // ---------------------------------------------------------------------------
  // The allocation oracle. `fails(k)` says whether the k-th allocation made by one call
  // of create_layer returns NULL: allocation 0 is the table of row pointers, allocation
  // 1 + i is weight row i, allocation rows + 1 is the bias vector.

  /** An allocation of `count` elements succeeds when the oracle lets it and the count is
      not negative: a negative C `int` count converts to a request of at least 2^63 bytes,
      which malloc and calloc never grant. */
  predicate AllocOk(fails: nat -> bool, k: nat, count: int) {
    count >= 0 && !fails(k)
  }

  /** The allocation of weight row `i`, which has `cols` entries. */
  predicate RowOk(fails: nat -> bool, i: nat, cols: int) {
    AllocOk(fails, i + 1, cols)
  }

  /** create_layer succeeds: every one of its `rows + 2` allocations succeeds (so a layer
      with rows has a count of columns that is not negative). */
  predicate Builds(rows: int, cols: int, fails: nat -> bool) {
    && AllocOk(fails, 0, rows)
    && (rows > 0 ==> RowOk(fails, 0, cols))
    && (forall i: nat :: i < rows ==> RowOk(fails, i, cols))
    && AllocOk(fails, rows + 1, rows)
  }

  /** How many weight rows, from row `i` on, create_layer allocates and fills before a
      row allocation fails (`rows` when none fails). */
  function RowsBuilt(rows: nat, cols: int, fails: nat -> bool, i: nat): (n: nat)
    requires i <= rows
    ensures i <= n <= rows
    ensures forall k: nat :: i <= k < n ==> RowOk(fails, k, cols)
    ensures n < rows ==> !RowOk(fails, n, cols)
    decreases rows - i
  {
    if i == rows || !RowOk(fails, i, cols) then i else RowsBuilt(rows, cols, fails, i + 1)
  }

  /** The calls to `rand()` one create_layer makes: one per entry of every row it fills
      before an allocation fails, so `rows * cols` when it succeeds. */
  function DrawsUsed(rows: int, cols: int, fails: nat -> bool): (n: int)
    ensures Builds(rows, cols, fails) ==> n == rows * cols
  {
    if !AllocOk(fails, 0, rows) then 0 else RowsBuilt(rows, cols, fails, 0) * cols
  }

  /** Layer: the C struct with its four fields. The table of row pointers is an array
      whose slots hold the rows; NULL storage is a null reference. */
  class Layer {
    var rows: int
    var cols: int
    var weights: array?<seq<Float>>
    var biases: array?<Float>

    /** The layer create_layer returns when an allocation fails. */
    constructor Sentinel()
      ensures IsSentinel() && Valid()
    {
      rows, cols, weights, biases := 0, 0, null, null;
    }

    /** A layer over storage that is already allocated and filled. */
    constructor Of(rows: int, cols: int, weights: array<seq<Float>>, biases: array<Float>)
      requires IsInt(rows) && IsInt(cols) && 0 <= rows
      requires weights.Length == rows && biases.Length == rows
      requires forall i :: 0 <= i < rows ==> |weights[i]| == cols
      ensures this.rows == rows && this.cols == cols && this.weights == weights && this.biases == biases
      ensures Valid() && Allocated()
    {
      this.rows, this.cols, this.weights, this.biases := rows, cols, weights, biases;
    }

    /** The shape invariant: storage is present or absent as a whole, and present storage
        has `rows` weight rows of `cols` entries and `rows` biases. */
    ghost predicate Valid()
      reads this, weights
    {
      && IsInt(rows) && IsInt(cols)
      && (weights == null <==> biases == null)
      && (weights != null ==>
            && 0 <= rows
            && weights.Length == rows && biases.Length == rows
            && forall i :: 0 <= i < rows ==> |weights[i]| == cols)
    }

    predicate Allocated()
      reads this
    {
      weights != null && biases != null
    }

    /** The zero-dimension layer that stands for an allocation failure. */
    predicate IsSentinel()
      reads this
    {
      rows == 0 && cols == 0 && weights == null && biases == null
    }

    ghost function Storage(): set<object>
      reads this
    {
      (if weights == null then {} else {weights as object}) + (if biases == null then {} else {biases as object})
    }

    ghost function Value(): (p: Params)
      reads this, weights, biases
      requires Valid() && Allocated()
      ensures WellShaped(p) && p.rows == rows && p.cols == cols
    {
      Params(rows, cols, weights[..], biases[..])
    }
  }

  /** create_layer: either a full `rows x cols` layer whose weights come from the next
      `rows * cols` calls to `rand()` and whose biases are all 0, or, when any allocation
      fails, the sentinel with no storage, never a half-built layer. */
  method CreateLayer(rows: int, cols: int, ops: FloatOps, rng: Rng, fails: nat -> bool) returns (layer: Layer)
    requires IsInt(rows) && IsInt(cols)
    modifies rng
    ensures fresh(layer) && fresh(layer.Storage()) && layer.Valid()
    ensures rng.calls == old(rng.calls) + DrawsUsed(rows, cols, fails)
    ensures Builds(rows, cols, fails) ==>
      && layer.rows == rows && layer.cols == cols && layer.Allocated()
      && layer.Value() == Params(rows, cols, InitMatrix(ops, rng.draw, old(rng.calls), rows, cols), seq(rows, _ => ZERO))
      && rng.calls == old(rng.calls) + rows * cols
    ensures !Builds(rows, cols, fails) ==>
      && layer.IsSentinel()
      && rng.calls == old(rng.calls) + (if AllocOk(fails, 0, rows) then RowsBuilt(rows, cols, fails, 0) * cols else 0)
  {
    if !AllocOk(fails, 0, rows) {
      layer := new Layer.Sentinel();
      return;
    }
    var w := new seq<Float>[rows](_ => []);
    ghost var start := rng.calls;
    var filled := FillRows(w, cols, ops, rng, fails);
    if filled < rows || !AllocOk(fails, rows + 1, rows) {
      layer := new Layer.Sentinel();
      return;
    }
    assert w[..] == InitMatrix(ops, rng.draw, start, rows, cols);
    var b := new Float[rows](_ => ZERO);
    assert b[..] == seq(rows, _ => ZERO);
    layer := new Layer.Of(rows, cols, w, b);
  }

  /** The row loop of create_layer: allocates and fills weight rows in order, one call to
      `rand()` per entry, and stops at the first row whose allocation fails. */
  method FillRows(w: array<seq<Float>>, cols: int, ops: FloatOps, rng: Rng, fails: nat -> bool) returns (filled: nat)
    modifies w, rng
    ensures filled == RowsBuilt(w.Length, cols, fails, 0)
    ensures filled > 0 ==> cols >= 0
    ensures rng.calls == old(rng.calls) + filled * cols
    ensures forall k :: 0 <= k < filled ==> w[k] == InitRow(ops, rng.draw, old(rng.calls) + k * cols, cols)
  {
    filled := 0;
    while filled < w.Length
      invariant filled <= w.Length
      invariant RowsBuilt(w.Length, cols, fails, 0) == RowsBuilt(w.Length, cols, fails, filled)
      invariant filled > 0 ==> cols >= 0
      invariant rng.calls == old(rng.calls) + filled * cols
      invariant forall k :: 0 <= k < filled ==> w[k] == InitRow(ops, rng.draw, old(rng.calls) + k * cols, cols)
    {
      if !RowOk(fails, filled, cols) {
        return;
      }
      FillRow(w, filled, cols, ops, rng);
      filled := filled + 1;
    }
  }

  /** One row of create_layer: a fresh buffer of `cols` entries, filled with the next
      `cols` initial weights, stored in slot `i` of the row table. */
  method FillRow(w: array<seq<Float>>, i: nat, cols: nat, ops: FloatOps, rng: Rng)
    requires i < w.Length
    modifies w, rng
    ensures rng.calls == old(rng.calls) + cols
    ensures w[..] == old(w[..])[i := InitRow(ops, rng.draw, old(rng.calls), cols)]
  {
    var row := new Float[cols];
    for j := 0 to cols
      invariant rng.calls == old(rng.calls) + j
      invariant forall k :: 0 <= k < j ==> row[k] == InitWeight(ops, rng.draw(old(rng.calls) + k))
      invariant unchanged(w)
    {
      var r := rng.Next();
      row[j] := InitWeight(ops, r);
    }
    assert row[..] == InitRow(ops, rng.draw, old(rng.calls), cols);
    w[i] := row[..];
  }

  /** free_layer: releases the storage and leaves NULL behind, keeping `rows` and `cols`;
      on a NULL layer, or on one already released, it changes nothing. */
  method FreeLayer(layer: Layer?)
    modifies layer
    ensures layer != null ==> layer.weights == null && layer.biases == null
    ensures layer != null ==> layer.rows == old(layer.rows) && layer.cols == old(layer.cols)
    ensures layer != null && old(layer.weights) == null && old(layer.biases) == null ==> unchanged(layer)
    ensures layer != null && old(layer.Valid()) ==> layer.Valid()
  {
    if layer == null {
      return;
    }
    if layer.weights != null {
      layer.weights := null;
    }
    if layer.biases != null {
      layer.biases := null;
    }
  }
}
