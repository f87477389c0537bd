# catdog: a verified model of the classifier engine

catdog is a small C library that trains a two-layer neural network to tell cats from dogs. A
layer of 12288 inputs (a 64 x 64 RGB image) feeds 128 ReLU units, which feed 2 softmax outputs.
This project models the engine in `src/catdog.c` in Dafny, operation by operation:

- the life cycle of layers and networks: `create_layer`, `free_layer`, `create_network` and
  `free_network`;
- the forward and backward passes and their guards;
- the in-place Fisher-Yates shuffle and the train/validation split;
- the training loop and the evaluation loop;
- the binary model file written by `save_network` and read back by `load_network`.

The modelling choices:

- A C `float` is a 4-byte word (`Floats.Float`) that is never inspected. The arithmetic of
  the engine (`+`, `-`, `*`, `/`, `>`, `expf`, `logf`, int-to-float) is a record of
  uninterpreted operations (`Floats.FloatOps`) passed to every member that computes. So
  everything proved here holds under any IEEE-754 behaviour: rounding, NaN or infinity.
- `rand()` is an object (`Random.Rng`) that hands out the values of a fixed stream, `draw`,
  and counts the calls made.
- Allocation failure is an oracle: `fails(k)` says whether the k-th allocation of a call
  returns NULL, and a bool stands for each scratch buffer.
- Opening a file is modelled by an `openFails` flag. A file is a sequence of 4-byte words
  on a device with a fixed capacity.
- Layers (`Layers.Layer`) and networks (`Networks.Network`) are classes whose methods
  update the arrays in place. Each has a value view (`Params`, `NetValue`), and the
  methods are proved against pure functions of that view:
  - `Backprop` for one backward step;
  - `Learn`, `Epoch` and `Trained` for training;
  - `Evaluated` for evaluation;
  - `Encode` and `Decode` for the model file.
- The main properties proved:
  - `create_layer` is all-or-nothing;
  - the shuffle is a permutation;
  - the split partitions the shuffled samples into two contiguous slices;
  - training and evaluation leave in place exactly what the source touches;
  - the model file round-trips bit for bit, ignoring trailing data;
  - the length of the model file is `4 + r1*c1 + r1 + r2*c2 + r2` words.

Behaviours of the code a reader might not expect, all modelled as written:

- A tie in the two output probabilities predicts class 1, from `output[0] > output[1] ? 0 : 1`
  (`Networks.Predict`).
- A one-sample split at a ratio of at least 1.0 puts the sample in the training slice. The
  clamp to `[1, total - 1]` only applies from two samples on (`Dataset.OneSampleSplit`).
- An empty or NULL sample array splits into NULL slices with zero counts.
- `save_network` opens, and so empties, the file before it rejects a network with a
  released layer.
- `load_network` never compares the stored dimensions with the architecture's sizes. It
  rebuilds whatever shape the file describes (`Persistence.DecodeKeepsAnyShape`).
- `train` takes four arguments and no validation set.

## Model

| member | source | states |
|---|---|---|
| Floats.IntWordRoundTrip | src/catdog.c:348-349 | an `int` stored as its 4 bytes reads back as the same `int`, and every word is the bytes of some `int` |
| Floats.Relu | src/catdog.c:79-81 | relu returns its input or 0, and returns the input whenever it is positive |
| Floats.ReluDerivativeGates | src/catdog.c:83-85 | the derivative is 1 exactly on the positive inputs and 0 exactly elsewhere, where relu is 0 |
| Random.Rng.Next | src/catdog.c:263 | each `rand()` returns the next value of the stream and advances it by one call |
| Layers.RowsBuilt | src/catdog.c:35-45 | the number of rows allocated before the first failing row allocation: every row before it succeeded, and the one at it failed |
| Layers.CreateLayer | src/catdog.c:24-60 | when all `rows + 2` allocations succeed: a fresh `rows x cols` layer, weights from the next `rows*cols` rand() calls row by row, all biases 0. On any failure: the sentinel (0 x 0, no storage), never a half-built layer, after one call per entry of the rows filled before the failure |
| Layers.FillRows | src/catdog.c:35-50 | the row loop fills rows in order, one rand() call per entry, and stops at the first failed row allocation |
| Layers.FillRow | src/catdog.c:46-48 | row `i` becomes the next `cols` initial weights and no other row changes |
| Layers.FreeLayer | src/catdog.c:62-75 | afterwards weights and biases are NULL and rows/cols are kept; a NULL layer or a released one is left unchanged, so a second call does nothing |
| Layers.DrawsUsed | src/catdog.c:35-48 | a successful create_layer makes `rows*cols` rand() calls |
| Networks.CreateNetwork | src/catdog.c:106-111 | layer1 is 128 x 12288 and layer2 is 2 x 128, each built or a sentinel by its own allocations, with disjoint storage; a built layer holds its initial weights, layer2's drawn after layer1's, and zero biases; the rand() calls made are the sum of both layers' |
| Networks.FreeNetwork | src/catdog.c:113-117 | both layers lose their storage and keep their dimensions; NULL is ignored |
| Networks.Forward | src/catdog.c:119-141 | on a NULL argument or a layer without storage nothing is written; otherwise hidden = relu of layer1's sums and output = softmax of layer2's sums, only the first 128 and 2 entries are written, and the network is untouched |
| Networks.WeightedSum | src/catdog.c:124-127 | the inner loop yields `bias + sum w[i][j]*x[j]`, accumulated left to right |
| Networks.HiddenPass | src/catdog.c:123-129 | every hidden unit gets relu of its weighted sum; entries past 128 are untouched |
| Networks.OutputPass | src/catdog.c:133-139 | every raw output gets layer2's weighted sum of the hidden units |
| Networks.Softmax | src/catdog.c:87-102 | the outputs are the max-shifted exponentials over their sum, and nothing past `size` is written |
| Networks.DotSameEntries | src/catdog.c:135-137 | a weighted sum only depends on the first `n` entries of the vector it reads |
| Networks.Predict | src/catdog.c:324 | the prediction is 0 exactly when `output[0] > output[1]`, so ties go to class 1 |
| Networks.Backprop | src/catdog.c:147-176 | one backward step keeps the architecture's shape |
| Networks.Update | src/catdog.c:163-176 | a gradient step keeps a layer's dimensions and its row lengths |
| Networks.Backward | src/catdog.c:143-177 | on a NULL argument or a layer without storage nothing is written; otherwise the network becomes `Backprop` of its old value, with layer1's gradient taken from layer2's weights before layer2 is updated |
| Networks.OutputGradPass | src/catdog.c:148-151 | the output gradient is the probabilities minus the one-hot label |
| Networks.HiddenGradPass | src/catdog.c:154-160 | the hidden gradient is computed from layer2's weights as they are before any update |
| Networks.BackSumAt | src/catdog.c:156-158 | `hidden_grad[i]` before gating is column `i` of layer2 weighted by the output gradient |
| Networks.Step | src/catdog.c:163-176 | the update loops of a layer replace its value with one gradient step and keep its arrays and shape |
| Networks.StepRow | src/catdog.c:164-166 | one weight row takes `w[i][j] -= lr*g*x[j]` for every entry and no other row changes |
| Dataset.SwapElements | src/catdog.c:264-266 | the swap through a temporary exchanges elements `i` and `j` and nothing else |
| Dataset.SwapPermutes | src/catdog.c:264-266 | an exchange keeps the multiset of samples |
| Dataset.ShuffleDownPermutes | src/catdog.c:262-267 | the loop from `i` down to 1 keeps the multiset of samples |
| Dataset.ShuffledPermutes | src/catdog.c:260-268 | the shuffled array is a permutation of the original |
| Dataset.ShufflePrefix | src/catdog.c:262-267 | the in-place loop computes the Fisher-Yates order of the first `count` samples with `j = rand() % (i+1)`, using `count - 1` calls, and leaves the rest alone |
| Dataset.ShuffleImages | src/catdog.c:260-268 | a NULL array or `count <= 0` changes nothing and draws nothing; otherwise the first `count` samples are shuffled in place |
| Dataset.ClampRatio | src/catdog.c:285-286 | the ratio is clamped to [0, 1] and kept when already inside |
| Dataset.RawTrainCount | src/catdog.c:290 | `trunc(ratio * total)` lies in [0, total] |
| Dataset.TrainCount | src/catdog.c:290-294 | the training count lies in [0, total]; from two samples on it is forced into [1, total - 1] and is the truncated product whenever that is already there; with one sample it is not clamped |
| Dataset.OneSampleSplit | src/catdog.c:291-294 | one sample goes to training exactly when the ratio is at least 1 |
| Dataset.SplitExamples | tests/test_network.c:7-35 | 4 samples at 0.5 split 2/2, and 1 sample at -1.0 splits 0/1 |
| Dataset.SplitDataset | src/catdog.c:270-300 | a NULL out-pointer: nothing written or shuffled; NULL or empty input: NULL slices, zero counts, no shuffle; otherwise one shuffle, then the training slice at the array's start and the validation slice right after it, with counts summing to the total; the two slices concatenate to the shuffled array and together hold exactly the original samples |
| Dataset.SplitPartitions | src/catdog.c:296-299 | the two slices concatenate to the shuffled array and together hold exactly the original samples |
| Training.PermutationKeepsUsable | src/catdog.c:312 | reordering samples keeps every sample usable by forward |
| Training.Malloc | src/catdog.c:303-304 | a scratch buffer is NULL when its allocation fails and fresh otherwise |
| Training.Learn | src/catdog.c:318-328 | one sample keeps the network's shape, and a sample without pixels leaves it unchanged |
| Training.Epoch | src/catdog.c:317-329 | an epoch keeps the network's shape |
| Training.EpochStep | src/catdog.c:317-329 | the epoch over one more sample is the epoch so far, then that sample |
| Training.EpochConcat | src/catdog.c:317-329 | an epoch over two runs of samples is the epoch over the first, then over the second |
| Training.EpochSkipsEmpty | src/catdog.c:318-328 | samples without pixels leave the network unchanged |
| Training.ShuffledTimesPermutes | src/catdog.c:311-312 | after any number of epochs the sample array is a permutation of its input |
| Training.ShuffledTimesUsable | src/catdog.c:311-312 | repeated shuffles keep every sample usable |
| Training.ShuffledUsable | src/catdog.c:312 | one shuffle keeps every sample usable |
| Training.Trained | src/catdog.c:311-333 | any number of epochs keeps the network's shape |
| Training.CallsAfterIs | src/catdog.c:311-312 | `e` epochs of `d` rand() calls each make `e*d` calls |
| Training.Train | src/catdog.c:302-337 | a NULL network or array, a count or epoch number that is not positive, or a failed scratch allocation: nothing touched, whatever the samples and the network hold; otherwise `epochs` reshuffles of the first `count` samples with `epochs*(count-1)` rand() calls, the network becomes `Trained` of its old value, and only weights and biases are written |
| Training.TrainEpochs | src/catdog.c:311-333 | the epoch loop: the samples are shuffled `epochs` times and the network trained on each order in turn |
| Training.RunEpoch | src/catdog.c:312-329 | one epoch: a shuffle, then every sample in the new order |
| Training.RunSamples | src/catdog.c:317-329 | the sample loop applies the epoch to the network; a network with a released layer is untouched |
| Training.TrainSample | src/catdog.c:318-328 | forward then backward on one sample performs exactly one `Learn` step |
| Training.Tallied | src/catdog.c:416-419 | one sample adds 0 or 1 to the correct count, and the output buffer keeps its contents when forward does not run |
| Training.Evaluated | src/catdog.c:413-420 | the correct count over `n` samples lies between 0 and `n` |
| Training.EvaluatedIgnoresStart | src/catdog.c:415-420 | with a ready network and every sample present, the old contents of the output buffer do not affect the loss or the accuracy |
| Training.EvaluateNetwork | src/catdog.c:401-425 | degenerate input or a failed scratch allocation gives 0 and 0, whatever the samples and the network hold; otherwise the mean loss and `100 * correct / count`, and the network is never written |
| Training.EvaluateSamples | src/catdog.c:415-420 | the evaluation loop accumulates exactly `Evaluated` over the first `count` samples |
| Training.EvaluateSample | src/catdog.c:416-419 | one evaluation step: forward, then the loss and correct-count update of `Tallied` |
| Persistence.FillKeeps | src/catdog.c:348-358 | a write keeps the old contents, appends the new words in order and loses only those past the device's capacity |
| Persistence.FillAppend | src/catdog.c:348-358 | two writes in a row store what one write of both would |
| Persistence.File.Truncate | src/catdog.c:341 | opening for writing empties the file |
| Persistence.File.Write | src/catdog.c:348 | fwrite appends what fits and reports how many words it wrote |
| Persistence.Read | src/catdog.c:381 | fread yields as many of the remaining words as were asked for, at most |
| Persistence.ReadRows | src/catdog.c:380-382 | reading rows yields `n` rows of `c` words each, or fails |
| Persistence.DecodeLayer | src/catdog.c:371-383 | a decoded layer has the shape its dimensions describe |
| Persistence.FlattenLength | src/catdog.c:350-351 | `r` rows of `c` weights take `r*c` words |
| Persistence.EncodedLength | src/catdog.c:348-358 | a saved network takes `4 + r1*c1 + r1 + r2*c2 + r2` words |
| Persistence.ReadRowsFlatten | src/catdog.c:380-382 | reading rows back from their row-major form gives the same rows and leaves what follows |
| Persistence.ReadRowsStops | src/catdog.c:380-382 | once one row read comes up short, the read of the whole table fails |
| Persistence.DecodeEncodeLayer | src/catdog.c:371-383 | one layer reads back with the same dimensions and the same bits, whatever follows it |
| Persistence.DecodeEncode | src/catdog.c:365-398 | load after save rebuilds the same network bit for bit, and trailing data is ignored |
| Persistence.SavedLoads | src/catdog.c:339-398 | a save that had room for the whole stream loads back as the saved network |
| Persistence.DecodeKeepsAnyShape | src/catdog.c:377-378 | the stored dimensions are taken as they are, even ones forward cannot run on |
| Persistence.SaveNetwork | src/catdog.c:339-362 | a NULL argument or failed open: 0 and the file untouched; a released layer: 0 after the file was emptied; otherwise 1, and the file holds the encoded network, cut at the device's capacity, because write errors go unnoticed |
| Persistence.WriteLayer | src/catdog.c:348-352 | one layer's writes append its rows, cols, weights row by row and biases |
| Persistence.LoadNetwork | src/catdog.c:365-398 | returns 1 exactly when the file holds a network and both layers get their memory, and then the network holds the stored values and the expected rand() draws were made; a failure before layer1's dimensions leaves everything untouched; a later one leaves layer1 replaced and the old one released, with layer2 the old one or a new one |
| Persistence.LoadLayer | src/catdog.c:371-383 | one layer's load succeeds exactly when the layer decodes and its create_layer succeeds, yielding the stored layer; a short read of the dimensions changes nothing |
| Persistence.ReadBody | src/catdog.c:380-383 | reading into a fresh layer succeeds exactly when the file still holds its rows and biases, which then become the layer's value |

## Left out

- Image loading (`load_and_resize_image`, `load_images_from_folder`) decodes and resizes
  images through stb_image and scans directories. That is I/O and foreign code. A sample is
  a pixel vector that may be absent, plus a label.
- The float arithmetic itself is uninterpreted. So the model does not state that forward's
  outputs form a probability distribution (they sum to 1 up to rounding), or any bound on
  the loss.
- `printf` progress output in `train`, and the mean loss and accuracy it prints. The loss
  and correct count of `train`'s loop are computed but are not results.
- Dataset.RawTrainCount: the product `ratio * total` is exact real arithmetic followed by
  truncation. It does not model float rounding of the product, or a NaN ratio.
- Layers.Layer: the table of row pointers is an array whose slots hold the row values. So
  rows cannot alias each other or another layer's rows, which the source never does either.
- Persistence.LoadNetwork: after a failed load, it does not state how many `rand()` calls
  were made or what the partly read layer holds. It does state which layer objects were
  replaced, and that the network stays well formed.
- Persistence.File.Write: a short write is modelled as the device filling up. Other
  write errors, and failure of `fclose`, are not modelled.
- Pointer arguments that are NULL are modelled for the network, the image array, the file
  path and the pixel vector. `split_dataset`'s four out-pointers are one flag. The NULL
  `out_loss`/`out_acc` pointers of `evaluate_network` are not modelled: it always returns
  both values.
- Labels outside {0, 1} and input vectors shorter than 12288 are excluded by preconditions
  wherever a sample is actually read. The source indexes with them unchecked, which is
  undefined behaviour. On the paths where train and evaluate_network return at once,
  nothing is required of the samples.
- Networks.Forward: requires both layers to have exactly the architecture's shape. A
  larger layer is well defined in the source, since forward only reads its leading
  128 x 12288 and 2 x 128 blocks, but the model's `HiddenOf`/`OutputOf` are stated for the
  exact shape. Smaller layers would be read out of bounds.
- Networks.Backward: requires the exact architecture shape for the same reason. The
  source updates only the leading block of a larger layer, while `Networks.Update` steps
  the whole layer.
- Training.Train: when it runs, requires a network of the exact architecture shape, since
  each step is `Networks.Backward`. A larger network, which `load_network` accepts, is not
  covered. The same holds for `Training.EvaluateNetwork`, through `Networks.Forward`.
- Deallocation is not modelled. `Layers.FreeLayer` sets the storage fields to NULL and
  nothing more. The model has no counterpart for create_layer freeing the rows it had
  already allocated when a later allocation fails. Nor does it model the frees of the
  scratch buffers in train and evaluate_network. So freedom from leaks and from double
  frees is not stated.
- `src/main.c`, `src/infer.c` and `testing.c` are not part of this model. They are
  command-line drivers and a guard-less copy of the engine.
