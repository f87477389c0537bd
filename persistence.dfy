/** The model file: save_network writes both layers as a flat stream of 4-byte words,
    load_network reads them back in the same order into freshly created layers. */
module Persistence {
  import opened Floats
  import opened Random
  import opened Wrappers
  import opened Layers
  import opened Networks

  function Min(a: int, b: int): int {
    if a <= b then a else b
  }

  // ---------------------------------------------------------------------------
  // The file.

  /** What the first `|d| + |w|` words of a file become when `w` is written after `d` on a
      device with room for `cap` words: the words that do not fit are lost. */
  function Fill(d: seq<Word>, w: seq<Word>, cap: nat): (r: seq<Word>)
    requires |d| <= cap
  {
    if |d| + |w| <= cap then d + w else (d + w)[..cap]
  }

  /** A file keeps what fits: the words written land after the old content, in order, and
      stop only at the device limit. */
  lemma FillKeeps(d: seq<Word>, w: seq<Word>, cap: nat)
    requires |d| <= cap
    ensures |Fill(d, w, cap)| == Min(|d| + |w|, cap)
    ensures Fill(d, w, cap) == (d + w)[..|Fill(d, w, cap)|]
    ensures |d| + |w| <= cap <==> Fill(d, w, cap) == d + w
  {
  }

  /** Two writes in a row store what one write of both would. */
  lemma FillAppend(d: seq<Word>, a: seq<Word>, b: seq<Word>, cap: nat)
    requires |d| <= cap
    ensures Fill(Fill(d, a, cap), b, cap) == Fill(d, a + b, cap)
  {
    assert d + a + b == d + (a + b);
    if |d| + |a| > cap {
      assert (d + a)[..cap] + b == (d + a + b)[..cap] + b;
      assert ((d + a + b)[..cap] + b)[..cap] == (d + a + b)[..cap];
    }
  }

  /** A file on a device with room for `capacity` words. */
  class File {
    var data: seq<Word>
    const capacity: nat

    constructor (data: seq<Word>, capacity: nat)
      requires |data| <= capacity
      ensures this.data == data && this.capacity == capacity && Valid()
    {
      this.data := data;
      this.capacity := capacity;
    }

    ghost predicate Valid()
      reads this
    {
      |data| <= capacity
    }

    /** fopen(path, "wb"): the file is created or emptied. */
    method Truncate()
      modifies this
      ensures data == [] && Valid()
    {
      data := [];
    }

    /** fwrite: appends what fits and returns the number of words written. */
    method Write(words: seq<Word>) returns (n: nat)
      requires Valid()
      modifies this
      ensures Valid() && data == Fill(old(data), words, capacity)
      ensures n == |data| - |old(data)| && n <= |words|
    {
      var before := |data|;
      data := Fill(data, words, capacity);
      n := |data| - before;
    }
  }

  // ---------------------------------------------------------------------------
  // The format.

  /** The rows of a weight table one after another, row-major. */
  function Flatten(rows: seq<seq<Word>>): seq<Word>
    decreases |rows|
  {
    if |rows| == 0 then [] else Flatten(rows[..|rows| - 1]) + rows[|rows| - 1]
  }

  /** One layer as save_network writes it: rows, cols, the weights row by row, the biases. */
  function EncodeLayer(p: Params): seq<Word>
    requires WellShaped(p)
  {
    [IntToWord(p.rows), IntToWord(p.cols)] + Flatten(p.weights) + p.biases
  }

  /** The whole stream: layer1, then layer2. */
  function Encode(v: NetValue): seq<Word>
    requires WellShaped(v.layer1) && WellShaped(v.layer2)
  {
    EncodeLayer(v.layer1) + EncodeLayer(v.layer2)
  }

  /** What fread returns when asked for `n` words: as many as remain, up to `n`. */
  function Read(rest: seq<Word>, n: nat): (got: seq<Word>)
    ensures |got| == Min(n, |rest|) && got == rest[..|got|]
  {
    rest[..Min(n, |rest|)]
  }

  /** Reading `n` rows of `c` words from the front of `data`: the rows and what follows,
      or None when the data runs out first. */
  function ReadRows(data: seq<Word>, n: nat, c: int): (r: Option<(seq<seq<Word>>, seq<Word>)>)
    requires n > 0 ==> c >= 0
    ensures r.Some? ==> |r.value.0| == n && forall i :: 0 <= i < n ==> |r.value.0[i]| == c
    decreases n
  {
    if n == 0 then Some(([], data))
    else match ReadRows(data, n - 1, c)
      case None => None
      case Some((rows, rest)) => if |rest| < c then None else Some((rows + [rest[..c]], rest[c..]))
  }

  /** The weights and biases of an `r x c` layer read from the front of `data`, and what
      follows them. */
  function ReadBodyOf(data: seq<Word>, r: nat, c: int): (res: Option<(Params, seq<Word>)>)
    requires r > 0 ==> c >= 0
  {
    match ReadRows(data, r, c)
    case None => None
    case Some((rows, rest)) => if |rest| < r then None else Some((Params(r, c, rows, rest[..r]), rest[r..]))
  }

  /** One layer read from the front of `data`: its two dimensions, then its body. None when
      the data runs out or the dimensions describe no layer (a negative count of rows, or
      rows with a negative count of columns). */
  function DecodeLayer(data: seq<Word>): (res: Option<(Params, seq<Word>)>)
    ensures res.Some? ==> WellShaped(res.value.0)
  {
    if |data| < 2 then None
    else
      var r, c := WordToInt(data[0]), WordToInt(data[1]);
      if r < 0 || (r > 0 && c < 0) then None
      else ReadBodyOf(data[2..], r, c)
  }

  /** The network stored at the front of `data`; whatever follows it is ignored. */
  function Decode(data: seq<Word>): (res: Option<NetValue>)
    ensures res.Some? ==> WellShaped(res.value.layer1) && WellShaped(res.value.layer2)
  {
    match DecodeLayer(data)
    case None => None
    case Some((p1, rest)) =>
      match DecodeLayer(rest)
      case None => None
      case Some((p2, _)) => Some(NetValue(p1, p2))
  }

  /** load_network succeeds on `data`: it holds a network and both create_layer calls get
      their memory. */
  predicate Loads(data: seq<Word>, fails1: nat -> bool, fails2: nat -> bool) {
    match Decode(data)
    case None => false
    case Some(v) => Builds(v.layer1.rows, v.layer1.cols, fails1) && Builds(v.layer2.rows, v.layer2.cols, fails2)
  }

  // ---------------------------------------------------------------------------
  // Properties of the format.

  /** A table of `|rows|` rows of `c` words flattens to `|rows| * c` words. */
  lemma {:induction false} FlattenLength(rows: seq<seq<Word>>, c: nat)
    requires forall i :: 0 <= i < |rows| ==> |rows[i]| == c
    ensures |Flatten(rows)| == |rows| * c
    decreases |rows|
  {
    if |rows| > 0 {
      FlattenLength(rows[..|rows| - 1], c);
      assert (|rows| - 1) * c + c == |rows| * c;
    }
  }

  /** The stream of a network is `4 + r1*c1 + r1 + r2*c2 + r2` words long. */
  lemma EncodedLength(v: NetValue)
    requires WellShaped(v.layer1) && WellShaped(v.layer2)
    requires v.layer1.cols >= 0 && v.layer2.cols >= 0
    ensures |Encode(v)| ==
      4 + v.layer1.rows * v.layer1.cols + v.layer1.rows + v.layer2.rows * v.layer2.cols + v.layer2.rows
  {
    FlattenLength(v.layer1.weights, v.layer1.cols);
    FlattenLength(v.layer2.weights, v.layer2.cols);
  }

  /** Reading `|rows|` rows of `c` words back from their flattening gives the rows and
      leaves what followed. */
  lemma {:induction false} ReadRowsFlatten(rows: seq<seq<Word>>, c: nat, rest: seq<Word>)
    requires forall i :: 0 <= i < |rows| ==> |rows[i]| == c
    ensures ReadRows(Flatten(rows) + rest, |rows|, c) == Some((rows, rest))
    decreases |rows|
  {
    if |rows| > 0 {
      var n := |rows|;
      var last := rows[n - 1];
      ReadRowsFlatten(rows[..n - 1], c, last + rest);
      assert Flatten(rows) + rest == Flatten(rows[..n - 1]) + (last + rest);
      assert (last + rest)[..c] == last && (last + rest)[c..] == rest;
      assert rows[..n - 1] + [last] == rows;
      assert ReadRows(Flatten(rows) + rest, n - 1, c) == Some((rows[..n - 1], last + rest));
    } else {
      assert Flatten(rows) + rest == rest;
    }
  }

  /** A layer reads back as written, whatever follows it. */
  lemma DecodeEncodeLayer(p: Params, rest: seq<Word>)
    requires WellShaped(p)
    ensures DecodeLayer(EncodeLayer(p) + rest) == Some((p, rest))
  {
    var data := EncodeLayer(p) + rest;
    IntWordRoundTrip(p.rows, 0);
    IntWordRoundTrip(p.cols, 0);
    assert data[0] == IntToWord(p.rows) && data[1] == IntToWord(p.cols);
    if p.rows > 0 {
      assert |p.weights[0]| == p.cols;
    }
    var c: nat := if p.rows > 0 then p.cols else 0;
    assert forall i :: 0 <= i < |p.weights| ==> |p.weights[i]| == c;
    assert data[2..] == Flatten(p.weights) + (p.biases + rest);
    ReadRowsFlatten(p.weights, c, p.biases + rest);
    if p.rows == 0 {
      assert ReadRows(data[2..], 0, p.cols) == ReadRows(data[2..], 0, c);
    }
    assert (p.biases + rest)[..p.rows] == p.biases && (p.biases + rest)[p.rows..] == rest;
  }

  /** The round trip of the format: load reads back the network save wrote, bit for bit,
      and ignores anything after it. */
  lemma DecodeEncode(v: NetValue, trailing: seq<Word>)
    requires WellShaped(v.layer1) && WellShaped(v.layer2)
    ensures Decode(Encode(v) + trailing) == Some(v)
  {
    DecodeEncodeLayer(v.layer1, EncodeLayer(v.layer2) + trailing);
    DecodeEncodeLayer(v.layer2, trailing);
    assert Encode(v) + trailing == EncodeLayer(v.layer1) + (EncodeLayer(v.layer2) + trailing);
  }

  /** A save that had room for the whole stream loads back as the network saved. */
  lemma SavedLoads(v: NetValue, cap: nat)
    requires WellShaped(v.layer1) && WellShaped(v.layer2)
    requires |Encode(v)| <= cap
    ensures Decode(Fill([], Encode(v), cap)) == Some(v)
  {
    DecodeEncode(v, []);
    assert Encode(v) + [] == Encode(v) == [] + Encode(v);
  }

  /** The dimensions are taken from the file as they are, never checked against the
      architecture: a file holding a 1 x 1 layer1 and an empty layer2 decodes to a network
      forward and backward cannot run on. */
  lemma DecodeKeepsAnyShape()
    ensures Decode([1, 1, 7, 0, 0, 0]) == Some(NetValue(Params(1, 1, [[7]], [0]), Params(0, 0, [], [])))
    ensures !Shaped(NetValue(Params(1, 1, [[7]], [0]), Params(0, 0, [], [])))
  {
    var data: seq<Word> := [1, 1, 7, 0, 0, 0];
    assert WordToInt(1) == 1 && WordToInt(0) == 0;
    var body := data[2..];
    assert body == [7, 0, 0, 0];
    assert ReadRows(body, 0, 1) == Some(([], body));
    assert body[..1] == [7] && body[1..] == [0, 0, 0];
    var none: seq<seq<Word>> := [];
    assert none + [[7]] == [[7]];
    assert ReadRows(body, 1, 1) == Some(([[7]], [0, 0, 0]));
    assert [0, 0, 0][..1] == [0] && [0, 0, 0][1..] == [0, 0];
    assert ReadBodyOf(body, 1, 1) == Some((Params(1, 1, [[7]], [0]), [0, 0]));
    assert data[0] == 1 && data[1] == 1;
    assert DecodeLayer(data) == Some((Params(1, 1, [[7]], [0]), [0, 0]));
    assert DecodeLayer([0, 0]) == Some((Params(0, 0, [], []), []));
  }

  /** Once the rows run out, reading more rows fails too. */
  lemma {:induction false} ReadRowsStops(data: seq<Word>, i: nat, n: nat, c: int)
    requires i <= n && (n > 0 ==> c >= 0)
    requires ReadRows(data, i, c).None?
    ensures ReadRows(data, n, c).None?
    decreases n - i
  {
    if i < n {
      ReadRowsStops(data, i + 1, n, c);
    }
  }

  // ---------------------------------------------------------------------------
  // save_network

  /** save_network. `path` is the file the path names (null for a NULL path) and
      `openFails` whether fopen fails. It returns 0 on a NULL argument or a failed open,
      leaving the file as it was; it returns 0 on a layer without storage, but only after
      fopen has emptied the file; otherwise it writes the stream and returns 1, also when
      the device had no room for all of it, since the results of fwrite are not checked. */
  method SaveNetwork(nn: Network?, path: File?, openFails: bool) returns (ok: int)
    requires nn != null ==> nn.Valid()
    requires path != null ==> path.Valid()
    modifies path
    ensures path != null ==> path.Valid()
    ensures nn == null || path == null || openFails ==> ok == 0 && (path != null ==> unchanged(path))
    ensures nn != null && path != null && !openFails && !nn.Ready() ==> ok == 0 && path.data == []
    ensures nn != null && path != null && !openFails && nn.Ready() ==>
      && ok == 1
      && WellShaped(nn.Value().layer1) && WellShaped(nn.Value().layer2)
      && path.data == Fill([], Encode(nn.Value()), path.capacity)
  {
    if nn == null || path == null {
      return 0;
    }
    if openFails {
      return 0;
    }
    path.Truncate();
    if !nn.Ready() {
      return 0;
    }
    WriteLayer(nn.layer1, path);
    WriteLayer(nn.layer2, path);
    FillAppend([], EncodeLayer(nn.layer1.Value()), EncodeLayer(nn.layer2.Value()), path.capacity);
    ok := 1;
  }

  /** The writes of one layer: rows and cols, each weight row, then the biases. */
  method WriteLayer(layer: Layer, f: File)
    requires layer.Valid() && layer.Allocated() && f.Valid()
    modifies f
    ensures f.Valid()
    ensures f.data == Fill(old(f.data), EncodeLayer(layer.Value()), f.capacity)
  {
    ghost var d0, cap := f.data, f.capacity;
    ghost var head := [IntToWord(layer.rows), IntToWord(layer.cols)];
    var _ := f.Write([IntToWord(layer.rows)]);
    var _ := f.Write([IntToWord(layer.cols)]);
    FillAppend(d0, [IntToWord(layer.rows)], [IntToWord(layer.cols)], cap);
    var w := layer.weights;
    for i := 0 to layer.rows
      invariant f.Valid()
      invariant f.data == Fill(d0, head + Flatten(w[..i]), cap)
    {
      var _ := f.Write(w[i]);
      FillAppend(d0, head + Flatten(w[..i]), w[i], cap);
      assert w[..i + 1][..i] == w[..i];
    }
    var _ := f.Write(layer.biases[..]);
    FillAppend(d0, head + Flatten(w[..layer.rows]), layer.biases[..], cap);
    assert w[..layer.rows] == w[..];
  }

  // ---------------------------------------------------------------------------
  // load_network

  /** load_network. `path` is the file the path names (null for a NULL path), `openFails`
      whether fopen fails, and `fails1`, `fails2` the allocation outcomes of its two
      create_layer calls, which also draw initial weights from `rng`. It returns 1 exactly
      when the file holds a network and both layers get their memory, and then the network
      holds the stored values bit for bit. A failure before layer1's dimensions are read
      leaves the network as it was; a later one leaves layer1 replaced (the old one
      released) and layer2 either the old one or a new one. */
  method LoadNetwork(nn: Network?, path: File?, openFails: bool, ops: FloatOps, rng: Rng,
                     fails1: nat -> bool, fails2: nat -> bool) returns (ok: int)
    requires nn != null ==> nn.Valid()
    modifies nn, rng, if nn == null then {} else {nn.layer1, nn.layer2}
    ensures nn != null ==> nn.Valid()
    ensures ok == 1 <==> nn != null && path != null && !openFails && Loads(path.data, fails1, fails2)
    ensures ok == 1 ==>
      && nn.Ready() && Some(nn.Value()) == Decode(path.data)
      && rng.calls == old(rng.calls) + nn.layer1.rows * nn.layer1.cols + nn.layer2.rows * nn.layer2.cols
    ensures nn == null || path == null || openFails || |path.data| < 2 ==>
      && ok == 0 && unchanged(rng)
      && (nn != null ==> unchanged(nn) && unchanged(nn.layer1, nn.layer2))
    ensures nn != null && path != null && !openFails && |path.data| >= 2 ==>
      && fresh(nn.layer1) && !old(nn.layer1).Allocated()
      && (nn.layer2 == old(nn.layer2) || fresh(nn.layer2))
  {
    if nn == null || path == null {
      return 0;
    }
    if openFails {
      return 0;
    }
    var l1, read1, rest := LoadLayer(nn.layer1, path.data, ops, rng, fails1);
    nn.layer1 := l1;
    if !read1 {
      return 0;
    }
    var l2, read2, _ := LoadLayer(nn.layer2, rest, ops, rng, fails2);
    nn.layer2 := l2;
    if !read2 {
      return 0;
    }
    ok := 1;
  }

  /** One layer's part of load_network: read rows and cols, release the old layer, create
      a `rows x cols` one in its place and read its weights and biases into it. A short read
      of the dimensions stops before anything is released. `ok` is whether it all
      succeeded, and `rest` what follows the layer in the file. */
  method LoadLayer(prev: Layer, data: seq<Word>, ops: FloatOps, rng: Rng, fails: nat -> bool)
    returns (layer: Layer, ok: bool, rest: seq<Word>)
    modifies prev, rng
    ensures ok <==> match DecodeLayer(data)
      case None => false
      case Some((p, _)) => Builds(p.rows, p.cols, fails)
    ensures ok ==>
      && layer.Valid() && layer.Allocated() && DecodeLayer(data) == Some((layer.Value(), rest))
      && rng.calls == old(rng.calls) + layer.rows * layer.cols
    ensures |data| < 2 ==> layer == prev && unchanged(prev) && unchanged(rng)
    ensures |data| >= 2 ==> fresh(layer) && fresh(layer.Storage()) && layer.Valid() && !prev.Allocated()
  {
    layer, rest := prev, data;
    if |rest| < 1 {
      return layer, false, rest;
    }
    var rows := WordToInt(rest[0]);
    rest := rest[1..];
    if |rest| < 1 {
      return layer, false, rest;
    }
    var cols := WordToInt(rest[0]);
    rest := rest[1..];
    assert rest == data[2..];

    FreeLayer(prev);
    layer := CreateLayer(rows, cols, ops, rng, fails);
    if !layer.Allocated() {
      return layer, false, rest;
    }
    ok, rest := ReadBody(layer, rest);
  }

  /** The reads of one layer's body into the layer create_layer just built: each weight row,
      then the biases; fread fills as much of a buffer as the file still holds, and the
      first short read ends it. */
  method ReadBody(layer: Layer, data: seq<Word>) returns (ok: bool, rest: seq<Word>)
    requires layer.Valid() && layer.Allocated() && (layer.rows > 0 ==> layer.cols >= 0)
    modifies layer.weights, layer.biases
    ensures layer.Valid()
    ensures ok <==> ReadBodyOf(data, layer.rows, layer.cols).Some?
    ensures ok ==> ReadBodyOf(data, layer.rows, layer.cols) == Some((layer.Value(), rest))
  {
    var w, b := layer.weights, layer.biases;
    rest := data;
    for i := 0 to layer.rows
      invariant layer.Valid()
      invariant ReadRows(data, i, layer.cols) == Some((w[..i], rest))
    {
      ghost var done, before := w[..i], rest;
      var got := Read(rest, layer.cols);
      w[i] := got + w[i][|got|..];
      rest := rest[|got|..];
      if |got| < layer.cols {
        assert ReadRows(data, i + 1, layer.cols).None? by {
          assert ReadRows(data, i, layer.cols) == Some((done, before));
        }
        ReadRowsStops(data, i + 1, layer.rows, layer.cols);
        return false, rest;
      }
      assert w[i] == got && w[..i] == done;
      assert w[..i + 1] == done + [got];
    }
    assert w[..layer.rows] == w[..];
    ghost var rows, before := w[..], rest;
    assert ReadRows(data, layer.rows, layer.cols) == Some((rows, before));
    var got := Read(rest, layer.rows);
    forall k | 0 <= k < |got| {
      b[k] := got[k];
    }
    rest := rest[|got|..];
    if |got| < layer.rows {
      assert |before| < layer.rows;
      return false, rest;
    }
    assert b[..] == got == before[..layer.rows];
    assert w[..] == rows;
    ok := true;
  }
}
