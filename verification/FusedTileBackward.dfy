/** The vocabulary-tiled backward of the fused CUDA path: tiles of dlogits pass through a reused
    workspace, or overwrite the saved logits when one tile covers the vocabulary. */
module FusedTileBackward {
  import opened Integers
  import opened RealFunctions
  import opened Options
  import opened VocabPartition
  import opened LinearLogp
  import opened LinearLogpBackward

  /** RL_KERNEL_LINEAR_LOGP_STREAMING_BWD_VOCAB_TILE: unset or blank, no integer, or an integer. */
  datatype TileSetting = Unset | Unparsable | Requested(tile: int)

  /** _fused_tile_vocab_tile. For a non-empty vocabulary the width is always usable, whatever the setting. */
  function VocabTile(setting: TileSetting, vocab: nat): (tile: int)
    ensures tile >= 1 && (vocab >= 1 ==> tile <= vocab)
    ensures setting.Requested? && 1 <= setting.tile <= vocab ==> tile == setting.tile
  {
    match setting
    case Unset => MaxInt(1, vocab)
    case Unparsable => MaxInt(1, MinInt(vocab, vocab))
    case Requested(t) => MaxInt(1, MinInt(t, vocab))
  }

  // ----- the extension kernel's elementwise contract ---------------------------------------------

  /** g * (onehot - exp(logit - lse)) for the token id `id` of a column. */
  function DlogitEntry(fns: RealFns, logit: real, lse: real, target: int, g: real, id: int): real {
    Times((if id == target then 1.0 else 0.0) - fns.exp(logit - lse), g)
  }

  function DlogitRow(fns: RealFns, logits: Vec, lse: real, target: int, g: real, firstId: int): Vec
  {
    seq(|logits|, c requires 0 <= c < |logits| => DlogitEntry(fns, logits[c], lse, target, g, firstId + c))
  }

  /** linear_logp_logits_bf16_to_dlogits on the columns [from, from + width) of the logits, written to the
      columns [to, to + width) of the destination. Source and destination may be the same buffer. */
  method ToDlogits(fns: RealFns, logits: array<Vec>, from: nat, dst: array<Vec>, to: nat, width: nat,
                   batch: Batch, lse: seq<real>, firstId: int)
    requires batch.Valid() && logits.Length == dst.Length == |lse| == |batch.hidden|
    requires forall i | 0 <= i < dst.Length :: from + width <= |logits[i]| && to + width <= |dst[i]|
    modifies dst
    ensures forall i | 0 <= i < dst.Length ::
      dst[i] == old(dst[i])[..to]
                + DlogitRow(fns, old(logits[i])[from..from + width], lse[i], batch.targets[i], batch.grad[i], firstId)
                + old(dst[i])[to + width..]
  {
    forall i | 0 <= i < dst.Length {
      dst[i] := dst[i][..to]
                + DlogitRow(fns, logits[i][from..from + width], lse[i], batch.targets[i], batch.grad[i], firstId)
                + dst[i][to + width..];
    }
  }

  // ----- products of a tile ----------------------------------------------------------------------

  /** Row i of `dlogits_tile @ weight_tile`, over the columns the tile holds. */
  function TileHiddenTerms(tile: Vec, weight: seq<Vec>, v0: int, d: int): int -> real {
    c => Times(At(tile, c), At(RowAt(weight, v0 + c), d))
  }

  function MmRow(tile: Vec, weight: seq<Vec>, v0: int, dim: nat): Vec {
    seq(dim, d => Sum(TileHiddenTerms(tile, weight, v0, d), 0, |tile|))
  }

  function AddmmRow(row: Vec, tile: Vec, weight: seq<Vec>, v0: int): Vec {
    seq(|row|, d requires 0 <= d < |row| => row[d] + Sum(TileHiddenTerms(tile, weight, v0, d), 0, |tile|))
  }

  /** Column c of a tile against the hidden states: a row of `dlogits_tile^T @ hidden`. */
  function TileWeightTerms(tile: seq<Vec>, c: int, hidden: seq<Vec>, d: int): int -> real {
    i => Times(At(RowAt(tile, i), c), At(RowAt(hidden, i), d))
  }

  function MmTransposedRow(tile: seq<Vec>, c: int, hidden: seq<Vec>, dim: nat): Vec {
    seq(dim, d => Sum(TileWeightTerms(tile, c, hidden, d), 0, |hidden|))
  }

  // ----- the untiled product ---------------------------------------------------------------------

  /** What the loop starts from. */
  datatype Inputs = Inputs(fns: RealFns, logits: seq<Vec>, weight: seq<Vec>, batch: Batch, lse: seq<real>,
                           vocabStart: int, dim: nat) {
    predicate Valid() {
      && batch.Valid() && |logits| == |lse| == |batch.hidden| && |weight| > 0
      && forall i | 0 <= i < |logits| :: |logits[i]| == |weight|
    }

    /** The whole dlogits matrix. */
    function D(i: int, j: int): real {
      if batch.Valid() && |lse| == |batch.hidden| && 0 <= i < |lse| then
        DlogitEntry(fns, At(RowAt(logits, i), j), lse[i], batch.targets[i], batch.grad[i], vocabStart + j)
      else 0.0
    }

    function HiddenTerms(i: int, d: int): int -> real { j => Times(D(i, j), At(RowAt(weight, j), d)) }

    function WeightTerms(j: int, d: int): int -> real { i => Times(D(i, j), At(RowAt(batch.hidden, i), d)) }

    /** Row i of the untiled `dlogits @ weight` over the columns [0, n). */
    function HiddenRow(i: int, n: int): Vec { seq(dim, d => Sum(HiddenTerms(i, d), 0, n)) }

    /** Row j of the untiled `dlogits^T @ hidden`. */
    function WeightRow(j: int): Vec { seq(dim, d => Sum(WeightTerms(j, d), 0, |batch.hidden|)) }

    /** Row i of the dlogits tile over the columns [v0, v0 + vc). */
    function Tile(i: nat, v0: nat, vc: nat): Vec
      requires Valid() && i < |logits| && v0 + vc <= |weight|
    {
      DlogitRow(fns, logits[i][v0..v0 + vc], lse[i], batch.targets[i], batch.grad[i], vocabStart + v0)
    }

    /** The same inputs once a backward has run: a single tile has overwritten the saved logits. */
    function After(tileV: int): Inputs
      requires Valid()
    {
      if tileV < |weight| then this
      else this.(logits := seq(|logits|, i requires 0 <= i < |logits| => Tile(i, 0, |weight|)))
    }
  }

  lemma TileEntry(x: Inputs, i: nat, v0: nat, vc: nat, c: nat)
    requires x.Valid() && i < |x.logits| && v0 + vc <= |x.weight| && c < vc
    ensures At(x.Tile(i, v0, vc), c) == x.D(i, v0 + c)
  {
  }

  lemma TileHiddenSum(x: Inputs, i: nat, v0: nat, vc: nat, d: int)
    requires x.Valid() && i < |x.logits| && v0 + vc <= |x.weight|
    ensures Sum(TileHiddenTerms(x.Tile(i, v0, vc), x.weight, v0, d), 0, vc) == Sum(x.HiddenTerms(i, d), v0, v0 + vc)
  {
    forall c | 0 <= c < vc
      ensures ShiftAt(x.HiddenTerms(i, d), TileHiddenTerms(x.Tile(i, v0, vc), x.weight, v0, d), v0, c)
    {
      TileEntry(x, i, v0, vc, c);
    }
    SumMoved(x.HiddenTerms(i, d), TileHiddenTerms(x.Tile(i, v0, vc), x.weight, v0, d), v0, vc, v0, v0 + vc);
  }

  /** The first tile's mm starts the hidden gradient, every later addmm extends it. */
  lemma MmStarts(x: Inputs, i: nat, vc: nat)
    requires x.Valid() && i < |x.logits| && vc <= |x.weight|
    ensures MmRow(x.Tile(i, 0, vc), x.weight, 0, x.dim) == x.HiddenRow(i, vc)
  {
    forall d | 0 <= d < x.dim ensures MmRow(x.Tile(i, 0, vc), x.weight, 0, x.dim)[d] == x.HiddenRow(i, vc)[d] {
      TileHiddenSum(x, i, 0, vc, d);
    }
  }

  lemma AddmmExtends(x: Inputs, i: nat, v0: nat, vc: nat)
    requires x.Valid() && i < |x.logits| && v0 + vc <= |x.weight|
    ensures AddmmRow(x.HiddenRow(i, v0), x.Tile(i, v0, vc), x.weight, v0) == x.HiddenRow(i, v0 + vc)
  {
    var row := AddmmRow(x.HiddenRow(i, v0), x.Tile(i, v0, vc), x.weight, v0);
    forall d | 0 <= d < x.dim ensures row[d] == x.HiddenRow(i, v0 + vc)[d] {
      AddmmElement(x, i, v0, vc, d);
    }
  }

  lemma AddmmElement(x: Inputs, i: nat, v0: nat, vc: nat, d: nat)
    requires x.Valid() && i < |x.logits| && v0 + vc <= |x.weight| && d < x.dim
    ensures AddmmRow(x.HiddenRow(i, v0), x.Tile(i, v0, vc), x.weight, v0)[d] == x.HiddenRow(i, v0 + vc)[d]
  {
    TileHiddenSum(x, i, v0, vc, d);
    SumSplit(x.HiddenTerms(i, d), 0, v0, v0 + vc);
  }

  /** A tile's transposed product fills its rows of the weight gradient. */
  lemma TransposedFills(x: Inputs, tile: seq<Vec>, v0: nat, vc: nat, c: nat)
    requires x.Valid() && v0 + vc <= |x.weight| && c < vc
    requires |tile| == |x.logits| && forall i | 0 <= i < |tile| :: tile[i] == x.Tile(i, v0, vc)
    ensures MmTransposedRow(tile, c, x.batch.hidden, x.dim) == x.WeightRow(v0 + c)
  {
    forall d | 0 <= d < x.dim ensures MmTransposedRow(tile, c, x.batch.hidden, x.dim)[d] == x.WeightRow(v0 + c)[d] {
      forall i | 0 <= i < |x.logits|
        ensures TileWeightTerms(tile, c, x.batch.hidden, d)(i) == x.WeightTerms(v0 + c, d)(i)
      {
        TileEntry(x, i, v0, vc, c);
      }
      SumCong(TileWeightTerms(tile, c, x.batch.hidden, d), x.WeightTerms(v0 + c, d), 0, |x.batch.hidden|);
    }
  }

  // ----- the loop --------------------------------------------------------------------------------

  /** The destination of one tile: the logits themselves, the shared workspace, or a fresh buffer for a
      last tile of another width. */
  method DlogitsTile(x: Inputs, logits: array<Vec>, workspace: array<Vec>, workspaceWidth: nat, inplace: bool,
      v0: nat, vc: nat)
    returns (tile: seq<Vec>)
    requires x.Valid() && v0 + vc <= |x.weight| && logits[..] == x.logits
    requires workspace.Length == logits.Length && workspace != logits
    requires inplace ==> v0 == 0 && vc == |x.weight|
    requires !inplace ==> forall i | 0 <= i < workspace.Length :: |workspace[i]| == workspaceWidth
    modifies logits, workspace
    ensures |tile| == |x.logits| && forall i | 0 <= i < |tile| :: tile[i] == x.Tile(i, v0, vc)
    ensures !inplace ==> logits[..] == x.logits
    ensures inplace ==> workspace[..] == old(workspace[..]) && logits[..] == tile
    ensures !inplace ==> forall i | 0 <= i < workspace.Length :: |workspace[i]| == workspaceWidth
  {
    assert forall i | 0 <= i < logits.Length :: logits[i] == x.logits[i];
    if inplace {
      ToDlogits(x.fns, logits, v0, logits, v0, vc, x.batch, x.lse, x.vocabStart + v0);
      tile := logits[..];
    } else {
      var dst := workspace;
      if vc != workspaceWidth {
        dst := new Vec[logits.Length](i => seq(vc, c => 0.0));
      }
      ToDlogits(x.fns, logits, v0, dst, 0, vc, x.batch, x.lse, x.vocabStart + v0);
      tile := dst[..];
      assert forall i | 0 <= i < logits.Length :: logits[i] == x.logits[i];
    }
  }

  /** mm into the hidden gradient on the first tile, addmm afterwards. */
  method AddHidden(x: Inputs, tile: seq<Vec>, v0: nat, vc: nat, initialized: bool, gh: array<Vec>)
    requires x.Valid() && v0 + vc <= |x.weight| && |tile| == |x.logits| == gh.Length
    requires forall i | 0 <= i < |tile| :: tile[i] == x.Tile(i, v0, vc)
    requires if initialized then forall i | 0 <= i < gh.Length :: gh[i] == x.HiddenRow(i, v0) else v0 == 0
    modifies gh
    ensures forall i | 0 <= i < gh.Length :: gh[i] == x.HiddenRow(i, v0 + vc)
  {
    if !initialized {
      forall i | 0 <= i < gh.Length ensures MmRow(tile[i], x.weight, v0, x.dim) == x.HiddenRow(i, vc) {
        MmStarts(x, i, vc);
      }
      forall i | 0 <= i < gh.Length {
        gh[i] := MmRow(tile[i], x.weight, v0, x.dim);
      }
    } else {
      forall i | 0 <= i < gh.Length
        ensures AddmmRow(x.HiddenRow(i, v0), tile[i], x.weight, v0) == x.HiddenRow(i, v0 + vc)
      {
        AddmmExtends(x, i, v0, vc);
      }
      forall i | 0 <= i < gh.Length {
        gh[i] := AddmmRow(gh[i], tile[i], x.weight, v0);
      }
    }
  }

  /** The rows of the weight gradient that belong to the tile, and no others. */
  method FillWeight(x: Inputs, tile: seq<Vec>, v0: nat, vc: nat, gw: array<Vec>)
    requires x.Valid() && v0 + vc <= |x.weight| == gw.Length && |tile| == |x.logits|
    requires forall i | 0 <= i < |tile| :: tile[i] == x.Tile(i, v0, vc)
    modifies gw
    ensures forall j | v0 <= j < v0 + vc :: gw[j] == x.WeightRow(j)
    ensures forall j | 0 <= j < gw.Length && !(v0 <= j < v0 + vc) :: gw[j] == old(gw[j])
  {
    forall j | v0 <= j < v0 + vc {
      gw[j] := MmTransposedRow(tile, j - v0, x.batch.hidden, x.dim);
    }
    forall j | v0 <= j < v0 + vc ensures gw[j] == x.WeightRow(j) {
      TransposedFills(x, tile, v0, vc, j - v0);
    }
  }

  /** _LinearLogpFusedTileBF16Function.backward, and its tensor-parallel twin before the all-reduce: for
      every tile width the gradients are those of the untiled products. The saved logits are left as they
      were, or hold dlogits when one tile covers the vocabulary. */
  method TiledBackward(ghost x: Inputs, logits: array<Vec>, fns: RealFns, weight: seq<Vec>, batch: Batch,
                       lse: seq<real>, vocabStart: int, dim: nat, tileV: int)
    returns (gradHidden: seq<Vec>, gradWeight: seq<Vec>)
    requires x == Inputs(fns, logits[..], weight, batch, lse, vocabStart, dim) && x.Valid() && tileV >= 1
    modifies logits
    ensures logits[..] == x.After(tileV).logits
    ensures |gradHidden| == |batch.hidden|
            && forall i | 0 <= i < |gradHidden| :: gradHidden[i] == x.HiddenRow(i, |weight|)
    ensures |gradWeight| == |weight| && forall j | 0 <= j < |gradWeight| :: gradWeight[j] == x.WeightRow(j)
  {
    var vocab, n := |weight|, logits.Length;
    var y := Inputs(fns, logits[..], weight, batch, lse, vocabStart, dim);
    var inplace := tileV >= vocab;
    var width := MinInt(tileV, vocab);
    var workspace := new Vec[n](i => seq(width, c => 0.0));
    var initialized := false;
    var gh := new Vec[n](i => []);
    var gw := new Vec[vocab](j => []);
    var v0 := 0;
    while v0 < vocab
      invariant 0 <= v0 <= vocab && (initialized <==> v0 > 0) && (inplace && v0 > 0 ==> v0 == vocab)
      invariant v0 < vocab || !inplace ==> logits[..] == y.logits
      invariant v0 == vocab ==> logits[..] == y.After(tileV).logits
      invariant !inplace ==> forall i | 0 <= i < n :: |workspace[i]| == width
      invariant v0 > 0 ==> forall i | 0 <= i < n :: gh[i] == y.HiddenRow(i, v0)
      invariant forall j | 0 <= j < v0 :: gw[j] == y.WeightRow(j)
      modifies logits, workspace, gh, gw
    {
      var vc := MinInt(tileV, vocab - v0);
      var tile := DlogitsTile(y, logits, workspace, width, inplace, v0, vc);
      if inplace {
        Overwritten(y, tileV, tile);
      }
      AddHidden(y, tile, v0, vc, initialized, gh);
      initialized := true;
      FillWeight(y, tile, v0, vc, gw);
      v0 := v0 + vc;
    }
    gradHidden, gradWeight := gh[..], gw[..];
  }

  lemma Overwritten(x: Inputs, tileV: int, tile: seq<Vec>)
    requires x.Valid() && tileV >= |x.weight| && |tile| == |x.logits|
    requires forall i | 0 <= i < |tile| :: tile[i] == x.Tile(i, 0, |x.weight|)
    ensures tile == x.After(tileV).logits
  {
  }

  // ----- a second backward over the same saved tensors -------------------------------------------

  /** An entry of dlogits comes out the same from the overwritten logits only where it is no function of
      them, or happens to be the logit itself. */
  lemma SecondEntryIff(x: Inputs, tileV: int, i: nat, j: nat)
    requires x.fns.Lawful() && x.Valid() && i < |x.logits| && j < |x.weight|
    ensures x.After(tileV).D(i, j) == x.D(i, j) <==>
            tileV < |x.weight| || x.batch.grad[i] == 0.0 || x.D(i, j) == x.logits[i][j]
  {
    if tileV >= |x.weight| {
      TileEntry(x, i, 0, |x.weight|, j);
      assert At(RowAt(x.After(tileV).logits, i), j) == x.D(i, j);
      SameEntryIff(x.fns, x.logits[i][j], x.D(i, j), x.lse[i],
                   if x.vocabStart + j == x.batch.targets[i] then 1.0 else 0.0, x.batch.grad[i]);
    }
  }

  lemma SameEntryIff(fns: RealFns, a: real, b: real, lse: real, onehot: real, g: real)
    requires fns.Lawful()
    ensures Times(onehot - fns.exp(a - lse), g) == Times(onehot - fns.exp(b - lse), g) <==> g == 0.0 || a == b
  {
    TimesUnits(onehot - fns.exp(a - lse));
    TimesUnits(onehot - fns.exp(b - lse));
    if Times(onehot - fns.exp(a - lse), g) == Times(onehot - fns.exp(b - lse), g) && g != 0.0 {
      RatioUnique(onehot - fns.exp(a - lse), Times(onehot - fns.exp(a - lse), g), g);
      RatioUnique(onehot - fns.exp(b - lse), Times(onehot - fns.exp(b - lse), g), g);
      ExpInjective(fns, a - lse, b - lse);
    }
  }

  ghost predicate SameGradients(x: Inputs, y: Inputs) {
    && |x.logits| == |y.logits| && |x.weight| == |y.weight|
    && (forall i | 0 <= i < |x.logits| :: x.HiddenRow(i, |x.weight|) == y.HiddenRow(i, |x.weight|))
    && (forall j | 0 <= j < |x.weight| :: x.WeightRow(j) == y.WeightRow(j))
  }

  /** A second backward gives the gradients again, for everything a forward pass can have saved, if and only
      if the vocabulary takes more than one tile. */
  lemma SecondBackwardIff(fns: RealFns, vocab: nat, tileV: int)
    requires fns.Lawful() && vocab >= 1 && tileV >= 1
    ensures (forall x: Inputs, whole: LmHead, r: Shard
               | x.fns == fns && |x.weight| == vocab && FromForward(x, whole, r) ::
               SameGradients(x, x.After(tileV)))
            <==> tileV < vocab
  {
    if tileV >= vocab {
      var x := OneToken(fns, vocab);
      OneTokenDiffers(fns, vocab, tileV);
      assert FromForward(x, OneTokenHead(vocab), (0, vocab));
    }
  }

  /** One token, one hidden column, every logit 2, and the target in the first row. */
  function OneTokenHead(vocab: nat): LmHead { LmHead(seq(vocab, j => [2.0]), None) }

  function OneToken(fns: RealFns, vocab: nat): Inputs
    requires vocab >= 1
  {
    var head := OneTokenHead(vocab);
    Inputs(fns, [seq(vocab, j => head.Logit([1.0], j))], head.weight, Batch([[1.0]], [0], [1.0]),
           [LogSumExpOf(fns, head, [1.0])], 0, 1)
  }

  lemma OneTokenDiffers(fns: RealFns, vocab: nat, tileV: int)
    requires fns.Lawful() && 1 <= vocab <= tileV
    ensures var x := OneToken(fns, vocab);
            FromForward(x, OneTokenHead(vocab), (0, vocab)) && !SameGradients(x, x.After(tileV))
  {
    var x, head := OneToken(fns, vocab), OneTokenHead(vocab);
    OneTokenLogit(vocab, 0);
    ExpPositive(fns, 2.0 - x.lse[0]);
    TimesUnits(1.0 - fns.exp(2.0 - x.lse[0]));
    assert x.D(0, 0) < 1.0;
    SecondEntryIff(x, tileV, 0, 0);
    OneTermRow(x);
    OneTermRow(x.After(tileV));
  }

  lemma OneTokenLogit(vocab: nat, j: nat)
    requires j < vocab
    ensures OneTokenHead(vocab).Logit([1.0], j) == 2.0
  {
    var f := ProductTerms([1.0], RowAt(OneTokenHead(vocab).weight, j));
    assert f(0) == 2.0;
    assert Sum(f, 0, 1) == Sum(f, 0, 0) + f(0);
  }

  /** With one token, a row of the weight gradient is the entry of dlogits times the hidden state. */
  lemma OneTermRow(x: Inputs)
    requires x.batch.hidden == [[1.0]] && x.dim == 1
    ensures x.WeightRow(0)[0] == x.D(0, 0)
  {
    var f := x.WeightTerms(0, 0);
    TimesUnits(x.D(0, 0));
    assert Sum(f, 0, 1) == Sum(f, 0, 0) + f(0);
  }

  // ----- against the reference gradients ---------------------------------------------------------

  /** The saved logits and lse are those of a forward pass over the shard `r` of `whole`; the shard (0, V)
      is the one-device case. */
  ghost predicate FromForward(x: Inputs, whole: LmHead, r: Shard) {
    && x.fns.Lawful() && x.Valid() && whole.Valid() && 0 <= r.0 < r.1 <= whole.Vocab()
    && LseSaved(x.fns, whole, x.batch, x.lse)
    && x.vocabStart == r.0 && x.weight == ShardHead(whole, r).weight
    && forall i, j | 0 <= i < |x.logits| && 0 <= j < |x.weight| ::
         x.logits[i][j] == ShardHead(whole, r).Logit(x.batch.hidden[i], j)
  }

  lemma DIsDz(x: Inputs, whole: LmHead, r: Shard, i: nat, j: nat)
    requires FromForward(x, whole, r) && i < |x.logits| && j < |x.weight|
    ensures x.D(i, j) == Dz(x.fns, whole, x.batch.hidden[i], x.batch.targets[i], x.batch.grad[i], r.0 + j)
  {
    var h := x.batch.hidden[i];
    SliceLogit(whole, h, r.0, r.1, j);
    ProbIsExp(x.fns, whole, h, r.0 + j);
    assert x.logits[i][j] == whole.Logit(h, r.0 + j);
  }

  /** The tiled hidden gradient is the whole head's sum over the shard, and the weight gradient its rows
      there; under an accepted partition the ranks therefore add up as in TensorParallelBackward. */
  lemma TiledIsReference(x: Inputs, whole: LmHead, r: Shard)
    requires FromForward(x, whole, r)
    ensures forall i, d | 0 <= i < |x.logits| && 0 <= d < x.dim ::
      x.HiddenRow(i, |x.weight|)[d]
      == Sum(LinearLogpBackward.HiddenTerms(x.fns, whole, x.batch.hidden[i], x.batch.targets[i], x.batch.grad[i], d),
          r.0, r.1)
    ensures forall j, d | 0 <= j < |x.weight| && 0 <= d < x.dim ::
      x.WeightRow(j)[d] == GradWeight(x.fns, whole, x.batch, r.0 + j, d)
  {
    forall i, d | 0 <= i < |x.logits| && 0 <= d < x.dim
      ensures x.HiddenRow(i, |x.weight|)[d]
              == Sum(LinearLogpBackward.HiddenTerms(x.fns, whole, x.batch.hidden[i], x.batch.targets[i],
                  x.batch.grad[i], d), r.0, r.1)
    {
      HiddenMatches(x, whole, r, i, d);
    }
    forall j, d | 0 <= j < |x.weight| && 0 <= d < x.dim
      ensures x.WeightRow(j)[d] == GradWeight(x.fns, whole, x.batch, r.0 + j, d)
    {
      WeightMatches(x, whole, r, j, d);
    }
  }

  lemma HiddenMatches(x: Inputs, whole: LmHead, r: Shard, i: nat, d: nat)
    requires FromForward(x, whole, r) && i < |x.logits|
    ensures Sum(x.HiddenTerms(i, d), 0, |x.weight|)
            == Sum(LinearLogpBackward.HiddenTerms(x.fns, whole, x.batch.hidden[i], x.batch.targets[i],
                x.batch.grad[i], d), r.0, r.1)
  {
    var full := LinearLogpBackward.HiddenTerms(x.fns, whole, x.batch.hidden[i], x.batch.targets[i], x.batch.grad[i], d);
    forall j | 0 <= j < |x.weight| ensures ShiftAt(full, x.HiddenTerms(i, d), r.0, j) {
      HiddenTermMatches(x, whole, r, i, j, d);
    }
    SumMoved(full, x.HiddenTerms(i, d), r.0, |x.weight|, r.0, r.1);
  }

  lemma HiddenTermMatches(x: Inputs, whole: LmHead, r: Shard, i: nat, j: nat, d: nat)
    requires FromForward(x, whole, r) && i < |x.logits| && j < |x.weight|
    ensures ShiftAt(LinearLogpBackward.HiddenTerms(x.fns, whole, x.batch.hidden[i], x.batch.targets[i],
                                                   x.batch.grad[i], d), x.HiddenTerms(i, d), r.0, j)
  {
    DIsDz(x, whole, r, i, j);
    assert RowAt(x.weight, j) == RowAt(whole.weight, j + r.0);
  }

  lemma WeightMatches(x: Inputs, whole: LmHead, r: Shard, j: nat, d: nat)
    requires FromForward(x, whole, r) && j < |x.weight|
    ensures Sum(x.WeightTerms(j, d), 0, |x.batch.hidden|) == GradWeight(x.fns, whole, x.batch, r.0 + j, d)
  {
    var full := LinearLogpBackward.WeightTerms(x.fns, whole, x.batch, r.0 + j, d);
    forall i | 0 <= i < |x.batch.hidden| ensures x.WeightTerms(j, d)(i) == full(i) {
      DIsDz(x, whole, r, i, j);
    }
    SumCong(x.WeightTerms(j, d), full, 0, |x.batch.hidden|);
  }
}
