/** The fused LM-head kernel: logits never materialized, tiled over the vocabulary and the hidden size. */
module LinearLogpKernel {
  import opened RealFunctions
  import opened Softmax
  import opened LinearLogp

  /** The products one lane adds up: weights loaded past either edge are zero. */
  function LaneTerms(head: LmHead, h: Vec, j: int): int -> real { ProductTerms(h, RowAt(head.weight, j)) }

  /** tl.dot of one hidden tile, added to the accumulator of every lane. */
  function AddTile(head: LmHead, h: Vec, v0: nat, d0: nat, blockD: nat, acc: Vec): Vec
  {
    seq(|acc|, j requires 0 <= j < |acc| => acc[j] + Sum(LaneTerms(head, h, v0 + j), d0, d0 + blockD))
  }

  /** The inner loop over hidden tiles: each lane ends with its full dot product. */
  method TileDots(head: LmHead, h: Vec, v0: nat, blockV: nat, blockD: nat) returns (acc: Vec)
    requires blockD > 0
    ensures |acc| == blockV && forall j | 0 <= j < blockV :: acc[j] == Dot(h, RowAt(head.weight, v0 + j))
  {
    acc := seq(blockV, _ => 0.0);
    var d0: nat := 0;
    while d0 < |h|
      invariant |acc| == blockV && forall j | 0 <= j < blockV :: acc[j] == Sum(LaneTerms(head, h, v0 + j), 0, d0)
    {
      forall j | 0 <= j < blockV
        ensures Sum(LaneTerms(head, h, v0 + j), 0, d0 + blockD)
             == acc[j] + Sum(LaneTerms(head, h, v0 + j), d0, d0 + blockD)
      {
        SumSplit(LaneTerms(head, h, v0 + j), 0, d0, d0 + blockD);
      }
      acc := AddTile(head, h, v0, d0, blockD, acc);
      d0 := d0 + blockD;
    }
    forall j | 0 <= j < blockV
      ensures acc[j] == Dot(h, RowAt(head.weight, v0 + j))
    {
      HiddenTail(head, h, v0 + j, d0);
    }
  }

  /** Hidden columns loaded past the end contribute nothing. */
  lemma HiddenTail(head: LmHead, h: Vec, j: int, d: nat)
    requires |h| <= d
    ensures Sum(LaneTerms(head, h, j), 0, d) == Dot(h, RowAt(head.weight, j))
  {
    var f := LaneTerms(head, h, j);
    SumSplit(f, 0, |h|, d);
    forall k | |h| <= k < d
      ensures f(k) == 0.0
    {
      TimesUnits(At(RowAt(head.weight, j), k));
    }
    SumZero(f, |h|, d);
  }

  // ----- one vocabulary tile ---------------------------------------------------------------------

  /** The row as the tiles see it: logits past the vocabulary are minus infinity. */
  function Padded(head: LmHead, h: Vec): int -> Ext {
    j => if 0 <= j < head.Vocab() then Fin(head.Logit(h, j)) else NegInf
  }

  function Lanes(acc: Vec, v0: nat, v: nat): int -> Ext {
    j => if 0 <= j < |acc| && v0 + j < v then Fin(acc[j]) else NegInf
  }

  /** where(is_t, acc, 0) */
  function Hits(acc: Vec, v0: nat, v: nat, t: int): int -> real {
    j => if 0 <= j < |acc| && v0 + j == t && v0 + j < v then acc[j] else 0.0
  }

  function TargetSoFar(head: LmHead, h: Vec, t: int, n: nat): real {
    if 0 <= t < n && t < head.Vocab() then head.Logit(h, t) else 0.0
  }

  ghost predicate IsLogits(head: LmHead, h: Vec, v0: nat, acc: Vec) {
    forall j | 0 <= j < |acc| && v0 + j < head.Vocab() :: acc[j] == head.Logit(h, v0 + j)
  }

  lemma TileKeeps(fns: RealFns, head: LmHead, h: Vec, v0: nat, acc: Vec, m: Ext, s: real)
    requires fns.Lawful() && v0 < head.Vocab() && |acc| > 0 && IsLogits(head, h, v0, acc)
    requires OnlineInv(fns, Padded(head, h), 0, v0, m, s)
    ensures TileFolded(fns, Padded(head, h), Lanes(acc, v0, head.Vocab()), |acc|, v0 + |acc|, m, s)
  {
    LanesArePadded(head, h, v0, acc);
    PaddedTileKeeps(fns, Padded(head, h), Lanes(acc, v0, head.Vocab()), v0, |acc|, m, s);
  }

  lemma LanesArePadded(head: LmHead, h: Vec, v0: nat, acc: Vec)
    requires IsLogits(head, h, v0, acc)
    ensures IsShift(Padded(head, h), Lanes(acc, v0, head.Vocab()), v0, 0, |acc|)
  {
    assert forall c | 0 <= c < |acc| :: ShiftAt(Padded(head, h), Lanes(acc, v0, head.Vocab()), v0, c);
  }

  /** At most one tile, and one lane of it, adds the target's logit. */
  lemma TargetKeeps(head: LmHead, h: Vec, t: int, v0: nat, acc: Vec)
    requires IsLogits(head, h, v0, acc)
    ensures TargetSoFar(head, h, t, v0) + Sum(Hits(acc, v0, head.Vocab(), t), 0, |acc|)
        == TargetSoFar(head, h, t, v0 + |acc|)
  {
    SumSingle(Hits(acc, v0, head.Vocab(), t), 0, |acc|, t - v0);
  }

  // ----- one row of one program ------------------------------------------------------------------

  /** The running maximum, sum and target logit of one row. */
  datatype RowState = RowState(m: Ext, s: real, zt: real)

  ghost predicate RowInv(fns: RealFns, head: LmHead, h: Vec, t: int, n: nat, st: RowState) {
    && OnlineInv(fns, Padded(head, h), 0, n, st.m, st.s) && (n > 0 ==> st.m.Fin?)
    && st.zt == TargetSoFar(head, h, t, n)
  }

  /** The tile's logits: dot products plus bias. */
  method TileLogits(head: LmHead, h: Vec, v0: nat, blockV: nat, blockD: nat) returns (acc: Vec)
    requires blockD > 0
    ensures |acc| == blockV && IsLogits(head, h, v0, acc)
  {
    acc := TileDots(head, h, v0, blockV, blockD);
    if head.bias.Some? {
      acc := seq(|acc|, j requires 0 <= j < |acc| => acc[j] + At(head.bias.value, v0 + j));
    }
  }

  /** One iteration of the vocabulary loop. */
  method FoldOne(fns: RealFns, head: LmHead, h: Vec, t: int, v0: nat, acc: Vec, st: RowState) returns (r: RowState)
    requires fns.Lawful() && v0 < head.Vocab() && |acc| > 0 && IsLogits(head, h, v0, acc)
    requires RowInv(fns, head, h, t, v0, st)
    ensures RowInv(fns, head, h, t, v0 + |acc|, r)
  {
    TargetKeeps(head, h, t, v0, acc);
    TileKeeps(fns, head, h, v0, acc, st.m, st.s);
    var zt := st.zt + Sum(Hits(acc, v0, head.Vocab(), t), 0, |acc|);
    var (m, s) := FoldTile(fns, Lanes(acc, v0, head.Vocab()), 0, |acc|, st.m, st.s);
    r := RowState(m, s, zt);
  }

  /** One row of _linear_logp_fwd_kernel: for every vocabulary and hidden tile width it stores the native
      log-probability and log-sum-exp. A target outside the vocabulary matches no lane and scores as zero. */
  method ForwardRow(fns: RealFns, head: LmHead, h: Vec, t: int, blockV: nat, blockD: nat)
    returns (logp: real, lse: real)
    requires fns.Lawful() && head.Vocab() > 0 && blockV > 0 && blockD > 0
    ensures lse == LogSumExpOf(fns, head, h)
    ensures logp == if 0 <= t < head.Vocab() then NativeLogp(fns, head, h, t) else -lse
  {
    var st := RowState(NegInf, 0.0, 0.0);
    var v0: nat := 0;
    while v0 < head.Vocab()
      invariant RowInv(fns, head, h, t, v0, st)
    {
      var acc := TileLogits(head, h, v0, blockV, blockD);
      st := FoldOne(fns, head, h, t, v0, acc, st);
      v0 := v0 + blockV;
    }
    StreamGivesLse(fns, head, h, v0, st.m, st.s);
    lse := st.m.value + fns.log(st.s);
    logp := st.zt - lse;
  }

  lemma StreamGivesLse(fns: RealFns, head: LmHead, h: Vec, n: nat, m: Ext, s: real)
    requires fns.Lawful() && 0 < head.Vocab() <= n && m.Fin? && OnlineInv(fns, Padded(head, h), 0, n, m, s)
    ensures m.value + fns.log(s) == LogSumExpOf(fns, head, h)
  {
    var v := head.Vocab();
    MaskedTail(fns, Padded(head, h), 0, v, n);
    FiniteMax(head.Logits(h), 0, v);
    MaxCong(Padded(head, h), head.Logits(h), 0, v);
    SumCong(Weights(fns, Padded(head, h), m.value), Weights(fns, head.Logits(h), m.value), 0, v);
  }

  ghost predicate RowDone(fns: RealFns, head: LmHead, h: Vec, t: int, logp: real, lse: real)
    requires head.Vocab() > 0
  {
    logp == NativeLogp(fns, head, h, t) && lse == LogSumExpOf(fns, head, h)
  }

  ghost predicate RowsDone(fns: RealFns, head: LmHead, hidden: seq<Vec>, targets: seq<int>, n: nat, logp: seq<real>,
      lse: seq<real>)
    requires head.Vocab() > 0
  {
    && |logp| == |lse| == |hidden| == |targets|
    && forall i | 0 <= i < n && i < |hidden| :: RowDone(fns, head, hidden[i], targets[i], logp[i], lse[i])
  }

  /** One program: a block of rows, those past the end masked. */
  method Program(fns: RealFns, head: LmHead, hidden: seq<Vec>, targets: seq<int>, row: nat, blockN: nat, blockV: nat,
                 blockD: nat, logp: array<real>, lse: array<real>)
    requires fns.Lawful() && head.Vocab() > 0 && InRange(targets, head.Vocab()) && logp != lse
    requires blockV > 0 && blockD > 0
    requires RowsDone(fns, head, hidden, targets, row, logp[..], lse[..])
    modifies logp, lse
    ensures RowsDone(fns, head, hidden, targets, row + blockN, logp[..], lse[..])
  {
    for i := row to row + blockN
      invariant RowsDone(fns, head, hidden, targets, i, logp[..], lse[..])
    {
      if i < |hidden| {
        var a, b := ForwardRow(fns, head, hidden[i], targets[i], blockV, blockD);
        logp[i], lse[i] := a, b;
      }
    }
  }

  /** The launch over all blocks of rows. */
  method Forward(fns: RealFns, head: LmHead, hidden: seq<Vec>, targets: seq<int>, blockN: nat, blockV: nat, blockD: nat)
    returns (logp: array<real>, lse: array<real>)
    requires fns.Lawful() && head.Vocab() > 0 && |hidden| == |targets|
    requires blockN > 0 && blockV > 0 && blockD > 0 && InRange(targets, head.Vocab())
    ensures logp.Length == lse.Length == |hidden|
    ensures forall i | 0 <= i < |hidden| ::
      logp[i] == NativeLogp(fns, head, hidden[i], targets[i]) && lse[i] == LogSumExpOf(fns, head, hidden[i])
  {
    logp, lse := new real[|hidden|], new real[|hidden|];
    var row: nat := 0;
    while row < |hidden|
      invariant RowsDone(fns, head, hidden, targets, row, logp[..], lse[..])
    {
      Program(fns, head, hidden, targets, row, blockN, blockV, blockD, logp, lse);
      row := row + blockN;
    }
    assert forall i | 0 <= i < |hidden| :: RowDone(fns, head, hidden[i], targets[i], logp[..][i], lse[..][i]);
  }
}
