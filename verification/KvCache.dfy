/** Incremental decoding: feeding a sequence in chunks, each with the earlier keys and values as
    cache, is the one-shot causal prefill. */
module KvCache {
  import opened Options
  import opened RealFunctions
  import opened Softmax
  import opened Attention

  function SeqLen(t: seq<Head>): nat
    requires |t| > 0
  {
    |t[0]|
  }

  /** torch.cat along the sequence axis. */
  function Cat(a: seq<Head>, b: seq<Head>): seq<Head>
    requires |a| == |b|
  {
    seq(|a|, h requires 0 <= h < |a| => a[h] + b[h])
  }

  /** NativeKVCacheAttnOp.forward on one batch element. */
  function Decode(fns: RealFns, q: seq<Head>, kCache: seq<Head>, vCache: seq<Head>, kNew: seq<Head>, vNew: seq<Head>,
                  dim: nat, causal: bool, scale: Option<real>, mask: Option<seq<bool>>)
    : Result<seq<seq<seq<Num>>>>
    requires fns.Lawful() && dim > 0 && |q| > 0
    requires |kCache| == |vCache| == |kNew| == |vNew| > 0
  {
    if SeqLen(q) != SeqLen(kNew) || SeqLen(q) != SeqLen(vNew) then Failure(QueryNotAligned)
    else Forward(fns, q, Cat(kCache, kNew), Cat(vCache, vNew), dim, causal, scale, mask)
  }

  /** A decode step refuses new keys or values of another length than its queries, and head counts that do not
      divide; otherwise it is the op over the cache followed by the new keys and values. */
  lemma DecodeFailsIff(fns: RealFns, q: seq<Head>, kCache: seq<Head>, vCache: seq<Head>, kNew: seq<Head>,
                       vNew: seq<Head>, dim: nat, causal: bool, scale: Option<real>, mask: Option<seq<bool>>)
    requires fns.Lawful() && dim > 0 && |q| > 0
    requires |kCache| == |vCache| == |kNew| == |vNew| > 0
    ensures var out := Decode(fns, q, kCache, vCache, kNew, vNew, dim, causal, scale, mask);
            && (out == Failure(QueryNotAligned) <==> |q[0]| != |kNew[0]| || |q[0]| != |vNew[0]|)
            && (out.Failure? <==> |q[0]| != |kNew[0]| || |q[0]| != |vNew[0]| || |q| % |kCache| != 0)
  {
  }

  function Slice(t: seq<Head>, a: nat, b: nat): seq<Head>
    requires a <= b && forall h | 0 <= h < |t| :: b <= |t[h]|
  {
    seq(|t|, h requires 0 <= h < |t| => t[h][a..b])
  }

  function MaskPrefix(mask: Option<seq<bool>>, n: nat): Option<seq<bool>>
    requires mask.Some? ==> n <= |mask.value|
  {
    match mask
    case None => None
    case Some(m) => Some(m[..n])
  }

  function Total(cuts: seq<nat>): nat {
    if |cuts| == 0 then 0 else cuts[0] + Total(cuts[1..])
  }

  type Out = seq<seq<seq<Num>>>

  function CatOut(a: Out, b: Out): Out {
    var heads := if |a| <= |b| then |a| else |b|;
    seq(heads, h requires 0 <= h < heads => a[h] + b[h])
  }

  /** One sequence to attend over: its queries, keys and values, and the options of the call. */
  datatype Sequence = Sequence(fns: RealFns, q: seq<Head>, k: seq<Head>, v: seq<Head>, s: nat, dim: nat,
                               scale: Option<real>, mask: Option<seq<bool>>) {
    ghost predicate Valid() {
      && fns.Lawful() && dim > 0
      && IsTensor(q, s, dim) && IsTensor(k, s, dim) && IsTensor(v, s, dim) && |v| == |k|
      && (mask.Some? ==> |mask.value| == s)
    }

    /** The one-shot causal prefill. */
    function Prefill(): Result<Out>
      requires Valid()
    {
      Forward(fns, q, k, v, dim, true, scale, mask)
    }

    /** One decode step over positions [start, end): those queries, the earlier keys as cache. */
    function Step(start: nat, end: nat): Result<Out>
      requires Valid() && start <= end <= s
    {
      Decode(fns, Slice(q, start, end), Slice(k, 0, start), Slice(v, 0, start),
             Slice(k, start, end), Slice(v, start, end), dim, true, scale, MaskPrefix(mask, end))
    }

    /** Decode the positions from `start` on, one chunk of `cuts` at a time, and concatenate the
        outputs. Cuts of 1 are token-by-token decoding. */
    function Run(start: nat, cuts: seq<nat>): Result<Out>
      requires Valid() && start + Total(cuts) == s
      decreases |cuts|
    {
      if |cuts| == 0 then Success(seq(|q|, h => []))
      else
        var end := start + cuts[0];
        var out := Step(start, end);
        if out.Failure? then out
        else
          var rest := Run(end, cuts[1..]);
          if rest.Failure? then rest else Success(CatOut(out.value, rest.value))
    }
  }

  /** One output row of a chunk [a, b) is the prefill's row at that position. */
  lemma ChunkRow(fns: RealFns, q: Head, k: Head, v: Head, s: nat, dim: nat, scale: real,
                 mask: Option<seq<bool>>, a: nat, b: nat, i: nat, d: nat)
    requires fns.Lawful() && a <= i < b <= s && d < dim
    requires IsHead(q, s, dim) && IsHead(k, s, dim) && IsHead(v, s, dim)
    requires mask.Some? ==> |mask.value| == s
    ensures AttendHead(fns, q[a..b], k[..b], v[..b], dim, true, scale, MaskPrefix(mask, b))[i - a][d]
            == AttendHead(fns, q, k, v, dim, true, scale, mask)[i][d]
  {
    var chunk := ScoreRow(MatOf(q[a..b]), MatOf(k[..b]), dim, scale, i - a,
                          CausalLimit(true, b - a, b, i - a), KeepOf(MaskPrefix(mask, b)));
    var full := ScoreRow(MatOf(q), MatOf(k), dim, scale, i, CausalLimit(true, s, s, i), KeepOf(mask));
    forall j | 0 <= j < b
      ensures chunk(j) == full(j) && Column(MatOf(v[..b]), d)(j) == Column(MatOf(v), d)(j)
    {
      SumCong(DotTerms(MatOf(q[a..b]), i - a, MatOf(k[..b]), j), DotTerms(MatOf(q), i, MatOf(k), j), 0, dim);
      assert KeepOf(MaskPrefix(mask, b))(j) == KeepOf(mask)(j);
      assert Elem(v[..b], j, d) == Elem(v, j, d);
    }
    AttendRowPrefix(fns, chunk, Column(MatOf(v[..b]), d), b, full, Column(MatOf(v), d), s, mask.Some?);
  }

  lemma ChunkHead(fns: RealFns, q: Head, k: Head, v: Head, s: nat, dim: nat, scale: real,
                  mask: Option<seq<bool>>, a: nat, b: nat)
    requires fns.Lawful() && a <= b <= s
    requires IsHead(q, s, dim) && IsHead(k, s, dim) && IsHead(v, s, dim)
    requires mask.Some? ==> |mask.value| == s
    ensures AttendHead(fns, q[a..b], k[..b], v[..b], dim, true, scale, MaskPrefix(mask, b))
            == AttendHead(fns, q, k, v, dim, true, scale, mask)[a..b]
  {
    var chunk := AttendHead(fns, q[a..b], k[..b], v[..b], dim, true, scale, MaskPrefix(mask, b));
    var full := AttendHead(fns, q, k, v, dim, true, scale, mask);
    forall r | 0 <= r < b - a ensures chunk[r] == full[a..b][r] {
      forall d | 0 <= d < dim ensures chunk[r][d] == full[a + r][d] {
        ChunkRow(fns, q, k, v, s, dim, scale, mask, a, b, a + r, d);
      }
    }
  }

  /** The inputs of a chunk as one call sees them: the new queries, and the whole key prefix. */
  ghost predicate IsChunk(x: Sequence, a: nat, b: nat, qc: seq<Head>, kc: seq<Head>, vc: seq<Head>)
    requires x.Valid() && a <= b <= x.s
  {
    && |qc| == |x.q| && |kc| == |vc| == |x.k|
    && (forall h | 0 <= h < |qc| :: qc[h] == x.q[h][a..b])
    && (forall g | 0 <= g < |kc| :: kc[g] == x.k[g][..b] && vc[g] == x.v[g][..b])
  }

  lemma ChunkForward(x: Sequence, a: nat, b: nat, qc: seq<Head>, kc: seq<Head>, vc: seq<Head>, h: nat)
    requires x.Valid() && a <= b <= x.s && h < |x.q| && |x.q| % |x.k| == 0
    requires IsChunk(x, a, b, qc, kc, vc)
    ensures var out := Forward(x.fns, qc, kc, vc, x.dim, true, x.scale, MaskPrefix(x.mask, b)).value;
            |x.Prefill().value[h]| == x.s && out[h] == x.Prefill().value[h][a..b]
  {
    ForwardHead(x.fns, x.q, x.k, x.v, x.dim, true, x.scale, x.mask, h);
    ForwardHead(x.fns, qc, kc, vc, x.dim, true, x.scale, MaskPrefix(x.mask, b), h);
    var g := KvHead(|x.q|, |x.k|, h);
    ChunkHead(x.fns, x.q[h], x.k[g], x.v[g], x.s, x.dim, ScaleOf(x.fns, x.scale, x.dim), x.mask, a, b);
  }

  /** Rows a..b of every head of `full`. */
  predicate RowsOf(out: Out, full: Out, a: nat, b: nat) {
    |out| == |full| && forall h | 0 <= h < |full| :: IsRows(out[h], full[h], a, b)
  }

  predicate IsRows(out: seq<seq<Num>>, full: seq<seq<Num>>, a: nat, b: nat) {
    a <= b <= |full| && out == full[a..b]
  }

  lemma StepIsChunk(x: Sequence, a: nat, b: nat) returns (qc: seq<Head>, kc: seq<Head>, vc: seq<Head>)
    requires x.Valid() && a <= b <= x.s
    ensures IsChunk(x, a, b, qc, kc, vc)
    ensures x.Step(a, b) == Forward(x.fns, qc, kc, vc, x.dim, true, x.scale, MaskPrefix(x.mask, b))
  {
    qc := Slice(x.q, a, b);
    kc := Cat(Slice(x.k, 0, a), Slice(x.k, a, b));
    vc := Cat(Slice(x.v, 0, a), Slice(x.v, a, b));
  }

  /** One decode step over [a, b) returns the prefill's rows a..b of every head, or its error. */
  lemma StepIsPrefillRows(x: Sequence, a: nat, b: nat)
    requires x.Valid() && a <= b <= x.s
    ensures x.Prefill().Failure? ==> x.Step(a, b) == x.Prefill()
    ensures x.Prefill().Success? ==> x.Step(a, b).Success? && RowsOf(x.Step(a, b).value, x.Prefill().value, a, b)
    ensures x.Prefill().Success? ==>
      |x.Prefill().value| == |x.q| && forall h | 0 <= h < |x.q| :: |x.Prefill().value[h]| == x.s
  {
    var qc, kc, vc := StepIsChunk(x, a, b);
    if |x.q| % |x.k| == 0 {
      forall h | 0 <= h < |x.q|
        ensures |x.Prefill().value[h]| == x.s && x.Step(a, b).value[h] == x.Prefill().value[h][a..b]
      {
        ChunkForward(x, a, b, qc, kc, vc, h);
      }
    }
  }

  lemma RowsJoin(y: Out, z: Out, full: Out, a: nat, b: nat, c: nat)
    requires RowsOf(y, full, a, b) && RowsOf(z, full, b, c)
    ensures RowsOf(CatOut(y, z), full, a, c)
  {
    forall h | 0 <= h < |full| ensures IsRows(CatOut(y, z)[h], full[h], a, c) {
      assert IsRows(y[h], full[h], a, b) && IsRows(z[h], full[h], b, c);
      assert full[h][a..b] + full[h][b..c] == full[h][a..c];
    }
  }

  lemma {:induction false} RunIsPrefillRows(x: Sequence, start: nat, cuts: seq<nat>)
    requires x.Valid() && start + Total(cuts) == x.s && x.Prefill().Success?
    ensures x.Run(start, cuts).Success? && RowsOf(x.Run(start, cuts).value, x.Prefill().value, start, x.s)
    decreases |cuts|
  {
    if |cuts| == 0 {
      StepIsPrefillRows(x, start, start);
    } else {
      var end := start + cuts[0];
      StepIsPrefillRows(x, start, end);
      RunIsPrefillRows(x, end, cuts[1..]);
      RowsJoin(x.Step(start, end).value, x.Run(end, cuts[1..]).value, x.Prefill().value, start, end, x.s);
    }
  }

  /** For every way of cutting the sequence into chunks, decoding chunk by chunk and concatenating
      gives exactly the one-shot causal prefill: the same rows, and the same error. */
  lemma IncrementalDecodingIsPrefill(x: Sequence, cuts: seq<nat>)
    requires x.Valid() && |cuts| > 0 && Total(cuts) == x.s
    ensures x.Run(0, cuts) == x.Prefill()
  {
    StepIsPrefillRows(x, 0, cuts[0]);
    if x.Prefill().Success? {
      RunIsPrefillRows(x, 0, cuts);
      var run, full := x.Run(0, cuts).value, x.Prefill().value;
      forall h | 0 <= h < |full| ensures run[h] == full[h] {
        assert IsRows(run[h], full[h], 0, x.s);
      }
      assert run == full;
    }
  }

  /** Without a padding mask a causal query row is NaN exactly when it lies before every key, which
      needs more queries than keys; NativeAttentionOp states that it cannot happen. */
  lemma CausalRowIsNaN(fns: RealFns, q: Head, k: Head, v: Head, dim: nat, scale: real, i: nat, d: nat)
    requires fns.Lawful() && i < |q| && d < dim
    ensures AttendHead(fns, q, k, v, dim, true, scale, None)[i][d].NaN? <==> 0 < |k| <= |q| - 1 - i
  {
    var z := ScoreRow(MatOf(q), MatOf(k), dim, scale, i, CausalLimit(true, |q|, |k|, i), KeepOf(None));
    MaxIsMaximum(z, 0, |k|);
    if 0 < |k| <= |q| - 1 - i {
      MaxOfMasked(z, 0, |k|);
    } else if 0 < |k| {
      assert z(0).Fin?;
    }
  }
}
