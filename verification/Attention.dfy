/** The naive softmax attention of NativeAttentionOp, and the KV-cache op that delegates to it. */
module Attention {
  import opened Options
  import opened RealFunctions
  import opened Integers
  import opened Softmax

  // ----- one row ---------------------------------------------------------------------------------

  /** The contents of a matrix, or of the memory it lives in: any (row, column) can be read. */
  type Mat = (int, int) -> real

  function DotTerms(x: Mat, i: int, y: Mat, j: int): int -> real { d => x(i, d) * y(j, d) }

  function Score(q: Mat, k: Mat, dim: nat, scale: real, i: int, j: int): real {
    Times(Sum(DotTerms(q, i, k, j), 0, dim), scale)
  }

  /** The masked scores of query i: columns from `limit` on, and columns not kept, are -inf. */
  function ScoreRow(q: Mat, k: Mat, dim: nat, scale: real, i: int, limit: int, keep: int -> bool): int -> Ext {
    j => if j >= limit || !keep(j) then NegInf else Fin(Score(q, k, dim, scale, i, j))
  }

  function Column(v: Mat, d: int): int -> real { j => v(j, d) }

  function ProbTimes(fns: RealFns, z: int -> Ext, n: int, v: int -> real): int -> real
    requires fns.Lawful() && MaxOf(z, 0, n).Fin?
  {
    j => SoftmaxAt(fns, z, 0, n, j) * v(j)
  }

  /** softmax(z) . v for a row with at least one visible score. */
  function Attend(fns: RealFns, z: int -> Ext, n: int, v: int -> real): real
    requires fns.Lawful() && MaxOf(z, 0, n).Fin?
  {
    Sum(ProbTimes(fns, z, n, v), 0, n)
  }

  /** An output element; the softmax of an all -inf row is NaN. */
  datatype Num = NaN | Real(value: real)

  /** One output element. A row with no visible key is zero under the padding guard and over an
      empty key axis, and NaN otherwise. */
  function AttendRow(fns: RealFns, z: int -> Ext, n: int, v: int -> real, guarded: bool): Num
    requires fns.Lawful()
  {
    if MaxOf(z, 0, n).Fin? then Real(Attend(fns, z, n, v))
    else if guarded || n == 0 then Real(0.0)
    else NaN
  }

  function WeightedTerms(fns: RealFns, z: int -> Ext, c: real, v: int -> real): int -> real {
    j => Weights(fns, z, c)(j) * v(j)
  }

  function WeightedSum(fns: RealFns, z: int -> Ext, c: real, v: int -> real, lo: int, hi: int): real {
    Sum(WeightedTerms(fns, z, c, v), lo, hi)
  }

  lemma ProbTerm(fns: RealFns, z: int -> Ext, n: int, v: int -> real, c: real, j: int)
    requires fns.Lawful() && MaxOf(z, 0, n).Fin?
    ensures SumExp(fns, z, c, 0, n) > 0.0
    ensures ProbTimes(fns, z, n, v)(j) == (1.0 / SumExp(fns, z, c, 0, n)) * WeightedTerms(fns, z, c, v)(j)
  {
    SoftmaxForms(fns, z, 0, n, c, j);
    QuotientTimes(Weights(fns, z, c)(j), SumExp(fns, z, c, 0, n), v(j));
  }

  lemma QuotientTimes(a: real, b: real, x: real)
    requires b > 0.0
    ensures (a / b) * x == (1.0 / b) * (a * x)
    ensures (1.0 / b) * a == Ratio(a, b)
  {
    var inv := 1.0 / b;
    assert a / b == inv * a;
    assert (inv * a) * x == inv * (a * x);
  }

  lemma AttendScaled(fns: RealFns, z: int -> Ext, n: int, v: int -> real, c: real, inverse: real)
    requires fns.Lawful() && MaxOf(z, 0, n).Fin? && SumExp(fns, z, c, 0, n) > 0.0
    requires inverse == 1.0 / SumExp(fns, z, c, 0, n)
    ensures Attend(fns, z, n, v) == inverse * WeightedSum(fns, z, c, v, 0, n)
  {
    forall j | 0 <= j < n ensures ProbTimes(fns, z, n, v)(j) == inverse * WeightedTerms(fns, z, c, v)(j) {
      ProbTerm(fns, z, n, v, c, j);
    }
    SumScale(WeightedTerms(fns, z, c, v), ProbTimes(fns, z, n, v), inverse, 0, n);
  }

  /** Attend is the weighted sum over the sum of weights, for any reference point. */
  lemma AttendQuotient(fns: RealFns, z: int -> Ext, n: int, v: int -> real, c: real)
    requires fns.Lawful() && MaxOf(z, 0, n).Fin?
    ensures SumExp(fns, z, c, 0, n) > 0.0
    ensures Attend(fns, z, n, v) == Ratio(WeightedSum(fns, z, c, v, 0, n), SumExp(fns, z, c, 0, n))
  {
    SumExpPositive(fns, z, c, 0, n);
    AttendScaled(fns, z, n, v, c, 1.0 / SumExp(fns, z, c, 0, n));
    QuotientTimes(WeightedSum(fns, z, c, v, 0, n), SumExp(fns, z, c, 0, n), 0.0);
  }

  /** Rows that agree on [0, n) and are masked from n on attend to the same value. */
  lemma AttendRowPrefix(fns: RealFns, z: int -> Ext, v: int -> real, n: int,
                        z': int -> Ext, v': int -> real, n': int, guarded: bool)
    requires fns.Lawful() && n > 0 && PrefixOf(z, v, n, z', v', n')
    ensures AttendRow(fns, z, n, v, guarded) == AttendRow(fns, z', n', v', guarded)
  {
    MaxCong(z, z', 0, n);
    MaskedTail(fns, z', 0, n, n');
    if MaxOf(z, 0, n).Fin? {
      AttendPrefix(fns, z, v, n, z', v', n');
    }
  }

  /** Rows z and z' with their values agree on [0, n), and z' is masked up to n'. */
  ghost predicate PrefixOf(z: int -> Ext, v: int -> real, n: int, z': int -> Ext, v': int -> real, n': int) {
    && 0 <= n <= n'
    && (forall j | 0 <= j < n :: z(j) == z'(j) && v(j) == v'(j))
    && (forall j | n <= j < n' :: z'(j).NegInf?)
  }

  lemma PrefixMass(fns: RealFns, z: int -> Ext, v: int -> real, n: int, z': int -> Ext, v': int -> real, n': int)
    requires fns.Lawful() && PrefixOf(z, v, n, z', v', n')
    ensures SumExp(fns, z, 0.0, 0, n) == SumExp(fns, z', 0.0, 0, n')
  {
    SumCong(Weights(fns, z, 0.0), Weights(fns, z', 0.0), 0, n);
    MaskedTail(fns, z', 0, n, n');
  }

  lemma PrefixWeighted(fns: RealFns, z: int -> Ext, v: int -> real, n: int, z': int -> Ext, v': int -> real, n': int)
    requires fns.Lawful() && PrefixOf(z, v, n, z', v', n')
    ensures WeightedSum(fns, z, 0.0, v, 0, n) == WeightedSum(fns, z', 0.0, v', 0, n')
  {
    SumCong(WeightedTerms(fns, z, 0.0, v), WeightedTerms(fns, z', 0.0, v'), 0, n);
    SumSplit(WeightedTerms(fns, z', 0.0, v'), 0, n, n');
    SumZero(WeightedTerms(fns, z', 0.0, v'), n, n');
  }

  lemma AttendPrefix(fns: RealFns, z: int -> Ext, v: int -> real, n: int,
                     z': int -> Ext, v': int -> real, n': int)
    requires fns.Lawful() && PrefixOf(z, v, n, z', v', n')
    requires MaxOf(z, 0, n).Fin? && MaxOf(z', 0, n').Fin?
    ensures Attend(fns, z, n, v) == Attend(fns, z', n', v')
  {
    PrefixMass(fns, z, v, n, z', v', n');
    PrefixWeighted(fns, z, v, n, z', v', n');
    AttendQuotient(fns, z, n, v, 0.0);
    AttendQuotient(fns, z', n', v', 0.0);
  }

  // ----- the op on [heads][seq][dim] tensors -----------------------------------------------------

  datatype Result<+T> = Success(value: T) | Failure(error: AttentionError)

  datatype AttentionError = HeadsNotDivisible | QueryNotAligned

  type Head = seq<seq<real>>

  predicate IsHead(m: Head, s: nat, dim: nat) {
    |m| == s && forall i | 0 <= i < s :: |m[i]| == dim
  }

  /** A tensor with at least one head, all of one shape. */
  predicate IsTensor(t: seq<Head>, s: nat, dim: nat) {
    |t| > 0 && forall h | 0 <= h < |t| :: IsHead(t[h], s, dim)
  }

  function Elem(m: Head, i: int, d: int): real {
    if 0 <= i < |m| && 0 <= d < |m[i]| then m[i][d] else 0.0
  }

  function MatOf(m: Head): Mat { (i, d) => Elem(m, i, d) }

  function KeepAll(): int -> bool { j => true }

  function KeepMask(mask: seq<bool>): int -> bool { j => 0 <= j < |mask| && mask[j] }

  function KeepOf(mask: Option<seq<bool>>): int -> bool {
    if mask.Some? then KeepMask(mask.value) else KeepAll()
  }

  function RepeatHead(head: Head, r: nat): seq<Head>
  {
    seq(r, c => head)
  }

  /** torch.repeat_interleave along the head axis: each KV head's copies are adjacent. */
  function RepeatInterleave(t: seq<Head>, r: nat): (heads: seq<Head>)
    ensures |heads| == |t| * r
    decreases |t|
  {
    if |t| == 0 then [] else RepeatInterleave(t[..|t| - 1], r) + RepeatHead(t[|t| - 1], r)
  }

  /** Query head h reads KV head h / r. */
  lemma {:induction false} RepeatInterleaveAt(t: seq<Head>, r: nat, h: nat)
    requires r > 0 && h < |t| * r
    ensures 0 <= h / r < |t| && RepeatInterleave(t, r)[h] == t[h / r]
    decreases |t|
  {
    var front := t[..|t| - 1];
    assert |t| * r == |front| * r + r;
    if h < |front| * r {
      RepeatInterleaveAt(front, r, h);
    } else {
      EuclideanRest(h, r, |front|, h - |front| * r);
    }
  }

  function ExpandHeads(q: seq<Head>, t: seq<Head>): seq<Head>
    requires |t| > 0
  {
    if |t| != |q| then RepeatInterleave(t, |q| / |t|) else t
  }

  function ScaleOf(fns: RealFns, scale: Option<real>, dim: nat): real
    requires dim > 0 && fns.Lawful()
  {
    match scale
    case Some(x) => x
    case None => RootPositive(fns, dim); 1.0 / fns.sqrt(dim as real)
  }

  lemma RootPositive(fns: RealFns, dim: nat)
    requires dim > 0 && fns.Lawful()
    ensures fns.sqrt(dim as real) > 0.0
  {
    SqrtSquares(fns, dim as real);
  }

  /** The first column a causal mask hides from query i: torch.triu with diagonal skv - sq + 1. */
  function CausalLimit(causal: bool, sq: nat, skv: nat, i: int): int {
    if causal then i + skv - sq + 1 else skv
  }

  function AttendHead(fns: RealFns, q: Head, k: Head, v: Head, dim: nat, causal: bool, scale: real,
                      mask: Option<seq<bool>>): (out: seq<seq<Num>>)
    requires fns.Lawful()
    ensures |out| == |q| && forall i | 0 <= i < |q| :: |out[i]| == dim
  {
    seq(|q|, i => seq(dim, d =>
      AttendRow(fns,
                ScoreRow(MatOf(q), MatOf(k), dim, scale, i, CausalLimit(causal, |q|, |k|, i), KeepOf(mask)),
                |k|, Column(MatOf(v), d), mask.Some?)))
  }

  /** NativeAttentionOp._attention on one batch element. */
  function Forward(fns: RealFns, q: seq<Head>, k: seq<Head>, v: seq<Head>, dim: nat, causal: bool,
                   scale: Option<real>, mask: Option<seq<bool>>): Result<seq<seq<seq<Num>>>>
    requires fns.Lawful() && dim > 0
    requires |q| > 0 && |k| > 0 && |v| == |k|
  {
    if |q| % |k| != 0 then Failure(HeadsNotDivisible)
    else
      var kf, vf := ExpandHeads(q, k), ExpandHeads(q, v);
      ExpandHeadsAt(q, k, 0);
      ExpandHeadsAt(q, v, 0);
      Success(seq(|q|, h requires 0 <= h < |q| =>
        AttendHead(fns, q[h], kf[h], vf[h], dim, causal, ScaleOf(fns, scale, dim), mask)))
  }

  /** The KV head of query head h, h / (Hq / Hkv), when the heads divide. */
  function KvHead(hq: nat, hkv: nat, h: nat): nat {
    if hkv == 0 || hq / hkv == 0 then 0 else h / (hq / hkv)
  }

  lemma ExpandHeadsAt(q: seq<Head>, t: seq<Head>, h: nat)
    requires |t| > 0 && |q| % |t| == 0 && h < |q|
    ensures |ExpandHeads(q, t)| == |q|
    ensures KvHead(|q|, |t|, h) < |t| && ExpandHeads(q, t)[h] == t[KvHead(|q|, |t|, h)]
  {
    var r := |q| / |t|;
    assert |t| * r == |q|;
    if |t| == |q| {
      assert r == 1;
    } else {
      RepeatInterleaveAt(t, r, h);
    }
  }

  /** GQA: query head h attends to KV head h / g, where g = Hq / Hkv. */
  lemma ForwardHead(fns: RealFns, q: seq<Head>, k: seq<Head>, v: seq<Head>, dim: nat, causal: bool,
                    scale: Option<real>, mask: Option<seq<bool>>, h: nat)
    requires fns.Lawful() && dim > 0 && |q| > 0 && |k| > 0 && |v| == |k|
    requires |q| % |k| == 0 && h < |q|
    ensures KvHead(|q|, |k|, h) < |k|
    ensures var g := KvHead(|q|, |k|, h);
            Forward(fns, q, k, v, dim, causal, scale, mask).value[h]
            == AttendHead(fns, q[h], k[g], v[g], dim, causal, ScaleOf(fns, scale, dim), mask)
  {
    ExpandHeadsAt(q, k, h);
    ExpandHeadsAt(q, v, h);
  }
}
