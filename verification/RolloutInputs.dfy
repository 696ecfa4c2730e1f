/** Dense scoring inputs built from a payload, the reference scorer, and the rows handed back. */
module RolloutInputs {
  import opened Integers
  import opened Options
  import opened RolloutPayload

  datatype BuildConfig = BuildConfig(promptLen: Option<int>, promptToken: int, limit: Option<int>)

  /** How one batch is laid out; `fixed` when the caller chose the prompt length. */
  datatype Layout = Layout(promptLen: nat, completionLen: nat, fixed: bool, pad: int)

  // ----- what is built ---------------------------------------------------------------------------

  function RecordsOf(p: Payload): seq<Record> { Flat(GroupsIn(p, RecordOf)) }

  function TokensOf(records: seq<Record>): seq<seq<int>> {
    seq(|records|, r requires 0 <= r < |records| => records[r].tokens)
  }

  function PromptsOf(records: seq<Record>): seq<seq<int>> {
    seq(|records|, r requires 0 <= r < |records| => records[r].prompt)
  }

  function Longest(lists: seq<seq<int>>): nat {
    if |lists| == 0 then 0
    else
      var front, last := Longest(lists[..|lists| - 1]), |lists[|lists| - 1]|;
      if last > front then last else front
  }

  lemma {:induction false} LongestCovers(lists: seq<seq<int>>, r: nat)
    requires r < |lists|
    ensures |lists[r]| <= Longest(lists)
    decreases |lists|
  {
    if r < |lists| - 1 {
      LongestCovers(lists[..|lists| - 1], r);
    }
  }

  predicate Accepted(cfg: BuildConfig) {
    && (cfg.promptLen.Some? ==> cfg.promptLen.value >= 0)
    && (cfg.limit.Some? ==> cfg.limit.value > 0)
  }

  function CompletionLen(records: seq<Record>, cfg: BuildConfig): nat
    requires Accepted(cfg)
  {
    var longest := Longest(TokensOf(records));
    MaxInt(1, if cfg.limit.Some? then MinInt(longest, cfg.limit.value) else longest)
  }

  function PromptLen(records: seq<Record>, cfg: BuildConfig): nat
    requires Accepted(cfg)
  {
    if cfg.promptLen.Some? then cfg.promptLen.value else Longest(PromptsOf(records))
  }

  function LayoutOf(records: seq<Record>, cfg: BuildConfig): Layout
    requires Accepted(cfg)
  {
    Layout(PromptLen(records, cfg), CompletionLen(records, cfg), cfg.promptLen.Some?, cfg.promptToken)
  }

  /** How many tokens of a row are kept. */
  function Kept(record: Record, completionLen: nat): nat { MinInt(|record.tokens|, completionLen) }

  /** The columns of one row: the prompt padded on the right to `promptLen`, then the kept tokens. */
  function IdAt(record: Record, promptLen: nat, completionLen: nat, pad: int, j: nat): int {
    if j < promptLen then (if j < |record.prompt| then record.prompt[j] else pad)
    else if j - promptLen < Kept(record, completionLen) then record.tokens[j - promptLen]
    else pad
  }

  predicate ActiveAt(record: Record, promptLen: nat, completionLen: nat, j: nat) {
    promptLen <= j < promptLen + Kept(record, completionLen)
  }

  /** A fixed prompt length marks all its columns; a resolved one marks each row's own prompt. */
  predicate AttendedAt(record: Record, promptLen: nat, completionLen: nat, fixed: bool, j: nat) {
    if j < promptLen then fixed || j < |record.prompt| else ActiveAt(record, promptLen, completionLen, j)
  }

  // ----- what a row says -------------------------------------------------------------------------

  /** A resolved prompt length is that of the longest prompt. */
  lemma PromptLenIsLongest(records: seq<Record>, cfg: BuildConfig)
    requires Accepted(cfg) && cfg.promptLen.None? && |records| > 0
    ensures forall r | 0 <= r < |records| :: |records[r].prompt| <= PromptLen(records, cfg)
    ensures exists r :: 0 <= r < |records| && |records[r].prompt| == PromptLen(records, cfg)
  {
    forall r | 0 <= r < |records| ensures |records[r].prompt| <= PromptLen(records, cfg) {
      LongestCovers(PromptsOf(records), r);
      assert PromptsOf(records)[r] == records[r].prompt;
    }
    var r := LongestAttained(PromptsOf(records));
    assert PromptsOf(records)[r] == records[r].prompt;
  }

  lemma {:induction false} LongestAttained(lists: seq<seq<int>>) returns (r: nat)
    requires |lists| > 0
    ensures r < |lists| && |lists[r]| == Longest(lists)
    decreases |lists|
  {
    if Longest(lists) == |lists[|lists| - 1]| {
      r := |lists| - 1;
    } else {
      r := LongestAttained(lists[..|lists| - 1]);
    }
  }

  /** The completion length holds every row up to the limit, and is no longer than it has to be. */
  lemma CompletionLenIsLongest(records: seq<Record>, cfg: BuildConfig)
    requires Accepted(cfg)
    ensures CompletionLen(records, cfg) >= 1
    ensures forall r | 0 <= r < |records| ::
      |records[r].tokens| <= CompletionLen(records, cfg) || cfg.limit == Some(CompletionLen(records, cfg))
    ensures cfg.limit.Some? ==> CompletionLen(records, cfg) <= cfg.limit.value
    ensures CompletionLen(records, cfg) > 1 ==>
      exists r :: 0 <= r < |records| && |records[r].tokens| >= CompletionLen(records, cfg)
  {
    forall r | 0 <= r < |records| ensures |records[r].tokens| <= Longest(TokensOf(records)) {
      LongestCovers(TokensOf(records), r);
      assert TokensOf(records)[r] == records[r].tokens;
    }
    if CompletionLen(records, cfg) > 1 {
      var r := LongestAttained(TokensOf(records));
      assert TokensOf(records)[r] == records[r].tokens;
    }
  }

  /** The ids of a row in order. */
  function RowIds(record: Record, l: Layout): seq<int> {
    seq(l.promptLen + l.completionLen, j requires 0 <= j => IdAt(record, l.promptLen, l.completionLen, l.pad, j))
  }

  function Pads(l: Layout, n: nat): seq<int> { seq(n, _ => l.pad) }

  /** A row is its prompt, cut or padded on the right to the prompt length, and then its tokens, cut or padded on
      the right to the completion length. */
  lemma RowIsConcatenation(record: Record, l: Layout)
    ensures var shown, kept := MinInt(|record.prompt|, l.promptLen), MinInt(|record.tokens|, l.completionLen);
            RowIds(record, l) == record.prompt[..shown] + Pads(l, l.promptLen - shown)
                                 + record.tokens[..kept] + Pads(l, l.completionLen - kept)
  {
  }

  /** The ids of the first n columns that are attended. */
  function AttendedIds(record: Record, l: Layout, n: nat): seq<int> {
    if n == 0 then []
    else if AttendedAt(record, l.promptLen, l.completionLen, l.fixed, n - 1) then
      AttendedIds(record, l, n - 1) + [IdAt(record, l.promptLen, l.completionLen, l.pad, n - 1)]
    else AttendedIds(record, l, n - 1)
  }

  /** With a resolved prompt length, attending skips the padding: the attended ids of a row are its prompt followed
      by its kept tokens. */
  lemma AttendedIsSequence(record: Record, l: Layout)
    requires !l.fixed && |record.prompt| <= l.promptLen
    ensures AttendedIds(record, l, l.promptLen + l.completionLen)
         == record.prompt + record.tokens[..MinInt(|record.tokens|, l.completionLen)]
  {
    AttendedPrefix(record, l, l.promptLen + l.completionLen);
  }

  lemma {:induction false} AttendedPrefix(record: Record, l: Layout, n: nat)
    requires !l.fixed && |record.prompt| <= l.promptLen && n <= l.promptLen + l.completionLen
    ensures AttendedIds(record, l, n)
         == record.prompt[..MinInt(|record.prompt|, n)]
            + record.tokens[..MaxInt(0, MinInt(n - l.promptLen, MinInt(|record.tokens|, l.completionLen)))]
    decreases n
  {
    if n > 0 {
      AttendedPrefix(record, l, n - 1);
    }
  }

  // ----- building --------------------------------------------------------------------------------

  method MaxLength(lists: seq<seq<int>>) returns (n: nat)
    ensures n == Longest(lists)
  {
    n := 0;
    for r := 0 to |lists|
      invariant n == Longest(lists[..r])
    {
      assert lists[..r + 1][..r] == lists[..r];
      if |lists[r]| > n {
        n := |lists[r]|;
      }
    }
    assert lists[..|lists|] == lists;
  }

  /** The three tensors of one scoring batch. */
  datatype Inputs = Inputs(ids: array2<int>, attention: array2<bool>, completion: array2<bool>)

  ghost predicate Shaped(x: Inputs, rows: nat, columns: nat) {
    && x.attention != x.completion
    && x.ids.Length0 == x.attention.Length0 == x.completion.Length0 == rows
    && x.ids.Length1 == x.attention.Length1 == x.completion.Length1 == columns
  }

  ghost predicate RowBuilt(x: Inputs, l: Layout, record: Record, r: nat)
    requires Shaped(x, x.ids.Length0, l.promptLen + l.completionLen) && r < x.ids.Length0
    reads x.ids, x.attention, x.completion
  {
    forall j | 0 <= j < l.promptLen + l.completionLen ::
      && x.ids[r, j] == IdAt(record, l.promptLen, l.completionLen, l.pad, j)
      && x.attention[r, j] == AttendedAt(record, l.promptLen, l.completionLen, l.fixed, j)
      && x.completion[r, j] == ActiveAt(record, l.promptLen, l.completionLen, j)
  }

  ghost predicate RowBlank(x: Inputs, l: Layout, r: nat)
    requires Shaped(x, x.ids.Length0, l.promptLen + l.completionLen) && r < x.ids.Length0
    reads x.ids, x.attention, x.completion
  {
    forall j | 0 <= j < l.promptLen + l.completionLen ::
      x.ids[r, j] == l.pad && x.attention[r, j] == (l.fixed && j < l.promptLen) && !x.completion[r, j]
  }

  ghost predicate AllBuilt(x: Inputs, l: Layout, records: seq<Record>)
    reads x.ids, x.attention, x.completion
  {
    && Shaped(x, |records|, l.promptLen + l.completionLen)
    && forall r | 0 <= r < |records| :: RowBuilt(x, l, records[r], r)
  }

  function Ones(n: nat): seq<bool> { seq(n, _ => true) }

  /** tensor[r, start:start + len(values)] = values */
  method WriteSlice<T>(a: array2<T>, r: nat, start: nat, values: seq<T>)
    requires r < a.Length0 && start + |values| <= a.Length1
    modifies a
    ensures forall i, j | 0 <= i < a.Length0 && 0 <= j < a.Length1 ::
              a[i, j] == if i == r && start <= j < start + |values| then values[j - start] else old(a[i, j])
  {
    forall j | start <= j < start + |values| {
      a[r, j] := values[j - start];
    }
  }

  /** One row's slices: its prompt, then its completion. */
  method WriteRow(x: Inputs, l: Layout, record: Record, r: nat)
    requires Shaped(x, x.ids.Length0, l.promptLen + l.completionLen) && r < x.ids.Length0 && RowBlank(x, l, r)
    modifies x.ids, x.attention, x.completion
    ensures RowBuilt(x, l, record, r)
    ensures forall i, j | 0 <= i < x.ids.Length0 && 0 <= j < x.ids.Length1 :: i != r ==>
              x.ids[i, j] == old(x.ids[i, j]) && x.attention[i, j] == old(x.attention[i, j])
                  && x.completion[i, j] == old(x.completion[i, j])
  {
    WritePrompt(x, l, record, r);
    var kept := Kept(record, l.completionLen);
    WriteSlice(x.ids, r, l.promptLen, record.tokens[..kept]);
    WriteSlice(x.attention, r, l.promptLen, Ones(kept));
    WriteSlice(x.completion, r, l.promptLen, Ones(kept));
  }

  /** The prompt's slices of a blank row. */
  method WritePrompt(x: Inputs, l: Layout, record: Record, r: nat)
    requires Shaped(x, x.ids.Length0, l.promptLen + l.completionLen) && r < x.ids.Length0 && RowBlank(x, l, r)
    modifies x.ids, x.attention
    ensures forall i, j | 0 <= i < x.ids.Length0 && 0 <= j < x.ids.Length1 ::
              x.ids[i, j] == (if i == r && j < l.promptLen && j < |record.prompt| then record.prompt[j]
                              else old(x.ids[i, j]))
    ensures forall i, j | 0 <= i < x.ids.Length0 && 0 <= j < x.ids.Length1 ::
              x.attention[i, j] == (if i == r && j < l.promptLen && j < |record.prompt| then true
                                    else old(x.attention[i, j]))
  {
    var shown := MinInt(|record.prompt|, l.promptLen);
    WriteSlice(x.ids, r, 0, record.prompt[..shown]);
    if !l.fixed {
      WriteSlice(x.attention, r, 0, Ones(shown));
    }
  }

  /** Allocates the tensors and fills them row by row; `active` says whether any completion token was written. */
  method FillRows(records: seq<Record>, l: Layout) returns (x: Inputs, active: bool)
    ensures AllBuilt(x, l, records)
    ensures !active ==> forall r | 0 <= r < |records| :: records[r].tokens == []
  {
    var columns := l.promptLen + l.completionLen;
    var ids := new int[|records|, columns]((r, j) => l.pad);
    var attention := new bool[|records|, columns]((r, j) => l.fixed && j < l.promptLen);
    var completion := new bool[|records|, columns]((r, j) => false);
    x := Inputs(ids, attention, completion);
    active := false;
    for r := 0 to |records|
      invariant Shaped(x, |records|, columns)
      invariant forall i | 0 <= i < r :: RowBuilt(x, l, records[i], i)
      invariant forall i | r <= i < |records| :: RowBlank(x, l, i)
      invariant !active ==> forall i | 0 <= i < r :: records[i].tokens == []
    {
      label before:
      WriteRow(x, l, records[r], r);
      forall i | r < i < |records|
        ensures RowBlank(x, l, i)
      {
        assert old@before(RowBlank(x, l, i));
      }
      active := active || records[r].tokens != [];
    }
  }

  datatype BuildOutcome =
    | Built(inputs: Inputs, layout: Layout) | BadPromptLen | BadLimit | NoCandidates | NoActiveTokens

  /** build_stateless_inputs_from_rollout_payload */
  method Build(p: Payload, cfg: BuildConfig) returns (outcome: BuildOutcome)
    ensures
      if cfg.promptLen.Some? && cfg.promptLen.value < 0 then outcome.BadPromptLen?
      else if cfg.limit.Some? && cfg.limit.value <= 0 then outcome.BadLimit?
      else if RecordsOf(p) == [] then outcome.NoCandidates?
      else if outcome.NoActiveTokens? then forall r | 0 <= r < |RecordsOf(p)| :: RecordsOf(p)[r].tokens == []
      else
        && outcome.Built? && outcome.layout == LayoutOf(RecordsOf(p), cfg)
        && AllBuilt(outcome.inputs, outcome.layout, RecordsOf(p))
  {
    if cfg.promptLen.Some? && cfg.promptLen.value < 0 {
      return BadPromptLen;
    }
    if cfg.limit.Some? && cfg.limit.value <= 0 {
      return BadLimit;
    }
    var groups := Extract(p, RecordOf);
    var records := Flatten(groups);
    if records == [] {
      return NoCandidates;
    }
    var completionLen := MaxLength(TokensOf(records));
    if cfg.limit.Some? && cfg.limit.value < completionLen {
      completionLen := cfg.limit.value;
    }
    if completionLen < 1 {
      completionLen := 1;
    }
    var promptLen := MaxLength(PromptsOf(records));
    if cfg.promptLen.Some? {
      promptLen := cfg.promptLen.value;
    }
    var layout := Layout(promptLen, completionLen, cfg.promptLen.Some?, cfg.promptToken);
    var inputs, active := FillRows(records, layout);
    outcome := if active then Built(inputs, layout) else NoActiveTokens;
  }

  // ----- scoring ---------------------------------------------------------------------------------

  predicate SameSize(a: array2<int>, b: array2<int>) { a.Length0 == b.Length0 && a.Length1 == b.Length1 }

  /** score_reference_logprobs; `logp(row, position, token)` is the log-softmax of the logits at a position.
      Column j is scored by the logits before it, at the label there, which is the input id when no labels are
      given. */
  method ScoreReference(ids: array2<int>, labels: Option<array2<int>>, completion: array2<bool>,
                        logp: (int, int, int) -> real) returns (ok: bool, result: array2<real>)
    requires ids.Length0 == completion.Length0 && ids.Length1 == completion.Length1
    ensures ok <==>
      && (labels.Some? ==> SameSize(labels.value, ids))
      && (ids.Length1 == 0 || forall r | 0 <= r < ids.Length0 :: !completion[r, 0])
    ensures ok ==> result.Length0 == ids.Length0 && result.Length1 == ids.Length1
    ensures ok ==> forall r, j | 0 <= r < ids.Length0 && 0 <= j < ids.Length1 ::
                     result[r, j]
                     == if !completion[r, j] then 0.0
                        else logp(r, j - 1, if labels.Some? then labels.value[r, j] else ids[r, j])
  {
    ok := true;
    result := new real[0, 0];
    var targets := if labels.Some? then labels.value else ids;
    if !SameSize(targets, ids) {
      return false, result;
    }
    if ids.Length1 > 0 {
      for r := 0 to ids.Length0
        invariant forall i | 0 <= i < r :: !completion[i, 0]
      {
        if completion[r, 0] {
          return false, result;
        }
      }
    }
    result := new real[ids.Length0, ids.Length1]((r, j) => 0.0);
    forall r, j | 0 <= r < ids.Length0 && 1 <= j < ids.Length1 {
      result[r, j] := if completion[r, j] then logp(r, j - 1, targets[r, j]) else 0.0;
    }
  }

  /** The logps of one row: token t scored at column promptLen + t, from the logits before it. */
  function LogpRow(record: Record, promptLen: nat, completionLen: nat, logp: (int, int, int) -> real, r: nat):
      seq<real>
  {
    seq(Kept(record, completionLen), t requires 0 <= t < |record.tokens| =>
      logp(r, promptLen + t - 1, record.tokens[t]))
  }

  /** Reads the active values of every row. */
  method ActiveRows(result: array2<real>, completion: array2<bool>, records: seq<Record>, promptLen: nat,
                    completionLen: nat, pad: int, logp: (int, int, int) -> real) returns (rows: seq<seq<real>>)
    requires result.Length0 == completion.Length0 == |records|
    requires result.Length1 == completion.Length1 == promptLen + completionLen
    requires forall r, j | 0 <= r < |records| && 0 <= j < result.Length1 ::
        completion[r, j] == ActiveAt(records[r], promptLen, completionLen, j)
    requires forall r, j | 0 <= r < |records| && 0 <= j < result.Length1 && completion[r, j] ::
               result[r, j] == logp(r, j - 1, IdAt(records[r], promptLen, completionLen, pad, j))
    ensures |rows| == |records| && forall r | 0 <= r < |records| ::
        rows[r] == LogpRow(records[r], promptLen, completionLen, logp, r)
  {
    rows := [];
    for r := 0 to |records|
      invariant |rows| == r
      invariant forall i | 0 <= i < r :: rows[i] == LogpRow(records[i], promptLen, completionLen, logp, i)
    {
      var values: seq<real> := [];
      ghost var full := LogpRow(records[r], promptLen, completionLen, logp, r);
      for j := 0 to result.Length1
        invariant values == full[..MaxInt(0, MinInt(j - promptLen, |full|))]
      {
        if completion[r, j] {
          values := values + [result[r, j]];
        }
      }
      rows := rows + [values];
    }
  }
}
