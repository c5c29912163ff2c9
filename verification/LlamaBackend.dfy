/**
 `infer_batch_locked` itself: admission of each request to a sequence, chunked prefill, the
 bootstrap row, and lock-step generation, all through one buffer.

 A live sequence of the source is split in two records: `Sequence` holds what the admission
 loop sets once, `Progress` what the later stages update.
 */
module LlamaBackend {
  import opened Types
  import opened LlamaContext
  import opened Greedy

  datatype Sequence = Sequence(resultIndex: nat, seqId: nat, prompt: seq<Token>, maxOutput: nat)

  datatype Progress = Progress(nPast: nat, generated: nat, text: string, active: bool, logitsIndex: int)

  /** What one call has to do: the batch, and the sequences its admission loop opened. */
  datatype Plan = Plan(model: Model, cfg: ModelConfig, requests: seq<Request>, live: seq<Sequence>) {
    function Answer(i: nat): InferenceResult requires i < |requests| {
      Solo(model, cfg, requests[i])
    }

    function Tokens(i: nat): Option<seq<Token>> requires i < |requests| {
      model.tokenize(requests[i].prompt)
    }

    /** Sequence `s` is the one to answer its request. */
    ghost predicate Serves(s: Sequence) {
      && s.resultIndex < |requests| && s.prompt != [] && Tokens(s.resultIndex) == Some(s.prompt)
      && |s.prompt| + s.maxOutput <= cfg.contextTokens
      && Answer(s.resultIndex) == Generate(model, s.prompt, "", 0, s.maxOutput)
    }

    /** Sequence ids are indices, and every prompt fits the context. */
    ghost predicate Seated() {
      forall k | 0 <= k < |live| :: live[k].seqId == k && 1 <= |live[k].prompt| <= cfg.contextTokens
    }

    ghost predicate Valid() {
      && |live| <= |requests| && Seated()
      && (forall k | 0 <= k < |live| :: Serves(live[k]))
      && (forall j, k | 0 <= j < k < |live| :: live[j].resultIndex < live[k].resultIndex)
    }
  }

  ghost predicate Claimed(plan: Plan, ps: seq<Progress>, i: nat)
    requires |ps| == |plan.live|
  {
    exists k :: 0 <= k < |ps| && ps[k].active && plan.live[k].resultIndex == i
  }

  /** Every slot holds the answer of its request or belongs to a sequence still running. */
  ghost predicate Answered(plan: Plan, ps: seq<Progress>, results: seq<InferenceResult>) {
    && |ps| == |plan.live| && |results| == |plan.requests|
    && forall i | 0 <= i < |results| :: results[i] == plan.Answer(i) || Claimed(plan, ps, i)
  }

  /** Context plus buffer hold exactly the tokens `fed[k]`, from position 0 upwards. */
  ghost predicate Fed(cells: map<nat, seq<Cell>>, rows: seq<Row>, fed: seq<seq<Token>>) {
    forall k | 0 <= k < |fed| :: HistoryOf(cells, k) + Project(rows, k) == Cells(fed[k])
  }

  ghost predicate RowsWithin(rows: seq<Row>, contextTokens: nat) {
    forall i | 0 <= i < |rows| :: rows[i].pos < contextTokens
  }

  /** Adding the next token of one sequence to the buffer extends what it has been fed. */
  lemma FedSnoc(cells: map<nat, seq<Cell>>, rows: seq<Row>, fed: seq<seq<Token>>, j: nat, t: Token, logits: bool)
    requires Fed(cells, rows, fed) && j < |fed|
    ensures Fed(cells, rows + [Row(t, |fed[j]|, j, logits)], fed[j := fed[j] + [t]])
  {
    var row := Row(t, |fed[j]|, j, logits);
    var fed' := fed[j := fed[j] + [t]];
    forall k | 0 <= k < |fed'| ensures HistoryOf(cells, k) + Project(rows + [row], k) == Cells(fed'[k]) {
      ProjectSnoc(rows, row, k);
      assert HistoryOf(cells, k) + Project(rows, k) == Cells(fed[k]);
      if k == j {
        CellsSnoc(fed[j], t);
        assert HistoryOf(cells, j) + (Project(rows, j) + [Cell(|fed[j]|, t)]) == Cells(fed[j]) + [Cell(|fed[j]|, t)];
      } else {
        assert Project(rows, k) + [] == Project(rows, k);
      }
    }
  }

  /** A decode that succeeds moves the buffer into the context. */
  lemma FedDecoded(cells: map<nat, seq<Cell>>, rows: seq<Row>, fed: seq<seq<Token>>)
    requires Fed(cells, rows, fed)
    ensures Fed(Feed(cells, rows), [], fed)
  {
    forall k | 0 <= k < |fed| ensures HistoryOf(Feed(cells, rows), k) + Project([], k) == Cells(fed[k]) {
      FeedIsProject(cells, rows, k);
      assert HistoryOf(cells, k) + Project(rows, k) == Cells(fed[k]);
      assert HistoryOf(Feed(cells, rows), k) + [] == HistoryOf(Feed(cells, rows), k);
    }
  }

  // ----- admission of the requests to sequences (first loop) -----

  /** Why a request gets no sequence; `NoError` when it gets one. */
  function Refusal(m: Model, cfg: ModelConfig, r: Request): (code: ErrorCode)
    ensures code != NoError ==> Solo(m, cfg, r) == Failure(code)
    ensures code == NoError ==> m.tokenize(r.prompt).Some?
    ensures code == NoError ==> var tokens := m.tokenize(r.prompt).value;
                                tokens != [] && |tokens| + r.maxOutput <= cfg.contextTokens
                                    && Solo(m, cfg, r) == Generate(m, tokens, "", 0, r.maxOutput)
  {
    var tokens := m.tokenize(r.prompt);
    if tokens.None? then InferenceFailed
    else if |tokens.value| + r.maxOutput > cfg.contextTokens then ContextLengthExceeded
    else if tokens.value == [] then InferenceFailed
    else if !m.samplerInit(r) then InferenceFailed
    else NoError
  }

  const START := Progress(0, 0, "", true, -1)

  lemma ValidGrows(plan: Plan, s: Sequence)
    requires plan.Valid() && |plan.live| < |plan.requests| && plan.Serves(s) && s.seqId == |plan.live|
    requires forall k | 0 <= k < |plan.live| :: plan.live[k].resultIndex < s.resultIndex
    ensures plan.(live := plan.live + [s]).Valid()
  {
  }

  method Admit(model: Model, cfg: ModelConfig, requests: seq<Request>)
    returns (plan: Plan, ps: seq<Progress>, results: seq<InferenceResult>)
    ensures plan == Plan(model, cfg, requests, plan.live) && plan.Valid()
    ensures Answered(plan, ps, results) && forall k | 0 <= k < |ps| :: ps[k] == START
    ensures forall i | 0 <= i < |requests| && Refusal(model, cfg, requests[i]) == NoError :: Opened(plan.live, i)
  {
    plan := Plan(model, cfg, requests, []);
    results := seq(|requests|, _ => UNASSIGNED);
    for i := 0 to |requests|
      invariant |results| == |requests| && |plan.live| <= i
      invariant plan == Plan(model, cfg, requests, plan.live) && plan.Valid()
      invariant forall k | 0 <= k < |plan.live| :: plan.live[k].resultIndex < i
      invariant forall j | 0 <= j < i ::
                  if Refusal(model, cfg, requests[j]) == NoError then Opened(plan.live, j)
                      else results[j] == plan.Answer(j)
    {
      var r := requests[i];
      var code := Refusal(model, cfg, r);
      if code != NoError {
        results := results[i := Failure(code)];
      } else {
        var s := Sequence(i, |plan.live|, model.tokenize(r.prompt).value, r.maxOutput);
        ValidGrows(plan, s);
        OpenedGrows(plan.live, s);
        plan := plan.(live := plan.live + [s]);
      }
    }
    ps := seq(|plan.live|, _ => START);
    forall i | 0 <= i < |results| && results[i] != plan.Answer(i) ensures Claimed(plan, ps, i) {
      var k :| 0 <= k < |plan.live| && plan.live[k].resultIndex == i;
      assert ps[k].active;
    }
  }

  ghost predicate Opened(live: seq<Sequence>, i: nat) {
    exists k :: 0 <= k < |live| && live[k].resultIndex == i
  }

  lemma OpenedGrows(live: seq<Sequence>, s: Sequence)
    ensures Opened(live + [s], s.resultIndex)
    ensures forall i: nat :: Opened(live, i) ==> Opened(live + [s], i)
  {
    assert (live + [s])[|live|] == s;
    forall i: nat | Opened(live, i) ensures Opened(live + [s], i) {
      var k :| 0 <= k < |live| && live[k].resultIndex == i;
      assert (live + [s])[k] == live[k];
    }
  }

  // ----- prefix stage -----

  /** Only the tokens `fed`, never the last one of the prompt, have been handed over. */
  ghost predicate Prefilling(s: Sequence, p: Progress, fed: seq<Token>) {
    |fed| < |s.prompt| && fed == s.prompt[..|fed|] && p == START.(nPast := |fed|)
  }

  /** Prompt tokens the prefix stage has still to hand over. */
  ghost function Remaining(live: seq<Sequence>, ps: seq<Progress>): int
    requires |live| == |ps|
  {
    if live == [] then 0
    else Remaining(live[..|live| - 1], ps[..|ps| - 1]) + |live[|live| - 1].prompt| - 1 - ps[|ps| - 1].nPast
  }

  lemma {:induction false} RemainingDrops(live: seq<Sequence>, ps: seq<Progress>, k: nat)
    requires k < |live| == |ps|
    ensures Remaining(live, ps[k := ps[k].(nPast := ps[k].nPast + 1)]) == Remaining(live, ps) - 1
  {
    var n := |live| - 1;
    var p := ps[k].(nPast := ps[k].nPast + 1);
    if k == n {
      assert ps[k := p][..n] == ps[..n];
    } else {
      assert ps[k := p][..n] == ps[..n][k := p];
      RemainingDrops(live[..n], ps[..n], k);
    }
  }

  lemma {:induction false} RemainingNonNegative(live: seq<Sequence>, ps: seq<Progress>)
    requires |live| == |ps| && forall k | 0 <= k < |ps| :: ps[k].nPast < |live[k].prompt|
    ensures Remaining(live, ps) >= 0
  {
    if live != [] {
      RemainingNonNegative(live[..|live| - 1], ps[..|ps| - 1]);
    }
  }

  /** Context and buffer carry the prompt tokens handed over; the buffer took them from `todo`. */
  ghost predicate Packed(plan: Plan, todo: int, ps: seq<Progress>, fed: seq<seq<Token>>, cells: map<nat, seq<Cell>>,
                         rows: seq<Row>) {
    && |ps| == |plan.live| == |fed|
    && (forall k | 0 <= k < |ps| :: Prefilling(plan.live[k], ps[k], fed[k]))
    && Fed(cells, rows, fed)
    && RowsWithin(rows, plan.cfg.contextTokens)
    && Remaining(plan.live, ps) + |rows| == todo
  }

  lemma PrefillingNext(s: Sequence, p: Progress, fed: seq<Token>)
    requires Prefilling(s, p, fed) && p.nPast + 1 < |s.prompt|
    ensures Prefilling(s, p.(nPast := p.nPast + 1), fed + [s.prompt[p.nPast]])
  {
  }

  lemma PackedSnoc(plan: Plan, todo: int, ps: seq<Progress>, fed: seq<seq<Token>>, cells: map<nat, seq<Cell>>,
                   rows: seq<Row>, j: nat)
    requires plan.Seated() && Packed(plan, todo, ps, fed, cells, rows)
    requires j < |ps| && ps[j].nPast + 1 < |plan.live[j].prompt|
    ensures var p := ps[j]; var t := plan.live[j].prompt[p.nPast];
            Packed(plan, todo, ps[j := p.(nPast := p.nPast + 1)], fed[j := fed[j] + [t]], cells,
                rows + [Row(t, p.nPast, j, false)])
  {
    RemainingDrops(plan.live, ps, j);
    FedSnoc(cells, rows, fed, j, plan.live[j].prompt[ps[j].nPast], false);
    PrefillingNext(plan.live[j], ps[j], fed[j]);
  }

  /** Fill the buffer from one sequence until its last prompt token or the end of the buffer. */
  method PackSequence(plan: Plan, ghost todo: int, ps0: seq<Progress>, ghost fed0: seq<seq<Token>>,
                      j: nat, batch: Batch, ghost cells: map<nat, seq<Cell>>)
    returns (ps: seq<Progress>, full: bool, ghost fed: seq<seq<Token>>)
    requires plan.Seated() && batch.Valid() && j < |ps0|
    requires Packed(plan, todo, ps0, fed0, cells, batch.Contents())
    modifies batch, batch.rows
    ensures batch.Valid() && Packed(plan, todo, ps, fed, cells, batch.Contents())
    ensures forall k | 0 <= k < |ps| && k != j :: ps[k].nPast == ps0[k].nPast
    ensures batch.nTokens >= old(batch.nTokens)
    ensures if full then batch.nTokens == batch.rows.Length else ps[j].nPast + 1 == |plan.live[j].prompt|
  {
    ps, full, fed := ps0, false, fed0;
    var s := plan.live[j];
    while ps[j].nPast + 1 < |s.prompt|
      invariant batch.Valid() && Packed(plan, todo, ps, fed, cells, batch.Contents())
      invariant forall k | 0 <= k < |ps| && k != j :: ps[k].nPast == ps0[k].nPast
      invariant batch.nTokens >= old(batch.nTokens)
      decreases |s.prompt| - ps[j].nPast
    {
      if batch.nTokens >= batch.rows.Length {
        full := true;
        return;
      }
      var p := ps[j];
      PackedSnoc(plan, todo, ps, fed, cells, batch.Contents(), j);
      batch.Add(s.prompt[p.nPast], p.nPast, s.seqId, false);
      ps := ps[j := p.(nPast := p.nPast + 1)];
      fed := fed[j := fed[j] + [s.prompt[p.nPast]]];
    }
  }

  ghost predicate AllButLast(plan: Plan, ps: seq<Progress>, n: nat) {
    n <= |ps| == |plan.live| && forall k | 0 <= k < n :: ps[k].nPast + 1 == |plan.live[k].prompt|
  }

  /** One pass over the sequences: fill the buffer with prompt tokens, all but the last of each. */
  method PackPrefix(plan: Plan, ps0: seq<Progress>, ghost fed0: seq<seq<Token>>, batch: Batch,
                    ghost cells: map<nat, seq<Cell>>)
    returns (ps: seq<Progress>, more: bool, ghost fed: seq<seq<Token>>)
    requires plan.Seated() && batch.Valid() && batch.Contents() == [] && |ps0| == |plan.live|
    requires Packed(plan, Remaining(plan.live, ps0), ps0, fed0, cells, [])
    modifies batch, batch.rows
    ensures batch.Valid() && Packed(plan, Remaining(plan.live, ps0), ps, fed, cells, batch.Contents())
    ensures if more then batch.nTokens == batch.rows.Length else AllButLast(plan, ps, |ps|)
  {
    ps, more, fed := ps0, false, fed0;
    for j := 0 to |ps0|
      invariant batch.Valid() && Packed(plan, Remaining(plan.live, ps0), ps, fed, cells, batch.Contents())
      invariant if more then batch.nTokens == batch.rows.Length else AllButLast(plan, ps, j)
    {
      var full;
      ps, full, fed := PackSequence(plan, Remaining(plan.live, ps0), ps, fed, j, batch, cells);
      more := more || full;
    }
  }

  // ----- decode calls -----

  ghost predicate LogOk(cfg: ModelConfig, log: seq<seq<Row>>) {
    forall i | 0 <= i < |log| :: |log[i]| <= cfg.nBatch && RowsWithin(log[i], cfg.contextTokens)
  }

  ghost predicate Sent(log: seq<seq<Row>>, fed: seq<seq<Token>>) {
    forall k | 0 <= k < |fed| :: Project(Flat(log), k) == Cells(fed[k])
  }

  /** The context holds exactly the tokens `fed`, and they are exactly what the calls since `start` carried. */
  ghost predicate Synced(cfg: ModelConfig, ctx: Context, start: nat, fed: seq<seq<Token>>)
    reads ctx
  {
    start <= |ctx.decodes| && LogOk(cfg, ctx.decodes[start..]) && Fed(ctx.cells, [], fed)
        && Sent(ctx.decodes[start..], fed)
  }

  lemma SentNext(cells: map<nat, seq<Cell>>, log: seq<seq<Row>>, rows: seq<Row>, fed0: seq<seq<Token>>,
                 fed: seq<seq<Token>>)
    requires |fed0| == |fed| && Fed(cells, [], fed0) && Fed(cells, rows, fed) && Sent(log, fed0)
    ensures Sent(log + [rows], fed)
  {
    FlatSnoc(log, rows);
    forall k | 0 <= k < |fed| ensures Project(Flat(log + [rows]), k) == Cells(fed[k]) {
      ProjectConcat(Flat(log), rows, k);
      assert HistoryOf(cells, k) + Project([], k) == Cells(fed0[k]);
      assert HistoryOf(cells, k) + [] == HistoryOf(cells, k);
      assert HistoryOf(cells, k) + Project(rows, k) == Cells(fed[k]);
    }
  }

  method Submit(cfg: ModelConfig, ctx: Context, rows: seq<Row>, ghost start: nat, ghost fed0: seq<seq<Token>>,
                ghost fed: seq<seq<Token>>)
    returns (ok: bool)
    requires Synced(cfg, ctx, start, fed0)
    requires |rows| <= cfg.nBatch && RowsWithin(rows, cfg.contextTokens)
    requires |fed0| == |fed| && Fed(ctx.cells, rows, fed)
    modifies ctx
    ensures start <= |ctx.decodes| && LogOk(cfg, ctx.decodes[start..])
    ensures ctx.failures == old(ctx.failures) + (if ok then 0 else 1)
    ensures ok ==> Synced(cfg, ctx, start, fed)
    ensures ok ==> forall i | 0 <= i < |rows| && rows[i].logits ::
                     i in ctx.outputs && ctx.outputs[i] == HistoryOf(Feed(old(ctx.cells), rows[..i + 1]), rows[i].seqId)
  {
    ghost var log := ctx.decodes[start..];
    SentNext(ctx.cells, log, rows, fed0, fed);
    FedDecoded(ctx.cells, rows, fed);
    ok := ctx.Decode(rows);
    assert ctx.decodes[start..] == log + [rows];
  }

  /** One buffer of prompt tokens: packed, and decoded unless there was nothing left to pack. */
  method PrefixRound(plan: Plan, ps0: seq<Progress>, ghost fed0: seq<seq<Token>>, batch: Batch, ctx: Context,
                     ghost start: nat)
    returns (ps: seq<Progress>, more: bool, ok: bool, ghost fed: seq<seq<Token>>)
    requires plan.Seated() && batch.Valid() && 1 <= batch.rows.Length == plan.cfg.nBatch && |ps0| == |plan.live|
    requires Packed(plan, Remaining(plan.live, ps0), ps0, fed0, ctx.cells, []) && Synced(plan.cfg, ctx, start, fed0)
    modifies batch, batch.rows, ctx
    ensures batch.Valid() && start <= |ctx.decodes| && LogOk(plan.cfg, ctx.decodes[start..])
    ensures ctx.failures == old(ctx.failures) + (if ok then 0 else 1)
    ensures |ps| == |plan.live| == |fed| && forall k | 0 <= k < |ps| :: Prefilling(plan.live[k], ps[k], fed[k])
    ensures ok ==> Packed(plan, Remaining(plan.live, ps), ps, fed, ctx.cells, []) && Synced(plan.cfg, ctx, start, fed)
    ensures 0 <= Remaining(plan.live, ps) <= Remaining(plan.live, ps0)
    ensures (ok && more ==> Remaining(plan.live, ps) < Remaining(plan.live, ps0))
    ensures ok && !more ==> AllButLast(plan, ps, |ps|)
  {
    batch.Clear();
    ps, more, fed := PackPrefix(plan, ps0, fed0, batch, ctx.cells);
    RemainingNonNegative(plan.live, ps);
    ok := true;
    if batch.nTokens == 0 {
      more := false;
    } else {
      ok := Submit(plan.cfg, ctx, batch.Contents(), start, fed0, fed);
    }
  }

  method PrefixStage(plan: Plan, ps0: seq<Progress>, ghost fed0: seq<seq<Token>>, batch: Batch, ctx: Context,
                     ghost start: nat)
    returns (ps: seq<Progress>, ok: bool, ghost fed: seq<seq<Token>>)
    requires plan.Seated() && batch.Valid() && 1 <= batch.rows.Length == plan.cfg.nBatch && |ps0| == |plan.live|
    requires Packed(plan, Remaining(plan.live, ps0), ps0, fed0, ctx.cells, []) && Synced(plan.cfg, ctx, start, fed0)
    modifies batch, batch.rows, ctx
    ensures batch.Valid() && start <= |ctx.decodes| && LogOk(plan.cfg, ctx.decodes[start..])
    ensures ctx.failures == old(ctx.failures) + (if ok then 0 else 1)
    ensures |ps| == |plan.live| == |fed| && forall k | 0 <= k < |ps| :: Prefilling(plan.live[k], ps[k], fed[k])
    ensures ok ==> Synced(plan.cfg, ctx, start, fed) && AllButLast(plan, ps, |ps|)
  {
    ps, fed := ps0, fed0;
    var more := true;
    RemainingNonNegative(plan.live, ps);
    while more
      invariant batch.Valid() && |ps| == |plan.live| && Packed(plan, Remaining(plan.live, ps), ps, fed, ctx.cells, [])
      invariant Synced(plan.cfg, ctx, start, fed) && ctx.failures == old(ctx.failures)
      invariant more || AllButLast(plan, ps, |ps|)
      invariant Remaining(plan.live, ps) >= 0
      decreases Remaining(plan.live, ps), more
    {
      ps, more, ok, fed := PrefixRound(plan, ps, fed, batch, ctx, start);
      if !ok {
        return;
      }
    }
    ok := true;
  }

  // ----- bootstrap row and generation -----

  /** The buffer holds one row, asking for logits, for each running sequence below `n`. */
  ghost predicate Aligned(rows: seq<Row>, ps: seq<Progress>, n: nat)
    requires n <= |ps|
  {
    && (forall i | 0 <= i < |rows| ::
        rows[i].logits && rows[i].seqId < n && ps[rows[i].seqId].active && ps[rows[i].seqId].logitsIndex == i)
    && (forall k | 0 <= k < n && ps[k].active :: 0 <= ps[k].logitsIndex < |rows| && rows[ps[k].logitsIndex].seqId == k)
  }

  lemma AlignedSnoc(rows: seq<Row>, ps: seq<Progress>, k: nat, p: Progress, t: Token, pos: nat)
    requires k < |ps| && Aligned(rows, ps, k) && p.active && p.logitsIndex == |rows|
    ensures Aligned(rows + [Row(t, pos, k, true)], ps[k := p], k + 1)
  {
  }

  lemma AlignedSkip(rows: seq<Row>, ps: seq<Progress>, k: nat, p: Progress)
    requires k < |ps| && Aligned(rows, ps, k) && !p.active
    ensures Aligned(rows, ps[k := p], k + 1)
  {
  }

  /** The logits row a running sequence points at was computed from its own tokens and no others. */
  ghost predicate Primed(outputs: map<nat, seq<Cell>>, ps: seq<Progress>, fed: seq<seq<Token>>, from: nat)
    requires |ps| == |fed|
  {
    forall k | from <= k < |ps| && ps[k].active ::
      ps[k].logitsIndex >= 0 && ps[k].logitsIndex in outputs && outputs[ps[k].logitsIndex] == Cells(fed[k])
  }

  lemma AlignedRowSeesOwnTokens(cells: map<nat, seq<Cell>>, rows: seq<Row>, ps: seq<Progress>, fed: seq<seq<Token>>,
                                k: nat)
    requires |ps| == |fed| && Aligned(rows, ps, |ps|) && Fed(cells, rows, fed) && k < |ps| && ps[k].active
    ensures HistoryOf(Feed(cells, rows[..ps[k].logitsIndex + 1]), k) == Cells(fed[k])
  {
    SoleRow(cells, rows, ps[k].logitsIndex);
    assert HistoryOf(cells, k) + Project(rows, k) == Cells(fed[k]);
  }

  /** Submit one row for each running sequence; afterwards each finds its own logits. */
  method SubmitAligned(cfg: ModelConfig, ctx: Context, rows: seq<Row>, ghost start: nat, ghost ps: seq<Progress>,
                       ghost fed0: seq<seq<Token>>, ghost fed: seq<seq<Token>>)
    returns (ok: bool)
    requires Synced(cfg, ctx, start, fed0)
    requires |rows| <= cfg.nBatch && RowsWithin(rows, cfg.contextTokens)
    requires |fed0| == |fed| == |ps| && Fed(ctx.cells, rows, fed) && Aligned(rows, ps, |ps|)
    modifies ctx
    ensures start <= |ctx.decodes| && LogOk(cfg, ctx.decodes[start..])
    ensures ctx.failures == old(ctx.failures) + (if ok then 0 else 1)
    ensures ok ==> Synced(cfg, ctx, start, fed) && Primed(ctx.outputs, ps, fed, 0)
  {
    ghost var cells := ctx.cells;
    ok := Submit(cfg, ctx, rows, start, fed0, fed);
    if ok {
      forall k | 0 <= k < |ps| && ps[k].active
        ensures ps[k].logitsIndex in ctx.outputs && ctx.outputs[ps[k].logitsIndex] == Cells(fed[k])
      {
        AlignedRowSeesOwnTokens(cells, rows, ps, fed, k);
      }
    }
  }

  /** Before sequence `j` of the bootstrap: earlier ones have handed over the whole prompt. */
  ghost predicate Booting(plan: Plan, ps: seq<Progress>, fed: seq<seq<Token>>, cells: map<nat, seq<Cell>>,
                          rows: seq<Row>, j: nat) {
    && j <= |ps| == |plan.live| == |fed| && |rows| == j
    && (forall k | 0 <= k < |ps| :: ps[k] == START.(nPast := |fed[k]|, logitsIndex := ps[k].logitsIndex))
    && (forall k | 0 <= k < |ps| && plan.live[k].prompt != [] ::
          fed[k] == if k < j then plan.live[k].prompt else plan.live[k].prompt[..|plan.live[k].prompt| - 1])
    && Fed(cells, rows, fed) && Aligned(rows, ps, j) && RowsWithin(rows, plan.cfg.contextTokens)
  }

  lemma BootingNext(plan: Plan, ps: seq<Progress>, fed: seq<seq<Token>>, cells: map<nat, seq<Cell>>, rows: seq<Row>,
                    j: nat)
    requires plan.Seated() && Booting(plan, ps, fed, cells, rows, j) && j < |ps|
    ensures var p := ps[j]; var last := plan.live[j].prompt[|plan.live[j].prompt| - 1];
            Booting(plan, ps[j := p.(logitsIndex := j, nPast := p.nPast + 1)], fed[j := fed[j] + [last]], cells,
                    rows + [Row(last, p.nPast, j, true)], j + 1)
  {
    var p := ps[j];
    var prompt := plan.live[j].prompt;
    var last := prompt[|prompt| - 1];
    AlignedSnoc(rows, ps, j, p.(logitsIndex := j, nPast := p.nPast + 1), last, p.nPast);
    FedSnoc(cells, rows, fed, j, last, true);
    assert fed[j] + [last] == prompt;
  }

  method BootOne(plan: Plan, ps0: seq<Progress>, ghost fed0: seq<seq<Token>>, batch: Batch,
                 ghost cells: map<nat, seq<Cell>>, j: nat)
    returns (ps: seq<Progress>, ghost fed: seq<seq<Token>>)
    requires plan.Seated() && batch.Valid() && j < |ps0| <= batch.rows.Length
    requires Booting(plan, ps0, fed0, cells, batch.Contents(), j)
    modifies batch, batch.rows
    ensures batch.Valid() && |ps| == |ps0| && Booting(plan, ps, fed, cells, batch.Contents(), j + 1)
  {
    var p := ps0[j];
    var last := plan.live[j].prompt[|plan.live[j].prompt| - 1];
    assert batch.nTokens == j;
    BootingNext(plan, ps0, fed0, cells, batch.Contents(), j);
    ps := ps0[j := p.(logitsIndex := batch.nTokens, nPast := p.nPast + 1)];
    batch.Add(last, p.nPast, plan.live[j].seqId, true);
    fed := fed0[j := fed0[j] + [last]];
  }

  method Bootstrap(plan: Plan, ps0: seq<Progress>, ghost fed0: seq<seq<Token>>, batch: Batch,
                   ghost cells: map<nat, seq<Cell>>)
    returns (ps: seq<Progress>, ghost fed: seq<seq<Token>>)
    requires plan.Seated() && batch.Valid() && batch.Contents() == [] && |ps0| <= batch.rows.Length
    requires Booting(plan, ps0, fed0, cells, [], 0)
    modifies batch, batch.rows
    ensures batch.Valid() && Booting(plan, ps, fed, cells, batch.Contents(), |ps|)
  {
    ps, fed := ps0, fed0;
    for j := 0 to |ps0|
      invariant batch.Valid() && |ps| == |ps0| && Booting(plan, ps, fed, cells, batch.Contents(), j)
    {
      ps, fed := BootOne(plan, ps, fed, batch, cells, j);
    }
  }

  /** Continuing a running sequence alone from the tokens `fed` gives the answer of its request. */
  ghost predicate OnTrack(plan: Plan, s: Sequence, p: Progress, fed: seq<Token>) {
    && s.prompt <= fed && s.resultIndex < |plan.requests|
    && (p.active ==>
      && p.nPast == |fed| == |s.prompt| + p.generated
      && (p.generated == 0 || p.generated < s.maxOutput)
      && Generate(plan.model, fed, p.text, p.generated, s.maxOutput) == plan.Answer(s.resultIndex))
  }

  datatype Outcome = Finished(result: InferenceResult) | Continues(next: Progress, token: Token)

  /** One sampling step of one sequence from the cells its logits were computed from. */
  function Sample(m: Model, s: Sequence, p: Progress, seen: seq<Cell>): Outcome {
    var id := m.sample(seen);
    if m.isEog(id) then Finished(Success(p.text, p.generated))
    else
      match m.piece(id)
      case None => Finished(Failure(InferenceFailed))
      case Some(piece) =>
        if p.generated + 1 >= s.maxOutput then Finished(Success(p.text + piece, p.generated + 1))
        else Continues(p.(text := p.text + piece, generated := p.generated + 1), id)
  }

  /** Sampling from one's own tokens yields the answer or stays on track for it. */
  lemma SampleOnTrack(plan: Plan, s: Sequence, p: Progress, fed: seq<Token>, logitsIndex: int)
    requires p.active && OnTrack(plan, s, p, fed)
    ensures match Sample(plan.model, s, p, Cells(fed))
            case Finished(result) => result == plan.Answer(s.resultIndex)
            case Continues(next, token) =>
              && next == p.(text := next.text, generated := p.generated + 1)
              && OnTrack(plan, s, next.(logitsIndex := logitsIndex, nPast := next.nPast + 1), fed + [token])
  {
  }

  /** Finishing one sequence with its answer keeps every slot answered or claimed. */
  lemma AnsweredFinish(plan: Plan, ps: seq<Progress>, results: seq<InferenceResult>, k: nat)
    requires plan.Valid() && Answered(plan, ps, results) && k < |ps|
    ensures var i := plan.live[k].resultIndex;
            Answered(plan, ps[k := ps[k].(active := false)], results[i := plan.Answer(i)])
  {
    var ps' := ps[k := ps[k].(active := false)];
    forall i | 0 <= i < |results| && i != plan.live[k].resultIndex && Claimed(plan, ps, i)
        ensures Claimed(plan, ps', i) {
      var c :| 0 <= c < |ps| && ps[c].active && plan.live[c].resultIndex == i;
      assert ps'[c] == ps[c];
    }
  }

  lemma AnsweredSame(plan: Plan, ps: seq<Progress>, ps': seq<Progress>, results: seq<InferenceResult>)
    requires Answered(plan, ps, results) && |ps'| == |ps| && forall k | 0 <= k < |ps| :: ps'[k].active == ps[k].active
    ensures Answered(plan, ps', results)
  {
    forall i | 0 <= i < |results| && Claimed(plan, ps, i) ensures Claimed(plan, ps', i) {
      var c :| 0 <= c < |ps| && ps[c].active && plan.live[c].resultIndex == i;
      assert ps'[c].active;
    }
  }

  /** Before sequence `j` of a generation round: earlier running sequences have queued one token more. */
  ghost predicate Rounding(plan: Plan, round: nat, ps: seq<Progress>, fed: seq<seq<Token>>, cells: map<nat, seq<Cell>>,
                           rows: seq<Row>, j: nat) {
    && j <= |ps| == |plan.live| == |fed| && |rows| <= j
    && (forall k | 0 <= k < |ps| :: OnTrack(plan, plan.live[k], ps[k], fed[k]))
    && (forall k | 0 <= k < |ps| && ps[k].active :: ps[k].generated == if k < j then round + 1 else round)
    && Fed(cells, rows, fed) && Aligned(rows, ps, j) && RowsWithin(rows, plan.cfg.contextTokens)
  }

  lemma RoundSkips(plan: Plan, round: nat, ps: seq<Progress>, fed: seq<seq<Token>>, cells: map<nat, seq<Cell>>,
                   rows: seq<Row>, j: nat)
    requires Rounding(plan, round, ps, fed, cells, rows, j) && j < |ps|
    ensures Rounding(plan, round, ps[j := ps[j].(active := false)], fed, cells, rows, j + 1)
  {
    AlignedSkip(rows, ps, j, ps[j].(active := false));
  }

  lemma RoundQueues(plan: Plan, round: nat, ps: seq<Progress>, fed: seq<seq<Token>>, cells: map<nat, seq<Cell>>,
                    rows: seq<Row>, j: nat,
                    p: Progress, t: Token)
    requires plan.Valid() && Rounding(plan, round, ps, fed, cells, rows, j) && j < |ps| && ps[j].active
    requires p.active && p.generated == round + 1 && p.logitsIndex == |rows|
    requires OnTrack(plan, plan.live[j], p, fed[j] + [t])
    ensures Rounding(plan, round, ps[j := p], fed[j := fed[j] + [t]], cells, rows + [Row(t, ps[j].nPast, j, true)],
        j + 1)
  {
    AlignedSnoc(rows, ps, j, p, t, ps[j].nPast);
    FedSnoc(cells, rows, fed, j, t, true);
    assert plan.Serves(plan.live[j]);
  }

  /** The turn of one running sequence in a round: finish it, or queue its next token. */
  method SampleOne(plan: Plan, ghost round: nat, ps0: seq<Progress>, ghost fed0: seq<seq<Token>>,
                   results0: seq<InferenceResult>, j: nat, batch: Batch, ctx: Context)
    returns (ps: seq<Progress>, results: seq<InferenceResult>, ghost fed: seq<seq<Token>>)
    requires plan.Valid() && batch.Valid() && j < |ps0| <= batch.rows.Length && ps0[j].active
    requires Rounding(plan, round, ps0, fed0, ctx.cells, batch.Contents(), j)
    requires ps0[j].logitsIndex >= 0 && ps0[j].logitsIndex in ctx.outputs
    requires ctx.outputs[ps0[j].logitsIndex] == Cells(fed0[j])
    requires Answered(plan, ps0, results0)
    modifies batch, batch.rows
    ensures batch.Valid() && Rounding(plan, round, ps, fed, ctx.cells, batch.Contents(), j + 1)
    ensures ps == ps0[j := ps[j]] && fed == fed0[j := fed[j]]
    ensures batch.nTokens == old(batch.nTokens) + (if ps[j].active then 1 else 0)
    ensures Answered(plan, ps, results)
  {
    ps, results, fed := ps0, results0, fed0;
    var s, p := plan.live[j], ps[j];
    SampleOnTrack(plan, s, p, fed[j], batch.nTokens);
    match Sample(plan.model, s, p, ctx.outputs[p.logitsIndex])
    case Finished(result) =>
      RoundSkips(plan, round, ps, fed, ctx.cells, batch.Contents(), j);
      AnsweredFinish(plan, ps, results, j);
      ps := ps[j := p.(active := false)];
      results := results[s.resultIndex := result];
    case Continues(next, id) =>
      var p' := next.(logitsIndex := batch.nTokens, nPast := next.nPast + 1);
      RoundQueues(plan, round, ps, fed, ctx.cells, batch.Contents(), j, p', id);
      AnsweredSame(plan, ps, ps[j := p'], results);
      batch.Add(id, p.nPast, s.seqId, true);
      ps := ps[j := p'];
      fed := fed[j := fed[j] + [id]];
  }

  /** One round: sample every running sequence from its own logits, finish it or queue its token. */
  method SampleRound(plan: Plan, ghost round: nat, ps0: seq<Progress>, ghost fed0: seq<seq<Token>>,
                     results0: seq<InferenceResult>,
                     batch: Batch, ctx: Context)
    returns (ps: seq<Progress>, results: seq<InferenceResult>, any: bool, ghost fed: seq<seq<Token>>)
    requires plan.Valid() && batch.Valid() && batch.Contents() == [] && |ps0| <= batch.rows.Length
    requires Rounding(plan, round, ps0, fed0, ctx.cells, [], 0) && Primed(ctx.outputs, ps0, fed0, 0)
    requires Answered(plan, ps0, results0)
    modifies batch, batch.rows
    ensures batch.Valid() && Rounding(plan, round, ps, fed, ctx.cells, batch.Contents(), |ps|)
    ensures Answered(plan, ps, results)
    ensures any <==> batch.nTokens > 0
  {
    ps, results, any, fed := ps0, results0, false, fed0;
    for j := 0 to |ps0|
      invariant batch.Valid() && |ps| == |ps0| && Rounding(plan, round, ps, fed, ctx.cells, batch.Contents(), j)
      invariant Primed(ctx.outputs, ps, fed, j) && Answered(plan, ps, results)
      invariant any <==> batch.nTokens > 0
    {
      if ps[j].active {
        ps, results, fed := SampleOne(plan, round, ps, fed, results, j, batch, ctx);
        any := any || ps[j].active;
      } else {
        RoundSkips(plan, round, ps, fed, ctx.cells, batch.Contents(), j);
        assert ps[j := ps[j].(active := false)] == ps;
      }
    }
  }

  /** A failed decode fails every sequence still running and leaves finished answers alone. */
  method FailLive(plan: Plan, ps: seq<Progress>, results0: seq<InferenceResult>) returns (results: seq<InferenceResult>)
    requires plan.Valid() && Answered(plan, ps, results0)
    ensures |results| == |plan.requests|
    ensures forall i | 0 <= i < |results| :: results[i] == if Claimed(plan, ps, i) then Failure(InferenceFailed)
        else plan.Answer(i)
  {
    results := results0;
    for k := 0 to |ps|
      invariant |results| == |plan.requests|
      invariant forall j | 0 <= j < k && ps[j].active :: results[plan.live[j].resultIndex] == Failure(InferenceFailed)
      invariant forall i | 0 <= i < |results| ::
          results[i] == results0[i] || (Claimed(plan, ps, i) && results[i] == Failure(InferenceFailed))
    {
      if ps[k].active {
        results := results[plan.live[k].resultIndex := Failure(InferenceFailed)];
      }
    }
  }

  /** Generation until no sequence is running. */
  method GenerationLoop(plan: Plan, ps0: seq<Progress>, ghost fed0: seq<seq<Token>>, results0: seq<InferenceResult>,
                        batch: Batch, ctx: Context, ghost start: nat)
    returns (results: seq<InferenceResult>, ok: bool, ghost fed: seq<seq<Token>>)
    requires plan.Valid() && batch.Valid() && |ps0| <= batch.rows.Length == plan.cfg.nBatch
    requires Rounding(plan, 0, ps0, fed0, ctx.cells, [], 0) && Primed(ctx.outputs, ps0, fed0, 0)
    requires Answered(plan, ps0, results0) && Synced(plan.cfg, ctx, start, fed0)
    modifies batch, batch.rows, ctx
    ensures start <= |ctx.decodes| && LogOk(plan.cfg, ctx.decodes[start..])
    ensures ctx.failures == old(ctx.failures) + (if ok then 0 else 1)
    ensures |results| == |plan.requests|
    ensures forall i | 0 <= i < |results| ::
        results[i] == plan.Answer(i) || (!ok && results[i] == Failure(InferenceFailed))
    ensures |fed| == |plan.live| && forall k | 0 <= k < |fed| :: plan.live[k].prompt <= fed[k]
    ensures ok ==> Synced(plan.cfg, ctx, start, fed)
  {
    var ps := ps0;
    results, fed := results0, fed0;
    ghost var round := 0;
    while true
      invariant batch.Valid() && Rounding(plan, round, ps, fed, ctx.cells, [], 0) && Primed(ctx.outputs, ps, fed, 0)
      invariant Answered(plan, ps, results) && Synced(plan.cfg, ctx, start, fed)
      invariant ctx.failures == old(ctx.failures) && round <= plan.cfg.contextTokens
      decreases plan.cfg.contextTokens - round
    {
      batch.Clear();
      var any;
      ghost var fed1 := fed;
      ps, results, any, fed := SampleRound(plan, round, ps, fed, results, batch, ctx);
      if !any {
        fed := fed1;
        ok := true;
        return;
      }
      ok := SubmitAligned(plan.cfg, ctx, batch.Contents(), start, ps, fed1, fed);
      if !ok {
        results := FailLive(plan, ps, results);
        return;
      }
      assert ps[batch.Contents()[0].seqId].active;
      assert plan.Serves(plan.live[batch.Contents()[0].seqId]);
      round := round + 1;
    }
  }

  /** Prefill, bootstrap and generation for the sequences admitted. */
  method Decoding(plan: Plan, ps0: seq<Progress>, results0: seq<InferenceResult>, ctx: Context)
    returns (results: seq<InferenceResult>, ghost fed: seq<seq<Token>>)
    requires plan.Valid() && Answered(plan, ps0, results0) && forall k | 0 <= k < |ps0| :: ps0[k] == START
    requires |plan.live| <= plan.cfg.nBatch && 1 <= plan.cfg.nBatch && ctx.cells == map[]
    modifies ctx
    ensures |ctx.decodes| >= |old(ctx.decodes)| && LogOk(plan.cfg, ctx.decodes[|old(ctx.decodes)|..])
    ensures ctx.failures >= old(ctx.failures) && |results| == |plan.requests|
    ensures forall i | 0 <= i < |results| ::
              results[i] == plan.Answer(i) || (ctx.failures > old(ctx.failures)
                  && results[i] == Failure(InferenceFailed))
    ensures |fed| == |plan.live|
    ensures ctx.failures == old(ctx.failures) ==>
              && Sent(ctx.decodes[|old(ctx.decodes)|..], fed)
              && forall k | 0 <= k < |fed| :: plan.live[k].prompt <= fed[k]
  {
    ghost var start := |ctx.decodes|;
    fed := seq(|plan.live|, _ => []);
    assert ctx.decodes[start..] == [];
    assert Packed(plan, Remaining(plan.live, ps0), ps0, fed, ctx.cells, []);
    if plan.live == [] {
      results := results0;
      return;
    }
    var batch := new Batch(plan.cfg.nBatch);
    var ps, ok;
    ps, ok, fed := PrefixStage(plan, ps0, fed, batch, ctx, start);
    AnsweredSame(plan, ps0, ps, results0);
    if !ok {
      results := FailLive(plan, ps, results0);
      return;
    }
    results, fed := BootAndGenerate(plan, ps, fed, results0, batch, ctx, start);
  }

  method BootAndGenerate(plan: Plan, ps0: seq<Progress>, ghost fed0: seq<seq<Token>>, results0: seq<InferenceResult>,
                         batch: Batch, ctx: Context, ghost start: nat)
    returns (results: seq<InferenceResult>, ghost fed: seq<seq<Token>>)
    requires plan.Valid() && plan.live != [] && batch.Valid() && |plan.live| <= batch.rows.Length == plan.cfg.nBatch
    requires |ps0| == |plan.live| == |fed0| && AllButLast(plan, ps0, |ps0|)
    requires forall k | 0 <= k < |ps0| :: Prefilling(plan.live[k], ps0[k], fed0[k])
    requires Answered(plan, ps0, results0) && Synced(plan.cfg, ctx, start, fed0)
    modifies ctx, batch, batch.rows
    ensures start <= |ctx.decodes| && LogOk(plan.cfg, ctx.decodes[start..])
    ensures ctx.failures >= old(ctx.failures) && |results| == |plan.requests| && |fed| == |plan.live|
    ensures forall i | 0 <= i < |results| ::
              results[i] == plan.Answer(i) || (ctx.failures > old(ctx.failures)
                  && results[i] == Failure(InferenceFailed))
    ensures ctx.failures == old(ctx.failures) ==> Sent(ctx.decodes[start..], fed) && forall k | 0 <= k < |fed| ::
        plan.live[k].prompt <= fed[k]
  {
    batch.Clear();
    var ps;
    ps, fed := Bootstrap(plan, ps0, fed0, batch, ctx.cells);
    AnsweredSame(plan, ps0, ps, results0);
    var ok := SubmitAligned(plan.cfg, ctx, batch.Contents(), start, ps, fed0, fed);
    if !ok {
      results := FailLive(plan, ps, results0);
      return;
    }
    assert Rounding(plan, 0, ps, fed, ctx.cells, [], 0) by { RoundStarts(plan, ps, fed, ctx.cells); }
    results, ok, fed := GenerationLoop(plan, ps, fed, results0, batch, ctx, start);
  }

  lemma RoundStarts(plan: Plan, ps: seq<Progress>, fed: seq<seq<Token>>, cells: map<nat, seq<Cell>>)
    requires plan.Valid() && |ps| == |plan.live| == |fed| && Fed(cells, [], fed)
    requires forall k | 0 <= k < |ps| ::
        ps[k] == START.(nPast := |fed[k]|, logitsIndex := ps[k].logitsIndex) && fed[k] == plan.live[k].prompt
    ensures Rounding(plan, 0, ps, fed, cells, [], 0)
  {
    forall k | 0 <= k < |ps| ensures OnTrack(plan, plan.live[k], ps[k], fed[k]) {
      assert plan.Serves(plan.live[k]);
    }
  }

  // ----- the backend -----

  datatype LoadedModel = LoadedModel(cfg: ModelConfig, model: Model, context: Context)

  /** Sequence `k` belongs to request `owner[k]` and submitted its whole prompt first; every request
      that is not refused owns a sequence, and only one. */
  ghost predicate CarriesPrompts(m: LoadedModel, requests: seq<Request>, fed: seq<seq<Token>>, owner: seq<nat>) {
    && |owner| == |fed| && (forall j, k | 0 <= j < k < |owner| :: owner[j] < owner[k])
    && (forall k | 0 <= k < |owner| :: owner[k] < |requests| && Begins(m, requests[owner[k]], fed[k]))
    && (forall i | 0 <= i < |requests| && Refusal(m.model, m.cfg, requests[i]) == NoError :: i in owner)
  }

  ghost predicate Begins(m: LoadedModel, r: Request, fed: seq<Token>) {
    m.model.tokenize(r.prompt).Some? && m.model.tokenize(r.prompt).value <= fed
  }

  ghost function Owners(plan: Plan): seq<nat> {
    seq(|plan.live|, k requires 0 <= k < |plan.live| => plan.live[k].resultIndex)
  }

  lemma PromptsCarried(m: LoadedModel, plan: Plan, fed: seq<seq<Token>>)
    requires plan.Valid() && plan.model == m.model && plan.cfg == m.cfg && |fed| == |plan.live|
    requires forall k | 0 <= k < |fed| :: plan.live[k].prompt <= fed[k]
    requires forall i | 0 <= i < |plan.requests| && Refusal(m.model, m.cfg, plan.requests[i]) == NoError ::
        Opened(plan.live, i)
    ensures CarriesPrompts(m, plan.requests, fed, Owners(plan))
  {
    var owner := Owners(plan);
    forall k | 0 <= k < |owner| ensures owner[k] < |plan.requests| && Begins(m, plan.requests[owner[k]], fed[k]) {
      assert plan.Serves(plan.live[k]);
    }
    forall i | 0 <= i < |plan.requests| && Refusal(m.model, m.cfg, plan.requests[i]) == NoError ensures i in owner {
      assert Opened(plan.live, i);
      var k :| 0 <= k < |plan.live| && plan.live[k].resultIndex == i;
      assert owner[k] == i;
    }
  }

  lemma AllRight(m: LoadedModel, requests: seq<Request>, results: seq<InferenceResult>)
    requires |results| == |requests|
    ensures forall i | 0 <= i < |results| && results[i] == Solo(m.model, m.cfg, requests[i]) ::
              Right(m.model, m.cfg, requests[i], results[i])
  {
    forall i | 0 <= i < |results| && results[i] == Solo(m.model, m.cfg, requests[i])
      ensures Right(m.model, m.cfg, requests[i], results[i])
    {
      SoloIsRight(m.model, m.cfg, requests[i]);
    }
  }

  class LlamaCppBackend {
    const config: Config
    var loaded: map<string, LoadedModel>

    ghost predicate Valid() reads this {
      && Validate(config) == NoError
      && forall id | id in loaded :: id in config.models && loaded[id].cfg == config.models[id]
    }

    constructor (config: Config)
      requires Validate(config) == NoError
      ensures Valid() && this.config == config && loaded == map[]
    {
      this.config := config;
      loaded := map[];
    }

    /** Why a whole batch is refused before any sequence is opened. */
    function BatchFault(requests: seq<Request>): ErrorCode
      reads this
      requires requests != []
    {
      if exists i :: 0 <= i < |requests| && requests[i].modelId != requests[0].modelId then InternalError
      else if |requests| > config.maxSequences then InternalError
      else if requests[0].modelId !in loaded then InferenceFailed
      else NoError
    }

    /** The batch gives, index by index, what each request gives alone, unless a decode call failed. */
    method InferBatch(requests: seq<Request>) returns (results: seq<InferenceResult>, ghost fed: seq<seq<Token>>,
                      ghost owner: seq<nat>)
      requires Valid()
      modifies set id | id in loaded :: loaded[id].context
      ensures |results| == |requests|
      ensures requests != [] && BatchFault(requests) != NoError ==> forall i | 0 <= i < |results| ::
          results[i] == Failure(BatchFault(requests))
      // what is wrong with a batch
      ensures requests != [] ==> (BatchFault(requests) == NoError <==>
                && (forall i | 0 <= i < |requests| :: requests[i].modelId == requests[0].modelId)
                && |requests| <= config.maxSequences && requests[0].modelId in loaded)
      ensures requests != [] && BatchFault(requests) == NoError ==>
                var m := loaded[requests[0].modelId];
                var log := m.context.decodes;
                && m.context.failures >= old(m.context.failures)
                // batch transparency
                && (m.context.failures == old(m.context.failures) ==>
                      forall i | 0 <= i < |results| :: results[i] == Solo(m.model, m.cfg, requests[i]))
                && (m.context.failures == old(m.context.failures) ==>
                      forall i | 0 <= i < |results| :: Right(m.model, m.cfg, requests[i], results[i]))
                // a failed decode is the only other source of a result
                && (forall i | 0 <= i < |results| ::
                    results[i] == Solo(m.model, m.cfg, requests[i]) || results[i] == Failure(InferenceFailed))
                // packing
                && |log| >= |old(m.context.decodes)| && LogOk(m.cfg, log[|old(m.context.decodes)|..])
                && (m.context.failures == old(m.context.failures) ==>
                      Sent(log[|old(m.context.decodes)|..], fed) && CarriesPrompts(m, requests, fed, owner))
                && m.context.cells == map[]
    {
      fed, owner := [], [];
      results := [];
      if requests == [] {
        return;
      }
      var fault := BatchFault(requests);
      if fault != NoError {
        results := seq(|requests|, _ => Failure(fault));
        return;
      }
      var m := loaded[requests[0].modelId];
      m.context.ClearMemory();
      var plan, ps;
      plan, ps, results := Admit(m.model, m.cfg, requests);
      ghost var before := m.context.failures;
      results, fed := Decoding(plan, ps, results, m.context);
      AllRight(m, requests, results);
      if m.context.failures == before {
        PromptsCarried(m, plan, fed);
        owner := Owners(plan);
      }
      m.context.ClearMemory();
    }

    /** A single request is a batch of one. */
    method Infer(request: Request) returns (result: InferenceResult)
      requires Valid()
      modifies set id | id in loaded :: loaded[id].context
      ensures request.modelId in loaded ==>
                var m := loaded[request.modelId];
                && (m.context.failures == old(m.context.failures) ==>
                      result == Solo(m.model, m.cfg, request) && Right(m.model, m.cfg, request, result))
                && (result == Solo(m.model, m.cfg, request) || result == Failure(InferenceFailed))
      ensures request.modelId !in loaded ==> result == Failure(InferenceFailed)
    {
      var results;
      ghost var fed, owner;
      results, fed, owner := InferBatch([request]);
      result := results[0];
    }
  }
}
