/**
 The multi-sequence decode of the llama backend (`infer_batch_locked`).

 Several requests share one token buffer, one context and one decode call per step. The
 foreign library is an oracle: what it computes for a row of the buffer depends only on the
 cells (position and token) that the row's own sequence has been fed so far. `Solo` is the
 reference: one request, no buffer, no positions, no row indices. The batch method is proved
 to return at every index exactly what `Solo` says for the request at that index.
 */
module LlamaContext {
  import opened Types

  type Token = int

  datatype Request = Request(modelId: string, prompt: string, maxOutput: nat)

  /** What the context remembers of one submitted token. */
  datatype Cell = Cell(pos: nat, token: Token)

  /** One row of the shared token buffer. */
  datatype Row = Row(token: Token, pos: nat, seqId: nat, logits: bool)

  /** The foreign library: tokeniser, sampler creation, greedy sampling, vocabulary. */
  datatype Model = Model(
    tokenize: string -> Option<seq<Token>>,
    samplerInit: Request -> bool,
    sample: seq<Cell> -> Token,
    isEog: Token -> bool,
    piece: Token -> Option<string>)

  datatype ModelConfig = ModelConfig(
    ggufPath: string, contextTokens: nat, nBatch: nat, nUbatch: nat,
    nThreads: Option<int>, nThreadsBatch: Option<int>)

  datatype Config = Config(models: map<string, ModelConfig>, maxSequences: nat)

  predicate ModelConfigOk(id: string, m: ModelConfig, maxSequences: nat) {
    && id != "" && m.ggufPath != ""
    && m.contextTokens != 0 && m.nBatch != 0 && m.nUbatch != 0
    && m.nUbatch <= m.nBatch && m.nBatch >= maxSequences
    && (m.nThreads.Some? ==> m.nThreads.value > 0)
    && (m.nThreadsBatch.Some? ==> m.nThreadsBatch.value > 0)
  }

  /** Every error of the configuration check carries the same code, so the order of the models
      is not visible in the status. */
  function Validate(c: Config): (status: ErrorCode)
    ensures status == NoError ==> c.maxSequences >= 1 && forall id | id in c.models ::
        c.models[id].nBatch >= c.maxSequences
  {
    if c.maxSequences < 1 || c.models == map[] then InternalError
    else if forall id | id in c.models :: ModelConfigOk(id, c.models[id], c.maxSequences) then NoError
    else InternalError
  }

  // ----- the reference: one request on its own -----

  /** The cells of a sequence fed from position 0 upwards, each token once. */
  function Cells(tokens: seq<Token>): seq<Cell> {
    seq(|tokens|, i requires 0 <= i < |tokens| => Cell(i, tokens[i]))
  }

  /** Greedy generation after the tokens `fed` have been submitted. */
  function Generate(m: Model, fed: seq<Token>, text: string, generated: nat, maxOutput: nat): InferenceResult
    decreases if generated < maxOutput then maxOutput - generated else 0
  {
    var id := m.sample(Cells(fed));
    if m.isEog(id) then Success(text, generated)
    else
      match m.piece(id)
      case None => Failure(InferenceFailed)
      case Some(p) =>
        if generated + 1 >= maxOutput then Success(text + p, generated + 1)
        else Generate(m, fed + [id], text + p, generated + 1, maxOutput)
  }

  /** What a request yields when it runs alone. */
  function Solo(m: Model, cfg: ModelConfig, r: Request): InferenceResult {
    match m.tokenize(r.prompt)
    case None => Failure(InferenceFailed)
    case Some(tokens) =>
      if |tokens| + r.maxOutput > cfg.contextTokens then Failure(ContextLengthExceeded)
      else if tokens == [] then Failure(InferenceFailed)
      else if !m.samplerInit(r) then Failure(InferenceFailed)
      else Generate(m, tokens, "", 0, r.maxOutput)
  }

  /** A limit of at least one token is kept; it is tested after each token that has been produced. */
  lemma {:induction false} GeneratedWithinLimit(m: Model, fed: seq<Token>, text: string, generated: nat, maxOutput: nat)
    requires generated < maxOutput
    ensures var r := Generate(m, fed, text, generated, maxOutput);
            r.output.Some? ==>
              r.Ok() && generated <= r.output.value.outputTokens <= maxOutput && text <= r.output.value.text
    decreases maxOutput - generated
  {
    var id := m.sample(Cells(fed));
    if !m.isEog(id) && m.piece(id).Some? && generated + 1 < maxOutput {
      GeneratedWithinLimit(m, fed + [id], text + m.piece(id).value, generated + 1, maxOutput);
    }
  }

  lemma SoloWithinLimit(m: Model, cfg: ModelConfig, r: Request)
    ensures var s := Solo(m, cfg, r);
            && (s.output.Some? && r.maxOutput >= 1 ==> s.output.value.outputTokens <= r.maxOutput)
            && (s.output.Some? && r.maxOutput == 0 ==> s.output.value.outputTokens <= 1)
            && (s.output.Some? <==> s.Ok())
  {
    if m.tokenize(r.prompt).Some? && r.maxOutput >= 1 {
      GeneratedWithinLimit(m, m.tokenize(r.prompt).value, "", 0, r.maxOutput);
      GenerateOkIffOutput(m, m.tokenize(r.prompt).value, "", 0, r.maxOutput);
    }
  }

  lemma {:induction false} GenerateOkIffOutput(m: Model, fed: seq<Token>, text: string, generated: nat, maxOutput: nat)
    ensures var r := Generate(m, fed, text, generated, maxOutput); r.output.Some? <==> r.Ok()
    decreases if generated < maxOutput then maxOutput - generated else 0
  {
    var id := m.sample(Cells(fed));
    if !m.isEog(id) && m.piece(id).Some? && generated + 1 < maxOutput {
      GenerateOkIffOutput(m, fed + [id], text + m.piece(id).value, generated + 1, maxOutput);
    }
  }

  predicate LimitKept(s: InferenceResult, r: Request) {
    s.output.Some? ==> s.output.value.outputTokens <= r.maxOutput
  }

  /** The request is given a sequence and its first sample is a token with text. */
  predicate FirstTokenComes(m: Model, cfg: ModelConfig, r: Request) {
    && m.tokenize(r.prompt).Some?
    && var tokens := m.tokenize(r.prompt).value;
    && tokens != [] && |tokens| + r.maxOutput <= cfg.contextTokens && m.samplerInit(r)
    && var id := m.sample(Cells(tokens)); !m.isEog(id) && m.piece(id).Some?
  }

  /** With a limit of zero, one token comes out exactly when the first sample gives one, and otherwise none. */
  lemma ZeroLimitYields(m: Model, cfg: ModelConfig, r: Request)
    requires r.maxOutput == 0
    ensures var s := Solo(m, cfg, r);
            s.output.Some? ==> s.output.value.outputTokens == if FirstTokenComes(m, cfg, r) then 1 else 0
    ensures FirstTokenComes(m, cfg, r) ==> Solo(m, cfg, r).output.Some?
  {
  }

  /** One request on one model keeps its limit unless the limit is zero and a first token comes. */
  lemma LimitKeptIff(m: Model, cfg: ModelConfig, r: Request)
    ensures LimitKept(Solo(m, cfg, r), r) <==> r.maxOutput >= 1 || !FirstTokenComes(m, cfg, r)
  {
    SoloWithinLimit(m, cfg, r);
    if r.maxOutput == 0 {
      ZeroLimitYields(m, cfg, r);
    }
  }

  /** A limit of zero is broken by some model, whatever the prompt. */
  lemma ZeroLimitCanYieldOneToken(r: Request)
    requires r.maxOutput == 0
    ensures exists m: Model, cfg: ModelConfig :: Solo(m, cfg, r) == Success("x", 1) && !LimitKept(Solo(m, cfg, r), r)
  {
    var m := Model(_ => Some([7]), _ => true, _ => 3, _ => false, _ => Some("x"));
    var cfg := ModelConfig("p", 10, 1, 1, None, None);
    assert "" + "x" == "x";
    assert Solo(m, cfg, r) == Success("x", 1);
  }

  /** A limit is kept on every model exactly when it is at least one token. */
  lemma LimitAlwaysKeptIff(r: Request)
    ensures (forall m: Model, cfg: ModelConfig :: LimitKept(Solo(m, cfg, r), r)) <==> r.maxOutput >= 1
  {
    if r.maxOutput >= 1 {
      forall m: Model, cfg: ModelConfig ensures LimitKept(Solo(m, cfg, r), r) {
        LimitKeptIff(m, cfg, r);
      }
    } else {
      ZeroLimitCanYieldOneToken(r);
    }
  }

  // ----- what the context does with a buffer -----

  function HistoryOf(cells: map<nat, seq<Cell>>, id: nat): seq<Cell> {
    if id in cells then cells[id] else []
  }

  /** A decode call appends every row to the history of its sequence, in buffer order. */
  function Feed(cells: map<nat, seq<Cell>>, rows: seq<Row>): map<nat, seq<Cell>> {
    if rows == [] then cells
    else
      var before := Feed(cells, rows[..|rows| - 1]);
      var r := rows[|rows| - 1];
      before[r.seqId := HistoryOf(before, r.seqId) + [Cell(r.pos, r.token)]]
  }

  /** The cells the buffer carries for one sequence. */
  function Project(rows: seq<Row>, id: nat): seq<Cell> {
    if rows == [] then []
    else
      var before := Project(rows[..|rows| - 1], id);
      var r := rows[|rows| - 1];
      if r.seqId == id then before + [Cell(r.pos, r.token)] else before
  }

  lemma {:induction false} FeedIsProject(cells: map<nat, seq<Cell>>, rows: seq<Row>, id: nat)
    ensures HistoryOf(Feed(cells, rows), id) == HistoryOf(cells, id) + Project(rows, id)
  {
    if rows != [] {
      FeedIsProject(cells, rows[..|rows| - 1], id);
    }
  }

  lemma ProjectSnoc(rows: seq<Row>, r: Row, id: nat)
    ensures Project(rows + [r], id) == Project(rows, id) + (if r.seqId == id then [Cell(r.pos, r.token)] else [])
  {
    assert (rows + [r])[..|rows|] == rows;
  }

  lemma {:induction false} ProjectConcat(a: seq<Row>, b: seq<Row>, id: nat)
    ensures Project(a + b, id) == Project(a, id) + Project(b, id)
  {
    if b == [] {
      assert a + b == a;
    } else {
      assert (a + b)[..|a + b| - 1] == a + b[..|b| - 1];
      ProjectConcat(a, b[..|b| - 1], id);
    }
  }

  lemma {:induction false} ProjectNone(rows: seq<Row>, id: nat)
    requires forall i | 0 <= i < |rows| :: rows[i].seqId != id
    ensures Project(rows, id) == []
  {
    if rows != [] {
      ProjectNone(rows[..|rows| - 1], id);
    }
  }

  /** When row `i` is the only row of its sequence, what that row attends to is the whole
      history of the sequence after the call. */
  lemma SoleRow(cells: map<nat, seq<Cell>>, rows: seq<Row>, i: nat)
    requires i < |rows|
    requires forall j | 0 <= j < |rows| && rows[j].seqId == rows[i].seqId :: j == i
    ensures HistoryOf(Feed(cells, rows[..i + 1]), rows[i].seqId) == HistoryOf(cells, rows[i].seqId)
        + Project(rows, rows[i].seqId)
  {
    var id := rows[i].seqId;
    FeedIsProject(cells, rows[..i + 1], id);
    ProjectConcat(rows[..i + 1], rows[i + 1..], id);
    assert rows[..i + 1] + rows[i + 1..] == rows;
    ProjectNone(rows[i + 1..], id);
  }

  lemma CellsSnoc(tokens: seq<Token>, t: Token)
    ensures Cells(tokens + [t]) == Cells(tokens) + [Cell(|tokens|, t)]
  {
  }

  /** The shared buffer: allocated once, refilled for every decode call. */
  class Batch {
    const rows: array<Row>
    var nTokens: nat

    predicate Valid() reads this { nTokens <= rows.Length }

    function Contents(): seq<Row> reads this, rows requires Valid() { rows[..nTokens] }

    constructor (capacity: nat)
      ensures Valid() && fresh(rows) && rows.Length == capacity && Contents() == []
    {
      rows := new Row[capacity](_ => Row(0, 0, 0, false));
      nTokens := 0;
    }

    method Clear()
      modifies this
      ensures Valid() && Contents() == []
    {
      nTokens := 0;
    }

    method Add(token: Token, pos: nat, seqId: nat, logits: bool)
      requires Valid() && nTokens < rows.Length
      modifies this, rows
      ensures Valid() && Contents() == old(Contents()) + [Row(token, pos, seqId, logits)]
    {
      rows[nTokens] := Row(token, pos, seqId, logits);
      nTokens := nTokens + 1;
    }
  }

  /** The llama context. `outputs` holds, for each row that asked for logits in the last decode,
      the cells that row attended to. `decodes` and `failures` record the calls. */
  class Context {
    var cells: map<nat, seq<Cell>>
    var outputs: map<nat, seq<Cell>>
    var decodes: seq<seq<Row>>
    var failures: nat

    constructor ()
      ensures cells == map[] && outputs == map[] && decodes == [] && failures == 0
    {
      cells, outputs, decodes, failures := map[], map[], [], 0;
    }

    method ClearMemory()
      modifies this`cells, this`outputs
      ensures cells == map[] && outputs == map[]
    {
      cells, outputs := map[], map[];
    }

    /** A call may fail; nothing is then known of the memory. */
    method Decode(rows: seq<Row>) returns (ok: bool)
      modifies this
      ensures failures == old(failures) + (if ok then 0 else 1)
      ensures decodes == old(decodes) + [rows]
      ensures ok ==> cells == Feed(old(cells), rows)
      ensures ok ==> forall i | 0 <= i < |rows| && rows[i].logits ::
                       i in outputs && outputs[i] == HistoryOf(Feed(old(cells), rows[..i + 1]), rows[i].seqId)
    {
      decodes := decodes + [rows];
      ok := *;
      if ok {
        outputs := map i | 0 <= i < |rows| && rows[i].logits :: HistoryOf(Feed(cells, rows[..i + 1]), rows[i].seqId);
        cells := Feed(cells, rows);
      } else {
        failures := failures + 1;
        cells, outputs := *, *;
      }
    }
  }

  /** All rows of a list of decode calls, in order. */
  function Flat(log: seq<seq<Row>>): seq<Row> {
    if log == [] then [] else Flat(log[..|log| - 1]) + log[|log| - 1]
  }

  lemma FlatSnoc(log: seq<seq<Row>>, rows: seq<Row>)
    ensures Flat(log + [rows]) == Flat(log) + rows
  {
    assert (log + [rows])[..|log|] == log;
  }
}
