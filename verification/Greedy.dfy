/**
 What an answer is, without saying how it is computed: a list of tokens, each the sample after the
 prompt and the tokens before it, whose pieces end to end are the text. The recursive reference
 and the batch loop both give such an answer, and there is only one.
 */
module Greedy {
  import opened Types
  import opened LlamaContext

  /** The sample once the prompt and `ids` have been submitted. */
  function Next(m: Model, prompt: seq<Token>, ids: seq<Token>): Token {
    m.sample(Cells(prompt + ids))
  }

  /** Each token is the sample after those before it; none ends the generation, and each has a piece. */
  ghost predicate Chain(m: Model, prompt: seq<Token>, ids: seq<Token>) {
    forall j | 0 <= j < |ids| :: ids[j] == Next(m, prompt, ids[..j]) && !m.isEog(ids[j]) && m.piece(ids[j]).Some?
  }

  /** The pieces of `ids`, end to end. */
  function Text(m: Model, ids: seq<Token>): string {
    if ids == [] then ""
    else
      var piece := m.piece(ids[|ids| - 1]);
      Text(m, ids[..|ids| - 1]) + (if piece.Some? then piece.value else "")
  }

  /** How many tokens can come: the limit is tested after a token, so a limit of zero lets one through. */
  function Most(limit: nat): nat {
    if limit == 0 then 1 else limit
  }

  /** `ids` are the tokens of the answer. It is a success when they are as many as can come or the next sample
      ends the generation, and a failure exactly when the next sample has no piece. */
  ghost predicate Answers(m: Model, prompt: seq<Token>, limit: nat, ids: seq<Token>, result: InferenceResult) {
    && Chain(m, prompt, ids) && |ids| <= Most(limit)
    && (result.Ok() ==> |ids| == Most(limit) || m.isEog(Next(m, prompt, ids)))
    && (result.Ok() ==> result.output == Some(InferenceOutput(Text(m, ids), |ids|)))
    && (!result.Ok() <==>
          |ids| < Most(limit) && !m.isEog(Next(m, prompt, ids)) && m.piece(Next(m, prompt, ids)).None?)
    && (!result.Ok() ==> result.status == InferenceFailed && result.output.None?)
  }

  /** The right result for a request: refused with its code, or answered. */
  ghost predicate Right(m: Model, cfg: ModelConfig, r: Request, result: InferenceResult) {
    match m.tokenize(r.prompt)
    case None => result == InferenceResult(InferenceFailed, None)
    case Some(tokens) =>
      if |tokens| + r.maxOutput > cfg.contextTokens then result == InferenceResult(ContextLengthExceeded, None)
      else if tokens == [] || !m.samplerInit(r) then result == InferenceResult(InferenceFailed, None)
      else exists ids :: Answers(m, tokens, r.maxOutput, ids, result)
  }

  // ----- the reference gives it -----

  lemma ChainSnoc(m: Model, prompt: seq<Token>, ids: seq<Token>)
    requires Chain(m, prompt, ids)
    requires !m.isEog(Next(m, prompt, ids)) && m.piece(Next(m, prompt, ids)).Some?
    ensures var ids' := ids + [Next(m, prompt, ids)];
            Chain(m, prompt, ids') && Text(m, ids') == Text(m, ids) + m.piece(Next(m, prompt, ids)).value
  {
    var ids' := ids + [Next(m, prompt, ids)];
    assert ids'[..|ids|] == ids;
    forall j | 0 <= j < |ids'|
      ensures ids'[j] == Next(m, prompt, ids'[..j]) && !m.isEog(ids'[j]) && m.piece(ids'[j]).Some?
    {
      assert ids'[..j] == ids[..j];
    }
  }

  lemma {:induction false} GenerateAnswers(m: Model, prompt: seq<Token>, done: seq<Token>, limit: nat)
    returns (ids: seq<Token>)
    requires Chain(m, prompt, done) && |done| < Most(limit)
    ensures Answers(m, prompt, limit, ids, Generate(m, prompt + done, Text(m, done), |done|, limit))
    decreases Most(limit) - |done|
  {
    var id := Next(m, prompt, done);
    ids := done;
    if !m.isEog(id) && m.piece(id).Some? {
      ChainSnoc(m, prompt, done);
      ids := done + [id];
      if |done| + 1 < limit {
        assert prompt + done + [id] == prompt + ids;
        ids := GenerateAnswers(m, prompt, ids, limit);
      }
    }
  }

  lemma SoloIsRight(m: Model, cfg: ModelConfig, r: Request)
    ensures Right(m, cfg, r, Solo(m, cfg, r))
  {
    if m.tokenize(r.prompt).Some? {
      var tokens := m.tokenize(r.prompt).value;
      if |tokens| + r.maxOutput <= cfg.contextTokens && tokens != [] && m.samplerInit(r) {
        var ids := GenerateAnswers(m, tokens, [], r.maxOutput);
        assert tokens + [] == tokens;
      }
    }
  }

  // ----- and nothing else does -----

  lemma {:induction false} ChainsAgree(m: Model, prompt: seq<Token>, a: seq<Token>, b: seq<Token>, n: nat)
    requires Chain(m, prompt, a) && Chain(m, prompt, b) && n <= |a| && n <= |b|
    ensures a[..n] == b[..n]
  {
    if n > 0 {
      ChainsAgree(m, prompt, a, b, n - 1);
      assert a[..n] == a[..n - 1] + [a[n - 1]] && b[..n] == b[..n - 1] + [b[n - 1]];
    }
  }

  /** The longer of two chains goes on with the sample after the shorter. */
  lemma GoesOn(m: Model, prompt: seq<Token>, a: seq<Token>, b: seq<Token>)
    requires Chain(m, prompt, a) && Chain(m, prompt, b) && |b| < |a|
    ensures a[|b|] == Next(m, prompt, b)
  {
    ChainsAgree(m, prompt, a, b, |b|);
    assert a[..|b|] == b[..|b|] == b;
  }

  lemma NotLonger(m: Model, prompt: seq<Token>, limit: nat, a: seq<Token>, b: seq<Token>,
                  ra: InferenceResult, rb: InferenceResult)
    requires Answers(m, prompt, limit, a, ra) && Answers(m, prompt, limit, b, rb)
    ensures |a| <= |b|
  {
    if |b| < |a| {
      GoesOn(m, prompt, a, b);
    }
  }

  lemma AnswerIsUnique(m: Model, prompt: seq<Token>, limit: nat, a: seq<Token>, b: seq<Token>,
                       ra: InferenceResult, rb: InferenceResult)
    requires Answers(m, prompt, limit, a, ra) && Answers(m, prompt, limit, b, rb)
    ensures a == b && ra == rb
  {
    NotLonger(m, prompt, limit, a, b, ra, rb);
    NotLonger(m, prompt, limit, b, a, rb, ra);
    ChainsAgree(m, prompt, a, b, |a|);
    assert a[..|a|] == a && b[..|b|] == b;
  }

  lemma RightIsUnique(m: Model, cfg: ModelConfig, r: Request, a: InferenceResult, b: InferenceResult)
    requires Right(m, cfg, r, a) && Right(m, cfg, r, b)
    ensures a == b
  {
    if m.tokenize(r.prompt).Some? {
      var tokens := m.tokenize(r.prompt).value;
      if |tokens| + r.maxOutput <= cfg.contextTokens && tokens != [] && m.samplerInit(r) {
        var x :| Answers(m, tokens, r.maxOutput, x, a);
        var y :| Answers(m, tokens, r.maxOutput, y, b);
        AnswerIsUnique(m, tokens, r.maxOutput, x, y, a, b);
      }
    }
  }
}
