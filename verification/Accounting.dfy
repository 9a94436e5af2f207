/**
  Booking one usage row per arm that ran (crates/moaray/src/app.rs).
*/
module Accounting {
  import opened Wrappers
  import opened Errors
  import opened Usage
  import opened Config
  import opened Moa
  import F = Framing

  /** What a model costs, in nano-dollars per million tokens. */
  datatype Price = Price(prompt: Option<i64>, completion: Option<i64>)

  type Prices = map<string, Price>

  /** The prices of a model; an unknown model is unpriced. */
  function ModelPrices(prices: Prices, model: string): Price {
    if model in prices then prices[model] else Price(None, None)
  }

  function UsageStatusOf(pt: Option<i64>, ct: Option<i64>, pp: Option<i64>, cp: Option<i64>): UsageStatus {
    if !(pt.Some? && ct.Some?) then OkNoUsage
    else if pp.Some? && cp.Some? then StatusOk
    else Unpriced
  }

  /** What is the same for all rows of one request. */
  datatype Request = Request(id: string, callerKeyId: string, tsUnixMs: int)

  function RowOf(prices: Prices, q: Request, kind: UsageArm, arm: ArmOutcome): UsageRecord {
    var Price(pp, cp) := ModelPrices(prices, arm.model);
    var status :=
      match arm.status
      case ArmTimeout => StatusTimeout
      case ArmError => StatusFailed
      case ArmOk => UsageStatusOf(arm.promptTokens, arm.completionTokens, pp, cp);
    UsageRecord(q.id, q.tsUnixMs, UsagePath.Moa, kind, arm.model, arm.upstreamId, q.callerKeyId,
                arm.promptTokens, arm.completionTokens, pp, cp,
                ComputeCost(arm.promptTokens, arm.completionTokens, pp, cp), status)
  }

  function ProposerRows(prices: Prices, q: Request, arms: seq<ArmOutcome>): (rows: seq<UsageRecord>)
    ensures |rows| == |arms|
  {
    if arms == [] then []
    else ProposerRows(prices, q, arms[..|arms|-1]) + [RowOf(prices, q, Proposer, arms[|arms|-1])]
  }

  /** Every arm that ran, proposers first and then the aggregator if it was called. */
  function RowsOf(prices: Prices, q: Request, run: MoaRun): seq<UsageRecord> {
    ProposerRows(prices, q, run.proposers)
    + (if run.aggregator.Some? then [RowOf(prices, q, Aggregator, run.aggregator.value)] else [])
  }

  class UsageSink {
    var rows: seq<UsageRecord>

    constructor ()
      ensures rows == []
    {
      rows := [];
    }

    method Record(rec: UsageRecord)
      modifies this
      ensures rows == old(rows) + [rec]
    {
      rows := rows + [rec];
    }
  }

  method BookMoaArm(sink: UsageSink, prices: Prices, q: Request, kind: UsageArm, arm: ArmOutcome)
    modifies sink
    ensures sink.rows == old(sink.rows) + [RowOf(prices, q, kind, arm)]
  {
    var Price(pp, cp) := ModelPrices(prices, arm.model);
    var status;
    match arm.status {
      case ArmTimeout => status := StatusTimeout;
      case ArmError => status := StatusFailed;
      case ArmOk => status := UsageStatusOf(arm.promptTokens, arm.completionTokens, pp, cp);
    }
    var cost := ComputeCost(arm.promptTokens, arm.completionTokens, pp, cp);
    sink.Record(UsageRecord(q.id, q.tsUnixMs, UsagePath.Moa, kind, arm.model, arm.upstreamId, q.callerKeyId,
                            arm.promptTokens, arm.completionTokens, pp, cp, cost, status));
  }

  /**
    The whole request: run, then book every arm that ran whether the run succeeded or not, then return
    the outcome. Only a request that does not parse and an unknown recipe, refused in this order before
    any arm ran, book nothing. `parsed` is what the JSON decoder makes of the body.
  */
  method RunMoa(
    sink: UsageSink, prices: Prices, q: Request, recipes: map<string, Recipe>, name: string, ctxModel: string,
    parsed: Result<seq<F.ChatMessage>, string>, fates: nat -> ArmFate, order: seq<nat>, agg: ArmFate)
    returns (r: Result<ChatResponse, Error>)
    requires name in recipes ==> IsOrder(order, |recipes[name].proposers|)
    modifies sink
    ensures parsed.Err? ==> sink.rows == old(sink.rows) && r == Err(BadRequest("invalid request: " + parsed.error))
    ensures parsed.Ok? && name !in recipes ==> sink.rows == old(sink.rows) && r == Err(ModelNotFound("moa/" + name))
    ensures parsed.Ok? && name in recipes ==>
      var run := RunResult(ctxModel, recipes[name], parsed.value, Arms(recipes[name], fates), agg).0;
      sink.rows == old(sink.rows) + RowsOf(prices, q, run) && r == run.outcome
  {
    if parsed.Err? {
      return Err(BadRequest("invalid request: " + parsed.error));
    }
    var result, _, _ := Run(recipes, name, ctxModel, parsed.value, fates, order, agg);
    if result.Err? {
      return Err(result.error);
    }
    BookRun(sink, prices, q, result.value);
    return result.value.outcome;
  }

  /** The booking loop over the proposers, then the aggregator. */
  method BookRun(sink: UsageSink, prices: Prices, q: Request, run: MoaRun)
    modifies sink
    ensures sink.rows == old(sink.rows) + RowsOf(prices, q, run)
  {
    ghost var before := sink.rows;
    for n := 0 to |run.proposers|
      invariant sink.rows == before + ProposerRows(prices, q, run.proposers[..n])
    {
      assert run.proposers[..n+1][..n] == run.proposers[..n];
      BookMoaArm(sink, prices, q, Proposer, run.proposers[n]);
    }
    assert run.proposers[..|run.proposers|] == run.proposers;
    if run.aggregator.Some? {
      BookMoaArm(sink, prices, q, Aggregator, run.aggregator.value);
    }
  }

  // ---- what the books say ----

  /** An arm that is not ok was not measured. */
  predicate Measured(arm: ArmOutcome) {
    arm.status != ArmOk ==> arm.promptTokens.None? && arm.completionTokens.None?
  }

  /** A cost exactly when the status is `ok`. */
  predicate HonestCost(row: UsageRecord) {
    row.cost.Some? <==> row.status == StatusOk
  }

  /** Unmeasured and unpriced arms are never booked as free, failed ones never as paid. */
  lemma CostIffOk(prices: Prices, q: Request, kind: UsageArm, arm: ArmOutcome)
    requires Measured(arm)
    ensures HonestCost(RowOf(prices, q, kind, arm))
  {
  }

  lemma ArmsAreMeasured(idx: nat, model: string, fate: ArmFate)
    ensures Measured(RunArm(idx, model, fate).outcome) && RunArm(idx, model, fate).outcome.model == model
  {
  }

  lemma RowNames(prices: Prices, q: Request, kind: UsageArm, arm: ArmOutcome)
    ensures var row := RowOf(prices, q, kind, arm);
      row.model == arm.model && row.arm == kind && row.promptTokens == arm.promptTokens && row.completionTokens == arm.completionTokens
  {
  }

  /** What is booked for an arm, in terms of its fate and of the configured prices alone. */
  predicate Books(row: UsageRecord, prices: Prices, q: Request, kind: UsageArm, model: string, f: ArmFate) {
    && row.requestId == q.id && row.tsUnixMs == q.tsUnixMs && row.callerKeyId == q.callerKeyId && row.path == UsagePath.Moa
    && row.arm == kind && row.model == model
    && row.upstreamId == (if f.upstreamId.Some? then f.upstreamId.value else model)
    && row.promptTokens == SaidBy(f, "prompt_tokens") && row.completionTokens == SaidBy(f, "completion_tokens")
    && row.pricePrompt == (if model in prices then prices[model].prompt else None)
    && row.priceCompletion == (if model in prices then prices[model].completion else None)
    && row.cost == ComputeCost(row.promptTokens, row.completionTokens, row.pricePrompt, row.priceCompletion)
    && row.status ==
       if Answers(f) then
         if row.promptTokens == None || row.completionTokens == None then OkNoUsage
         else if row.pricePrompt == None || row.priceCompletion == None then Unpriced
         else StatusOk
       else if f.upstreamId.Some? && f.end.TimedOut? then StatusTimeout
       else StatusFailed
  }

  /** A token count as the arm's answer gives it. */
  function SaidBy(f: ArmFate, key: string): Option<i64> {
    if Answers(f) && AnswerOf(f).usage.Some? then IntOf(AnswerOf(f).usage.value, key) else None
  }

  lemma RowBooks(prices: Prices, q: Request, kind: UsageArm, idx: nat, model: string, f: ArmFate)
    ensures Books(RowOf(prices, q, kind, RunArm(idx, model, f).outcome), prices, q, kind, model, f)
    ensures HonestCost(RowOf(prices, q, kind, RunArm(idx, model, f).outcome))
  {
    ArmIsRecorded(idx, model, f);
    ArmsAreMeasured(idx, model, f);
    CostIffOk(prices, q, kind, RunArm(idx, model, f).outcome);
  }

  lemma {:induction false} ProposerRowsAt(prices: Prices, q: Request, arms: seq<ArmOutcome>, i: nat)
    requires i < |arms|
    ensures ProposerRows(prices, q, arms)[i] == RowOf(prices, q, Proposer, arms[i])
  {
    if i < |arms| - 1 {
      ProposerRowsAt(prices, q, arms[..|arms|-1], i);
    }
  }

  /** What is booked for one arm. */
  predicate ArmRow(row: UsageRecord, prices: Prices, q: Request, kind: UsageArm, model: string, f: ArmFate) {
    Books(row, prices, q, kind, model, f) && HonestCost(row)
  }

  lemma {:induction false} ProposerIsBooked(prices: Prices, q: Request, recipe: Recipe, fates: nat -> ArmFate, i: nat)
    requires i < |recipe.proposers|
    ensures ArmRow(ProposerRows(prices, q, Outcomes(Arms(recipe, fates)))[i], prices, q, Proposer, recipe.proposers[i], fates(i))
  {
    ProposerRowsAt(prices, q, Outcomes(Arms(recipe, fates)), i);
    RowBooks(prices, q, Proposer, i, recipe.proposers[i], fates(i));
  }

  /** Whatever the outcome, the run reports the arms that ran. */
  lemma {:induction false} RunReportsItsArms(ctxModel: string, recipe: Recipe, messages: seq<F.ChatMessage>, arms: seq<ArmRun>, agg: ArmFate)
    ensures var (run, request) := RunResult(ctxModel, recipe, messages, arms, agg);
      && run.proposers == Outcomes(arms)
      && run.aggregator == (if request.Some? then Some(RunArm(0, recipe.aggregator, agg).outcome) else None)
  {
  }

  /**
    On every path after the fan-out, whether quorum failed, the aggregator could not be resolved, timed
    out, failed or answered: one row per proposer, in recipe order, and one for the aggregator if it was
    called; each with the arm's identity, the tokens its answer reports, the configured prices of its
    model, the status its fate deserves, and a cost if and only if that status is `ok`.
  */
  lemma EveryArmIsBooked(
    prices: Prices, q: Request, ctxModel: string, recipe: Recipe, messages: seq<F.ChatMessage>, fates: nat -> ArmFate, agg: ArmFate)
    ensures var (run, request) := RunResult(ctxModel, recipe, messages, Arms(recipe, fates), agg);
      var rows, n := RowsOf(prices, q, run), |recipe.proposers|;
      && |rows| == n + (if request.Some? then 1 else 0)
      && (forall i :: 0 <= i < n ==> ArmRow(rows[i], prices, q, Proposer, recipe.proposers[i], fates(i)))
      && (request.Some? ==> ArmRow(rows[n], prices, q, Aggregator, recipe.aggregator, agg))
  {
    RunReportsItsArms(ctxModel, recipe, messages, Arms(recipe, fates), agg);
    forall i | 0 <= i < |recipe.proposers|
      ensures ArmRow(ProposerRows(prices, q, Outcomes(Arms(recipe, fates)))[i], prices, q, Proposer, recipe.proposers[i], fates(i))
    {
      ProposerIsBooked(prices, q, recipe, fates, i);
    }
    RowBooks(prices, q, Aggregator, 0, recipe.aggregator, agg);
  }

  // ---- conservation ----

  datatype Side = PromptSide | CompletionSide
  {
    function Key(): string { match this case PromptSide => "prompt_tokens" case CompletionSide => "completion_tokens" }
    function Of(row: UsageRecord): Option<i64> { if PromptSide? then row.promptTokens else row.completionTokens }
    function OfArm(arm: ArmOutcome): Option<i64> { if PromptSide? then arm.promptTokens else arm.completionTokens }
  }

  /** The exact total of one token column over the rows; unmeasured rows contribute nothing. */
  function RowsTotal(rows: seq<UsageRecord>, side: Side): int {
    if rows == [] then 0 else RowsTotal(rows[..|rows|-1], side) + OrZero(side.Of(rows[|rows|-1]))
  }

  lemma {:induction false} RowsTotalAppend(rows: seq<UsageRecord>, row: UsageRecord, side: Side)
    ensures RowsTotal(rows + [row], side) == RowsTotal(rows, side) + OrZero(side.Of(row))
  {
    assert (rows + [row])[..|rows|] == rows;
  }

  lemma {:induction false} TotalAppend(usages: seq<UsageValue>, u: UsageValue, key: string)
    ensures Total(usages + [u], key) == Total(usages, key) + OrZero(IntOf(u, key))
  {
    assert (usages + [u])[..|usages|] == usages;
  }

  /** What a response says about one token column. */
  function Said(r: ChatResponse, side: Side): Option<i64> {
    if r.usage.Some? then IntOf(r.usage.value, side.Key()) else None
  }

  /** What an arm reports is what its response's usage object says. */
  predicate Reports(arm: ArmRun, side: Side) {
    side.OfArm(arm.outcome) == if arm.response.Some? then Said(arm.response.value, side) else None
  }

  lemma ArmsReport(idx: nat, model: string, fate: ArmFate, side: Side)
    ensures Reports(RunArm(idx, model, fate), side)
  {
  }

  function UsageList(r: ChatResponse): seq<UsageValue> {
    if r.usage.Some? then [r.usage.value] else []
  }

  lemma {:induction false} TotalWith(usages: seq<UsageValue>, r: ChatResponse, side: Side)
    ensures Total(usages + UsageList(r), side.Key()) == Total(usages, side.Key()) + OrZero(Said(r, side))
  {
    if r.usage.Some? {
      TotalAppend(usages, r.usage.value, side.Key());
    } else {
      assert usages + UsageList(r) == usages;
    }
  }

  lemma {:induction false} UsagesAppend(responses: seq<ChatResponse>, r: ChatResponse)
    ensures Usages(responses + [r]) == Usages(responses) + UsageList(r)
  {
    assert (responses + [r])[..|responses|] == responses;
  }

  /** One more arm adds the same on both sides. */
  lemma {:induction false} SuccessesWith(front: seq<ArmRun>, arm: ArmRun, side: Side)
    requires Reports(arm, side)
    ensures Total(Usages(Successes(front + [arm])), side.Key())
         == Total(Usages(Successes(front)), side.Key()) + OrZero(side.OfArm(arm.outcome))
  {
    assert (front + [arm])[..|front|] == front;
    if arm.response.Some? {
      assert Successes(front + [arm]) == Successes(front) + [arm.response.value];
      UsagesAppend(Successes(front), arm.response.value);
      TotalWith(Usages(Successes(front)), arm.response.value, side);
    } else {
      assert Successes(front + [arm]) == Successes(front);
    }
  }

  lemma {:induction false} RowsWith(prices: Prices, q: Request, front: seq<ArmOutcome>, arm: ArmOutcome, side: Side)
    ensures RowsTotal(ProposerRows(prices, q, front + [arm]), side)
         == RowsTotal(ProposerRows(prices, q, front), side) + OrZero(side.OfArm(arm))
  {
    assert (front + [arm])[..|front|] == front;
    RowsTotalAppend(ProposerRows(prices, q, front), RowOf(prices, q, Proposer, arm), side);
    RowNames(prices, q, Proposer, arm);
  }

  lemma {:induction false} OutcomesWith(front: seq<ArmRun>, arm: ArmRun)
    ensures Outcomes(front + [arm]) == Outcomes(front) + [arm.outcome]
  {
  }

  /** The proposer rows and the usage objects of the arms have the same total. */
  predicate SameTotals(prices: Prices, q: Request, arms: seq<ArmRun>, side: Side) {
    RowsTotal(ProposerRows(prices, q, Outcomes(arms)), side) == Total(Usages(Successes(arms)), side.Key())
  }

  lemma {:induction false} OneMoreArm(prices: Prices, q: Request, front: seq<ArmRun>, last: ArmRun, side: Side)
    requires SameTotals(prices, q, front, side) && Reports(last, side)
    ensures SameTotals(prices, q, front + [last], side)
  {
    SuccessesWith(front, last, side);
    RowsWith(prices, q, Outcomes(front), last.outcome, side);
    OutcomesWith(front, last);
  }

  lemma {:induction false} ProposersConserve(prices: Prices, q: Request, arms: seq<ArmRun>, side: Side)
    requires forall i :: 0 <= i < |arms| ==> Reports(arms[i], side)
    ensures SameTotals(prices, q, arms, side)
  {
    if arms == [] {
      NoArms(prices, q, side);
    } else {
      var front := arms[..|arms|-1];
      ProposersConserve(prices, q, front, side);
      OneMoreArm(prices, q, front, arms[|arms|-1], side);
      FrontAndLast(arms);
    }
  }

  lemma NoArms(prices: Prices, q: Request, side: Side)
    ensures SameTotals(prices, q, [], side)
  {
  }

  lemma FrontAndLast(arms: seq<ArmRun>)
    requires arms != []
    ensures arms[..|arms|-1] + [arms[|arms|-1]] == arms
  {
  }

  /** The total the client sees; an absent field counts as zero. */
  function ClientTotal(r: ChatResponse, side: Side): int {
    if r.usage.Some? then OrZero(IntOf(r.usage.value, side.Key())) else 0
  }

  lemma {:induction false} SummedField(usages: seq<UsageValue>, side: Side)
    ensures OrZero(IntOf(Summed(usages), side.Key())) == Wrap64(Total(usages, side.Key()))
  {
    AbsentIsZero(usages);
  }

  lemma WrapIsIdentityIffFits(x: int)
    ensures Wrap64(x) == x <==> I64_MIN <= x <= I64_MAX
  {
  }

  /** A run succeeds only through an aggregator that answered, and returns its answer with the summed usage. */
  lemma {:induction false} SuccessShape(ctxModel: string, recipe: Recipe, messages: seq<F.ChatMessage>, arms: seq<ArmRun>, agg: ArmFate)
    requires RunResult(ctxModel, recipe, messages, arms, agg).0.outcome.Ok?
    ensures var run := RunResult(ctxModel, recipe, messages, arms, agg).0;
      && run.proposers == Outcomes(arms)
      && run.aggregator == Some(RunArm(0, recipe.aggregator, agg).outcome)
      && agg.upstreamId.Some? && agg.end.Returned? && agg.end.result.Ok?
      && run.outcome.value.usage == Some(Summed(Usages(Successes(arms)) + UsageList(agg.end.result.value)))
  {
  }

  lemma AggregatorRowCounts(prices: Prices, q: Request, recipe: Recipe, agg: ArmFate, side: Side)
    requires agg.upstreamId.Some? && agg.end.Returned? && agg.end.result.Ok?
    ensures side.Of(RowOf(prices, q, Aggregator, RunArm(0, recipe.aggregator, agg).outcome)) == Said(agg.end.result.value, side)
  {
    RowNames(prices, q, Aggregator, RunArm(0, recipe.aggregator, agg).outcome);
    ArmsReport(0, recipe.aggregator, agg, side);
  }

  /** Before any wrap-around the booked column and the usage objects add up to the same number. */
  lemma {:induction false} BooksConserve(prices: Prices, q: Request, recipe: Recipe, arms: seq<ArmRun>, agg: ArmFate, side: Side)
    requires forall i :: 0 <= i < |arms| ==> Reports(arms[i], side)
    requires agg.upstreamId.Some? && agg.end.Returned? && agg.end.result.Ok?
    ensures RowsTotal(
        ProposerRows(prices, q, Outcomes(arms)) + [RowOf(prices, q, Aggregator, RunArm(0, recipe.aggregator, agg).outcome)], side)
      == Total(Usages(Successes(arms)) + UsageList(agg.end.result.value), side.Key())
  {
    ProposersConserve(prices, q, arms, side);
    var aggRow := RowOf(prices, q, Aggregator, RunArm(0, recipe.aggregator, agg).outcome);
    RowsTotalAppend(ProposerRows(prices, q, Outcomes(arms)), aggRow, side);
    AggregatorRowCounts(prices, q, recipe, agg, side);
    TotalWith(Usages(Successes(arms)), agg.end.result.value, side);
  }

  /**
    Usage conservation: on a successful run the client's prompt and completion totals are the sums over
    the booked rows, taken in 64 bits. So they are equal if and only if the exact sum fits.
  */
  lemma {:induction false} UsageConserved(
    prices: Prices, q: Request, ctxModel: string, recipe: Recipe, messages: seq<F.ChatMessage>, fates: nat -> ArmFate,
    agg: ArmFate, side: Side)
    requires RunResult(ctxModel, recipe, messages, Arms(recipe, fates), agg).0.outcome.Ok?
    ensures var run := RunResult(ctxModel, recipe, messages, Arms(recipe, fates), agg).0;
      var booked := RowsTotal(RowsOf(prices, q, run), side);
      && ClientTotal(run.outcome.value, side) == Wrap64(booked)
      && (ClientTotal(run.outcome.value, side) == booked <==> I64_MIN <= booked <= I64_MAX)
  {
    var arms := Arms(recipe, fates);
    SuccessShape(ctxModel, recipe, messages, arms, agg);
    forall i | 0 <= i < |arms| ensures Reports(arms[i], side) {
      ArmsReport(i, recipe.proposers[i], fates(i), side);
    }
    BooksConserve(prices, q, recipe, arms, agg, side);
    SummedField(Usages(Successes(arms)) + UsageList(agg.end.result.value), side);
    WrapIsIdentityIffFits(Total(Usages(Successes(arms)) + UsageList(agg.end.result.value), side.Key()));
  }

  // ---- totals that do not fit ----

  const PROMPTS_MAX: UsageValue := Fields(map["prompt_tokens" := IntField(I64_MAX)])
  const PROMPTS_ONE: UsageValue := Fields(map["prompt_tokens" := IntField(1)])

  function Answering(usage: UsageValue): ArmFate {
    ArmFate(Some("u"), 0, Returned(Ok(ChatResponse("", "", None, Some(usage)))))
  }

  const SINGLE: Recipe := Recipe("r", ["m"], "a", ConcatSynthesize, 1000, 1)

  lemma {:induction false} TwoUsages()
    ensures Total([PROMPTS_MAX, PROMPTS_ONE], "prompt_tokens") == I64_MAX + 1
  {
    assert [PROMPTS_MAX, PROMPTS_ONE][..1] == [PROMPTS_MAX] && [PROMPTS_MAX][..0] == [];
    assert Total([PROMPTS_MAX], "prompt_tokens") == I64_MAX;
  }

  lemma {:induction false} SingleArm(arm: ArmRun, r: ChatResponse, u: UsageValue)
    requires arm.response == Some(r) && r.usage == Some(u)
    ensures Successes([arm]) == [r] && Usages([r]) == [u]
  {
    assert [arm][..0] == [] && [r][..0] == [];
  }

  lemma {:induction false} OneArm(fates: nat -> ArmFate)
    requires fates(0) == Answering(PROMPTS_MAX)
    ensures var arms := Arms(SINGLE, fates);
      && |arms| == 1 && Reports(arms[0], PromptSide) && |Successes(arms)| == 1
      && Usages(Successes(arms)) + UsageList(Answering(PROMPTS_ONE).end.result.value) == [PROMPTS_MAX, PROMPTS_ONE]
  {
    hide Successes, Usages;
    var arm := RunArm(0, "m", Answering(PROMPTS_MAX));
    assert Arms(SINGLE, fates) == [arm];
    ArmsReport(0, "m", Answering(PROMPTS_MAX), PromptSide);
    SingleArm(arm, arm.response.value, PROMPTS_MAX);
  }

  /** One proposer and an aggregator, whose prompt tokens add up to one more than 64 bits hold. */
  lemma TotalsCanWrap(prices: Prices, q: Request, ctxModel: string, messages: seq<F.ChatMessage>, fates: nat -> ArmFate)
    requires fates(0) == Answering(PROMPTS_MAX)
    ensures var run := RunResult(ctxModel, SINGLE, messages, Arms(SINGLE, fates), Answering(PROMPTS_ONE)).0;
      && run.outcome.Ok?
      && RowsTotal(RowsOf(prices, q, run), PromptSide) == I64_MAX + 1
      && ClientTotal(run.outcome.value, PromptSide) == I64_MIN
  {
    hide RowOf, Arms, Successes, Usages, Total, RowsTotal, Summed, Outcomes, F.Block, F.Visible, F.JoinLines;
    var agg := Answering(PROMPTS_ONE);
    var arms := Arms(SINGLE, fates);
    OneArm(fates);
    SuccessShape(ctxModel, SINGLE, messages, arms, agg);
    BooksConserve(prices, q, SINGLE, arms, agg, PromptSide);
    TwoUsages();
    SummedField([PROMPTS_MAX, PROMPTS_ONE], PromptSide);
  }
}
