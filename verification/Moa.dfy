/** The mixture-of-agents run (crates/moaray-moa/src/orchestrator.rs). */
module Moa {
  import opened Wrappers
  import opened Errors
  import opened Bits
  import opened Usage
  import opened Config
  import F = Framing
  import S = FramingScan

  // Proposer arms finish in any order; then come a quorum gate, one aggregator call, and the sum of all usage.

  /** A `usage` value: an object of fields, integer or not, or something else. */
  datatype Field = IntField(n: i64) | OtherField

  datatype UsageValue = Fields(fields: map<string, Field>) | NotAnObject

  /** A structured completion; `text` is the text of its first choice. */
  datatype ChatResponse = ChatResponse(body: string, text: string, model: Option<string>, usage: Option<UsageValue>)

  datatype ArmStatus = ArmOk | ArmTimeout | ArmError

  datatype ArmOutcome = ArmOutcome(
    model: string,
    upstreamId: string,
    latencyMs: nat,
    status: ArmStatus,
    usagePresent: bool,
    promptTokens: Option<i64>,
    completionTokens: Option<i64>)

  datatype ArmRun = ArmRun(idx: nat, outcome: ArmOutcome, response: Option<ChatResponse>)

  /** What the world does to one arm: how long it takes, and what the call gives within its timeout. */
  datatype CallEnd = TimedOut | Returned(result: Result<ChatResponse, Error>)

  datatype ArmFate = ArmFate(upstreamId: Option<string>, latencyMs: nat, end: CallEnd)

  function IntOf(u: UsageValue, key: string): Option<i64> {
    if u.Fields? && key in u.fields && u.fields[key].IntField? then Some(u.fields[key].n) else None
  }

  function ExtractTokens(usage: Option<UsageValue>): (Option<i64>, Option<i64>) {
    match usage
    case None => (None, None)
    case Some(u) => (IntOf(u, "prompt_tokens"), IntOf(u, "completion_tokens"))
  }

  /** One arm; a model without a provider is an arm error. */
  function RunArm(idx: nat, model: string, fate: ArmFate): ArmRun {
    if fate.upstreamId.None? then
      ArmRun(idx, ArmOutcome(model, model, fate.latencyMs, ArmError, false, None, None), None)
    else
      var id := fate.upstreamId.value;
      match fate.end
      case TimedOut => ArmRun(idx, ArmOutcome(model, id, fate.latencyMs, ArmTimeout, false, None, None), None)
      case Returned(Err(_)) => ArmRun(idx, ArmOutcome(model, id, fate.latencyMs, ArmError, false, None, None), None)
      case Returned(Ok(resp)) =>
        var (pt, ct) := ExtractTokens(resp.usage);
        ArmRun(idx, ArmOutcome(model, id, fate.latencyMs, ArmOk, resp.usage.Some?, pt, ct), Some(resp))
  }

  /** The arms of a recipe in recipe order, as they would each finish. */
  function Arms(recipe: Recipe, fates: nat -> ArmFate): (arms: seq<ArmRun>)
    ensures |arms| == |recipe.proposers|
    ensures forall i :: 0 <= i < |arms| ==> arms[i] == RunArm(i, recipe.proposers[i], fates(i))
  {
    seq(|recipe.proposers|, i requires 0 <= i < |recipe.proposers| => RunArm(i, recipe.proposers[i], fates(i)))
  }

  /** `order` says which arm finishes when: each of the `n` arms exactly once. */
  predicate IsOrder(order: seq<nat>, n: nat) {
    && (forall k :: 0 <= k < |order| ==> order[k] < n)
    && (forall j, k :: 0 <= j < k < |order| ==> order[j] != order[k])
    && (forall i :: 0 <= i < n ==> i in order)
  }

  /** The finished runs in the order in which they arrive. */
  method FanOut(recipe: Recipe, fates: nat -> ArmFate, order: seq<nat>) returns (runs: seq<ArmRun>)
    requires IsOrder(order, |recipe.proposers|)
    ensures |runs| == |order|
    ensures forall k :: 0 <= k < |order| ==> runs[k] == Arms(recipe, fates)[order[k]]
  {
    runs := [];
    for k := 0 to |order|
      invariant |runs| == k
      invariant forall j :: 0 <= j < k ==> runs[j] == Arms(recipe, fates)[order[j]]
    {
      runs := runs + [RunArm(order[k], recipe.proposers[order[k]], fates(order[k]))];
    }
  }

  // ---- the stable sort by arm index ----

  predicate DistinctKeys<A>(s: seq<(nat, A)>) {
    forall i, j :: 0 <= i < j < |s| ==> s[i].0 != s[j].0
  }

  predicate StrictlySorted<A>(s: seq<(nat, A)>) {
    forall i, j :: 0 <= i < j < |s| ==> s[i].0 < s[j].0
  }

  /** Behind every element with a key that is not greater. */
  function InsertByKey<A(!new)>(s: seq<(nat, A)>, p: (nat, A)): (r: seq<(nat, A)>)
    ensures |r| == |s| + 1
    ensures forall x :: x in r <==> x in s || x == p
  {
    if s == [] || s[|s|-1].0 <= p.0 then s + [p]
    else
      var r := InsertByKey(s[..|s|-1], p) + [s[|s|-1]];
      assert s == s[..|s|-1] + [s[|s|-1]];
      r
  }

  function SortByKey<A(!new)>(s: seq<(nat, A)>): (r: seq<(nat, A)>)
    ensures |r| == |s|
    ensures forall x :: x in r <==> x in s
  {
    if s == [] then []
    else
      var r := InsertByKey(SortByKey(s[..|s|-1]), s[|s|-1]);
      assert s == s[..|s|-1] + [s[|s|-1]];
      r
  }

  lemma {:induction false} InsertStrict<A(!new)>(s: seq<(nat, A)>, p: (nat, A))
    requires StrictlySorted(s) && forall x :: x in s ==> x.0 != p.0
    ensures StrictlySorted(InsertByKey(s, p))
  {
    if s != [] && s[|s|-1].0 > p.0 {
      var front := s[..|s|-1];
      InsertStrict(front, p);
      var r := InsertByKey(front, p);
      forall i | 0 <= i < |r| ensures r[i].0 < s[|s|-1].0 {
        assert r[i] in r;
        if r[i] != p {
          assert r[i] in front;
        }
      }
    } else if s != [] {
      assert s[|s|-1] in s;
    }
  }

  lemma {:induction false} SortStrict<A(!new)>(s: seq<(nat, A)>)
    requires DistinctKeys(s)
    ensures StrictlySorted(SortByKey(s))
  {
    if s != [] {
      var front := s[..|s|-1];
      SortStrict(front);
      forall x | x in SortByKey(front) ensures x.0 != s[|s|-1].0 {
        assert x in front;
      }
      InsertStrict(SortByKey(front), s[|s|-1]);
    }
  }

  lemma EmptyTogether<A(!new)>(s: seq<(nat, A)>, t: seq<(nat, A)>)
    requires forall p :: p in s <==> p in t
    ensures s == [] ==> t == []
  {
    if t != [] {
      var p := t[0];
      assert p in t && p in s;
    }
  }

  /** Sorted by strictly increasing keys, a collection of pairs can be written down in only one way. */
  lemma {:induction false} SortedIsUnique<A(!new)>(s: seq<(nat, A)>, t: seq<(nat, A)>)
    requires StrictlySorted(s) && StrictlySorted(t)
    requires forall p :: p in s <==> p in t
    ensures s == t
  {
    EmptyTogether(s, t);
    EmptyTogether(t, s);
    if s != [] {
      var a, b := s[|s|-1], t[|t|-1];
      assert a in t && b in s;
      assert a.0 <= b.0 && b.0 <= a.0;
      assert a == b;
      var s1, t1 := s[..|s|-1], t[..|t|-1];
      forall p ensures p in s1 <==> p in t1 {
        assert p in s1 <==> p in s && p != a;
        assert p in t1 <==> p in t && p != b;
      }
      SortedIsUnique(s1, t1);
      assert s == s1 + [a] && t == t1 + [b];
    }
  }

  // ---- sorting what arrives gives recipe order ----

  /** What `pick` finds in each run, with the run's arm index. */
  function Pairs<A(!new)>(runs: seq<ArmRun>, pick: ArmRun -> Option<A>): (r: seq<(nat, A)>)
    ensures forall p :: p in r <==> exists k :: 0 <= k < |runs| && runs[k].idx == p.0 && pick(runs[k]) == Some(p.1)
  {
    if runs == [] then []
    else
      var last := runs[|runs|-1];
      var front := Pairs(runs[..|runs|-1], pick);
      if pick(last).Some? then front + [(last.idx, pick(last).value)] else front
  }

  predicate DistinctIdx(runs: seq<ArmRun>) {
    forall i, j :: 0 <= i < j < |runs| ==> runs[i].idx != runs[j].idx
  }

  lemma {:induction false} PairsDistinct<A(!new)>(runs: seq<ArmRun>, pick: ArmRun -> Option<A>)
    requires DistinctIdx(runs)
    ensures DistinctKeys(Pairs(runs, pick))
  {
    if runs != [] {
      var front := runs[..|runs|-1];
      PairsDistinct(front, pick);
      forall p | p in Pairs(front, pick) ensures p.0 != runs[|runs|-1].idx {
        var k :| 0 <= k < |front| && front[k].idx == p.0;
      }
      var f := Pairs(front, pick);
      assert forall i :: 0 <= i < |f| ==> f[i] in f;
    }
  }

  /** Runs in recipe order give pairs already in order. */
  lemma {:induction false} PairsInOrder<A(!new)>(arms: seq<ArmRun>, pick: ArmRun -> Option<A>)
    requires forall i :: 0 <= i < |arms| ==> arms[i].idx == i
    ensures StrictlySorted(Pairs(arms, pick))
    ensures forall p :: p in Pairs(arms, pick) ==> p.0 < |arms|
  {
    if arms != [] {
      var front := arms[..|arms|-1];
      PairsInOrder(front, pick);
      var f := Pairs(front, pick);
      assert forall i :: 0 <= i < |f| ==> f[i] in f;
    }
  }

  /** Whatever order the arms finish in, sorting by index restores recipe order. */
  lemma {:induction false} SortRestoresRecipeOrder<A(!new)>(arms: seq<ArmRun>, order: seq<nat>, runs: seq<ArmRun>, pick: ArmRun -> Option<A>)
    requires IsOrder(order, |arms|) && |runs| == |order|
    requires forall i :: 0 <= i < |arms| ==> arms[i].idx == i
    requires forall k :: 0 <= k < |order| ==> runs[k] == arms[order[k]]
    ensures SortByKey(Pairs(runs, pick)) == Pairs(arms, pick)
  {
    PairsDistinct(runs, pick);
    SortStrict(Pairs(runs, pick));
    PairsInOrder(arms, pick);
    forall p ensures p in SortByKey(Pairs(runs, pick)) <==> p in Pairs(arms, pick) {
      SamePair(arms, order, runs, pick, p);
    }
    SortedIsUnique(SortByKey(Pairs(runs, pick)), Pairs(arms, pick));
  }

  lemma {:induction false} SamePair<A(!new)>(
    arms: seq<ArmRun>, order: seq<nat>, runs: seq<ArmRun>, pick: ArmRun -> Option<A>, p: (nat, A))
    requires IsOrder(order, |arms|) && |runs| == |order|
    requires forall k :: 0 <= k < |order| ==> runs[k] == arms[order[k]]
    ensures p in Pairs(runs, pick) <==> p in Pairs(arms, pick)
  {
    if p in Pairs(runs, pick) {
      var k :| 0 <= k < |runs| && runs[k].idx == p.0 && pick(runs[k]) == Some(p.1);
      assert arms[order[k]] == runs[k];
    }
    if p in Pairs(arms, pick) {
      var i :| 0 <= i < |arms| && arms[i].idx == p.0 && pick(arms[i]) == Some(p.1);
      assert i in order;
      var k :| 0 <= k < |order| && order[k] == i;
      assert runs[k] == arms[i];
    }
  }

  // ---- usage ----

  /** 64-bit two's complement, what an overflowing release-build sum keeps. */
  function Wrap64(x: int): (r: i64)
    ensures (x - r) % TWO_64 == 0
  {
    var low := x % TWO_64;
    if low > I64_MAX then low - TWO_64 else low
  }

  lemma WrapAddsUp(a: int, b: int)
    ensures Wrap64(Wrap64(a) + b) == Wrap64(a + b)
  {
    var q := a / TWO_64;
    assert a == q * TWO_64 + a % TWO_64;
    var k := if a % TWO_64 > I64_MAX then q + 1 else q;
    assert Wrap64(a) == a - k * TWO_64;
    SameResidue(a + b, Wrap64(a) + b, k);
  }

  lemma SameResidue(x: int, y: int, k: int)
    requires x == y + k * TWO_64
    ensures x % TWO_64 == y % TWO_64
  {
    var q, r := y / TWO_64, y % TWO_64;
    assert x == (q + k) * TWO_64 + r;
    QuotientUnique(x, q + k, r);
  }

  lemma QuotientUnique(x: int, q: int, r: int)
    requires x == q * TWO_64 + r && 0 <= r < TWO_64
    ensures x % TWO_64 == r
  {
  }

  function IntKeysOf(u: UsageValue): set<string> {
    if u.Fields? then set k | k in u.fields && u.fields[k].IntField? else {}
  }

  /** Every key that is an integer in some usage object. */
  function IntKeys(usages: seq<UsageValue>): set<string> {
    if usages == [] then {} else IntKeys(usages[..|usages|-1]) + IntKeysOf(usages[|usages|-1])
  }

  function OrZero(n: Option<i64>): int { if n.Some? then n.value else 0 }

  /** The exact sum of one field; usage objects without it contribute nothing. */
  function Total(usages: seq<UsageValue>, key: string): int {
    if usages == [] then 0 else Total(usages[..|usages|-1], key) + OrZero(IntOf(usages[|usages|-1], key))
  }

  function Summed(usages: seq<UsageValue>): UsageValue {
    Fields(map k | k in IntKeys(usages) :: IntField(Wrap64(Total(usages, k))))
  }

  /** `acc` holds the sums over `usages`. */
  ghost predicate IsSum(acc: map<string, i64>, usages: seq<UsageValue>) {
    acc.Keys == IntKeys(usages) && forall k :: k in acc ==> acc[k] == Wrap64(Total(usages, k))
  }

  /** `r` is `acc` with the integer fields of one more object added. */
  ghost predicate Added(acc: map<string, i64>, u: UsageValue, r: map<string, i64>) {
    && r.Keys == acc.Keys + IntKeysOf(u)
    && forall k :: k in r ==> r[k] == Bumped(acc, u, k)
  }

  function Bumped(acc: map<string, i64>, u: UsageValue, k: string): i64 {
    Wrap64((if k in acc then acc[k] else 0) + OrZero(IntOf(u, k)))
  }

  lemma NotBumped(acc: map<string, i64>, u: UsageValue)
    ensures forall k :: k in acc && k !in IntKeysOf(u) ==> Bumped(acc, u, k) == acc[k]
  {
  }

  lemma {:induction false} SumNext(acc: map<string, i64>, usages: seq<UsageValue>, n: nat, r: map<string, i64>)
    requires n < |usages| && IsSum(acc, usages[..n]) && Added(acc, usages[n], r)
    ensures IsSum(r, usages[..n+1])
  {
    assert usages[..n+1][..n] == usages[..n];
    AbsentIsZero(usages[..n]);
    forall k | k in r ensures r[k] == Wrap64(Total(usages[..n+1], k)) {
      TotalNext(usages, n, k);
    }
  }

  /** Field by field sums of the integer fields, and no other fields. */
  method SumUsage(usages: seq<UsageValue>) returns (r: UsageValue)
    ensures r == Summed(usages)
  {
    var acc: map<string, i64> := map[];
    for n := 0 to |usages|
      invariant IsSum(acc, usages[..n])
    {
      ghost var before := acc;
      if usages[n].Fields? {
        acc := AddFields(acc, usages[n].fields);
      } else {
        NothingAdded(acc, usages[n]);
      }
      SumNext(before, usages, n, acc);
    }
    assert usages[..|usages|] == usages;
    r := Fields(map k | k in acc :: IntField(acc[k]));
  }

  lemma NothingAdded(acc: map<string, i64>, u: UsageValue)
    requires u.NotAnObject?
    ensures Added(acc, u, acc)
  {
  }

  lemma {:induction false} AbsentIsZero(usages: seq<UsageValue>)
    ensures forall k :: k !in IntKeys(usages) ==> Total(usages, k) == 0
    ensures Wrap64(0) == 0
  {
    if usages != [] {
      AbsentIsZero(usages[..|usages|-1]);
    }
  }

  lemma {:induction false} TotalNext(usages: seq<UsageValue>, n: nat, key: string)
    requires n < |usages|
    ensures Wrap64(Total(usages[..n+1], key)) == Wrap64(Wrap64(Total(usages[..n], key)) + OrZero(IntOf(usages[n], key)))
  {
    assert usages[..n+1][..n] == usages[..n];
    WrapAddsUp(Total(usages[..n], key), OrZero(IntOf(usages[n], key)));
  }

  /** The inner loop: one usage object into the accumulator, its keys in any order. */
  method AddFields(acc: map<string, i64>, fields: map<string, Field>) returns (r: map<string, i64>)
    ensures Added(acc, Fields(fields), r)
  {
    r := acc;
    ghost var u := Fields(fields);
    NotBumped(acc, u);
    var todo := fields.Keys;
    while todo != {}
      invariant todo <= fields.Keys
      invariant r.Keys == acc.Keys + (IntKeysOf(u) - todo)
      invariant forall k :: k in r ==> r[k] == if k in todo then acc[k] else Bumped(acc, u, k)
      decreases todo
    {
      var k :| k in todo;
      todo := todo - {k};
      if fields[k].IntField? {
        var cur := if k in r then r[k] else 0;
        r := r[k := Wrap64(cur + fields[k].n)];
      }
    }
  }

  // ---- the run ----

  /** What the aggregator is asked: its model, the strategy's fixed instruction, the framed candidates. */
  datatype AggRequest = AggRequest(model: string, strategy: Strategy, content: string)

  datatype MoaRun = MoaRun(
    proposers: seq<ArmOutcome>, aggregator: Option<ArmOutcome>, outcome: Result<ChatResponse, Error>)

  function Outcomes(arms: seq<ArmRun>): (r: seq<ArmOutcome>)
    ensures |r| == |arms|
    ensures forall i :: 0 <= i < |r| ==> r[i] == arms[i].outcome
  {
    if arms == [] then [] else Outcomes(arms[..|arms|-1]) + [arms[|arms|-1].outcome]
  }

  /** The responses of the arms that have one, in the given order. */
  function Successes(arms: seq<ArmRun>): seq<ChatResponse> {
    if arms == [] then []
    else Successes(arms[..|arms|-1]) + (if arms[|arms|-1].response.Some? then [arms[|arms|-1].response.value] else [])
  }

  function Texts(responses: seq<ChatResponse>): (r: seq<string>)
    ensures |r| == |responses|
  {
    if responses == [] then [] else Texts(responses[..|responses|-1]) + [responses[|responses|-1].text]
  }

  function Usages(responses: seq<ChatResponse>): seq<UsageValue> {
    if responses == [] then []
    else Usages(responses[..|responses|-1])
         + (if responses[|responses|-1].usage.Some? then [responses[|responses|-1].usage.value] else [])
  }

  /** The run as a function of the arms in recipe order; the second part is the aggregator call, if one is made. */
  function RunResult(
    ctxModel: string, recipe: Recipe, messages: seq<F.ChatMessage>, arms: seq<ArmRun>, agg: ArmFate): (MoaRun, Option<AggRequest>)
  {
    var outcomes, successes := Outcomes(arms), Successes(arms);
    if |successes| < recipe.quorum then
      (MoaRun(outcomes, None, Err(MoaQuorumFailed(|successes|, recipe.quorum))), None)
    else if agg.upstreamId.None? then (MoaRun(outcomes, None, Err(Internal)), None)
    else
      var request := AggRequest(recipe.aggregator, recipe.strategy, F.Block(F.JoinLines(F.Visible(messages)), Texts(successes)));
      var aggregator := RunArm(0, recipe.aggregator, agg).outcome;
      var result :=
        match agg.end
        case TimedOut => Err(UpstreamTimeout)
        case Returned(Err(e)) => Err(e)
        case Returned(Ok(resp)) =>
          Ok(resp.(model := Some(ctxModel),
                   usage := Some(Summed(Usages(successes) + (if resp.usage.Some? then [resp.usage.value] else [])))));
      (MoaRun(outcomes, Some(aggregator), result), Some(request))
  }

  const OUTCOME: ArmRun -> Option<ArmOutcome> := (a: ArmRun) => Some(a.outcome)
  const RESPONSE: ArmRun -> Option<ChatResponse> := (a: ArmRun) => a.response

  function Seconds<A>(s: seq<(nat, A)>): (r: seq<A>)
    ensures |r| == |s|
  {
    if s == [] then [] else Seconds(s[..|s|-1]) + [s[|s|-1].1]
  }

  lemma {:induction false} SecondsOfPairs(arms: seq<ArmRun>)
    ensures Seconds(Pairs(arms, OUTCOME)) == Outcomes(arms)
    ensures Seconds(Pairs(arms, RESPONSE)) == Successes(arms)
  {
    if arms != [] {
      SecondsOfPairs(arms[..|arms|-1]);
      var last := arms[|arms|-1];
      SecondsAppend(Pairs(arms[..|arms|-1], OUTCOME), (last.idx, last.outcome));
      if last.response.Some? {
        SecondsAppend(Pairs(arms[..|arms|-1], RESPONSE), (last.idx, last.response.value));
      }
    }
  }

  lemma {:induction false} SecondsAppend<A>(s: seq<(nat, A)>, p: (nat, A))
    ensures Seconds(s + [p]) == Seconds(s) + [p.1]
  {
    assert (s + [p])[..|s|] == s;
  }

  /** The partition loop and the two sorts. */
  method Collect(runs: seq<ArmRun>) returns (proposers: seq<ArmOutcome>, successes: seq<ChatResponse>)
    ensures proposers == Seconds(SortByKey(Pairs(runs, OUTCOME)))
    ensures successes == Seconds(SortByKey(Pairs(runs, RESPONSE)))
  {
    var outcomesIdx: seq<(nat, ArmOutcome)> := [];
    var successesIdx: seq<(nat, ChatResponse)> := [];
    for n := 0 to |runs|
      invariant outcomesIdx == Pairs(runs[..n], OUTCOME) && successesIdx == Pairs(runs[..n], RESPONSE)
    {
      assert runs[..n+1][..n] == runs[..n];
      var a := runs[n];
      if a.response.Some? {
        successesIdx := successesIdx + [(a.idx, a.response.value)];
      }
      outcomesIdx := outcomesIdx + [(a.idx, a.outcome)];
    }
    assert runs[..|runs|] == runs;
    proposers, successes := Seconds(SortByKey(outcomesIdx)), Seconds(SortByKey(successesIdx));
  }

  /** The fan-out phase: whatever the order of arrival, outcomes and responses come out in recipe order. */
  method Propose(recipe: Recipe, fates: nat -> ArmFate, order: seq<nat>)
    returns (proposers: seq<ArmOutcome>, successes: seq<ChatResponse>)
    requires IsOrder(order, |recipe.proposers|)
    ensures proposers == Outcomes(Arms(recipe, fates)) && successes == Successes(Arms(recipe, fates))
  {
    var runs := FanOut(recipe, fates, order);
    proposers, successes := Collect(runs);
    ghost var arms := Arms(recipe, fates);
    SortRestoresRecipeOrder(arms, order, runs, OUTCOME);
    SortRestoresRecipeOrder(arms, order, runs, RESPONSE);
    SecondsOfPairs(arms);
  }

  // ---- what a caller sees, arm by arm ----

  /** The arm's call succeeded. */
  predicate Answers(f: ArmFate) { f.upstreamId.Some? && f.end.Returned? && f.end.result.Ok? }

  function AnswerOf(f: ArmFate): ChatResponse
    requires Answers(f)
  {
    f.end.result.value
  }

  /** The arms that answered, by their place in the recipe. */
  ghost predicate AreOkArms(ok: seq<nat>, n: nat, fates: nat -> ArmFate) {
    && (forall k :: 0 <= k < |ok| ==> ok[k] < n && Answers(fates(ok[k])))
    && (forall j, k :: 0 <= j < k < |ok| ==> ok[j] < ok[k])
    && (forall i :: 0 <= i < n && Answers(fates(i)) ==> i in ok)
  }

  /** What is known of an arm afterwards. */
  predicate Recorded(o: ArmOutcome, model: string, f: ArmFate) {
    && o.model == model && o.latencyMs == f.latencyMs
    && o.upstreamId == (if f.upstreamId.Some? then f.upstreamId.value else model)
    && (o.status == ArmOk <==> Answers(f))
    && (o.status == ArmTimeout <==> f.upstreamId.Some? && f.end.TimedOut?)
    && (!Answers(f) ==> !o.usagePresent && o.promptTokens == None && o.completionTokens == None)
    && (Answers(f) ==>
          var usage := f.end.result.value.usage;
          && o.usagePresent == usage.Some?
          && o.promptTokens == (if usage.Some? then IntOf(usage.value, "prompt_tokens") else None)
          && o.completionTokens == (if usage.Some? then IntOf(usage.value, "completion_tokens") else None))
  }

  lemma ArmIsRecorded(idx: nat, model: string, f: ArmFate)
    ensures Recorded(RunArm(idx, model, f).outcome, model, f)
    ensures RunArm(idx, model, f).response == if Answers(f) then Some(f.end.result.value) else None
  {
  }

  lemma {:induction false} FindOkArms(recipe: Recipe, fates: nat -> ArmFate, n: nat) returns (ok: seq<nat>)
    requires n <= |recipe.proposers|
    ensures AreOkArms(ok, n, fates)
    ensures var successes := Successes(Arms(recipe, fates)[..n]);
      |successes| == |ok| && forall k :: 0 <= k < |ok| ==> successes[k] == AnswerOf(fates(ok[k]))
  {
    if n == 0 {
      ok := [];
    } else {
      var arms := Arms(recipe, fates);
      ok := FindOkArms(recipe, fates, n - 1);
      assert arms[..n][..n-1] == arms[..n-1];
      ArmIsRecorded(n - 1, recipe.proposers[n-1], fates(n - 1));
      if Answers(fates(n - 1)) {
        ok := ok + [n - 1];
      }
    }
  }

  lemma {:induction false} TextsAt(responses: seq<ChatResponse>)
    ensures forall k :: 0 <= k < |responses| ==> Texts(responses)[k] == responses[k].text
  {
    if responses != [] {
      TextsAt(responses[..|responses|-1]);
    }
  }

  /** The question, read back: the texts of the arms that answered, sanitized, numbered in recipe order. */
  ghost predicate AsksInOrder(content: string, ok: seq<nat>, fates: nat -> ArmFate)
    requires forall k :: 0 <= k < |ok| ==> Answers(fates(ok[k]))
  {
    var read := S.Scan(content, 1);
    && read.Some? && |read.value| == |ok|
    && forall k :: 0 <= k < |ok| ==> read.value[k] == F.Sanitize(AnswerOf(fates(ok[k])).text)
  }

  /** What a run tells its caller, in terms of the fates of the arms and of the aggregator alone. */
  ghost predicate Tells(
    recipe: Recipe, ctxModel: string, original: string, fates: nat -> ArmFate, agg: ArmFate, ok: seq<nat>,
    run: MoaRun, asked: Option<AggRequest>)
    requires AreOkArms(ok, |recipe.proposers|, fates)
  {
    && |run.proposers| == |recipe.proposers|
    && (forall i :: 0 <= i < |recipe.proposers| ==> Recorded(run.proposers[i], recipe.proposers[i], fates(i)))
    && (|ok| < recipe.quorum ==>
          run.outcome == Err(MoaQuorumFailed(|ok|, recipe.quorum)) && run.aggregator == None && asked == None)
    && (|ok| >= recipe.quorum && agg.upstreamId.None? ==> run.outcome == Err(Internal) && run.aggregator == None && asked == None)
    && (|ok| >= recipe.quorum && agg.upstreamId.Some? ==>
          && asked.Some? && asked.value.model == recipe.aggregator && asked.value.strategy == recipe.strategy
          && (!F.HasTriple(original, '<') ==> AsksInOrder(asked.value.content, ok, fates))
          && run.aggregator.Some? && Recorded(run.aggregator.value, recipe.aggregator, agg)
          && match agg.end
             case TimedOut => run.outcome == Err(UpstreamTimeout)
             case Returned(Err(e)) => run.outcome == Err(e)
             case Returned(Ok(resp)) =>
               && run.outcome.Ok? && run.outcome.value.body == resp.body && run.outcome.value.text == resp.text
               && run.outcome.value.model == Some(ctxModel) && run.outcome.value.usage.Some?)
  }

  lemma {:induction false} RunTells(
    recipe: Recipe, ctxModel: string, messages: seq<F.ChatMessage>, fates: nat -> ArmFate, agg: ArmFate) returns (ok: seq<nat>)
    ensures AreOkArms(ok, |recipe.proposers|, fates)
    ensures var (run, asked) := RunResult(ctxModel, recipe, messages, Arms(recipe, fates), agg);
      Tells(recipe, ctxModel, F.JoinLines(F.Visible(messages)), fates, agg, ok, run, asked)
  {
    hide AsksInOrder, Recorded, Successes, Outcomes, Summed, Usages, F.HasTriple, F.Block;
    var arms := Arms(recipe, fates);
    ok := FindOkArms(recipe, fates, |recipe.proposers|);
    assert arms[..|recipe.proposers|] == arms;
    forall i | 0 <= i < |arms| ensures Recorded(arms[i].outcome, recipe.proposers[i], fates(i)) {
      ArmIsRecorded(i, recipe.proposers[i], fates(i));
    }
    ArmIsRecorded(0, recipe.aggregator, agg);
    QuestionIsInOrder(F.JoinLines(F.Visible(messages)), Successes(arms), ok, fates);
  }

  lemma {:induction false} QuestionIsInOrder(original: string, successes: seq<ChatResponse>, ok: seq<nat>, fates: nat -> ArmFate)
    requires forall k :: 0 <= k < |ok| ==> Answers(fates(ok[k]))
    requires |successes| == |ok| && forall k :: 0 <= k < |ok| ==> successes[k] == AnswerOf(fates(ok[k]))
    ensures !F.HasTriple(original, '<') ==> AsksInOrder(F.Block(original, Texts(successes)), ok, fates)
  {
    hide F.Block, F.Sanitize, S.Scan, F.HasTriple, Texts;
    TextsAt(successes);
    S.FramingRoundTrip(original, Texts(successes));
  }

  /**
    A whole run. Its result is that of the arms in recipe order: it does not depend on `order`, the
    order in which they finish. An unknown recipe is refused before any arm runs. `ok` are the arms that
    answered; the aggregator sees their texts as numbered candidates in recipe order.
  */
  method Run(
    recipes: map<string, Recipe>, name: string, ctxModel: string, messages: seq<F.ChatMessage>,
    fates: nat -> ArmFate, order: seq<nat>, agg: ArmFate)
    returns (r: Result<MoaRun, Error>, asked: Option<AggRequest>, ghost ok: seq<nat>)
    requires name in recipes ==> IsOrder(order, |recipes[name].proposers|)
    ensures name !in recipes ==> r == Err(ModelNotFound("moa/" + name)) && asked == None
    ensures name in recipes ==>
      var (run, request) := RunResult(ctxModel, recipes[name], messages, Arms(recipes[name], fates), agg);
      r == Ok(run) && asked == request
    ensures name in recipes ==>
      && AreOkArms(ok, |recipes[name].proposers|, fates)
      && r.Ok? && Tells(recipes[name], ctxModel, F.JoinLines(F.Visible(messages)), fates, agg, ok, r.value, asked)
  {
    hide Tells, AreOkArms;
    asked, ok := None, [];
    if name !in recipes {
      return Err(ModelNotFound("moa/" + name)), None, [];
    }
    var recipe := recipes[name];
    ok := RunTells(recipe, ctxModel, messages, fates, agg);
    var proposers, successes := Propose(recipe, fates, order);
    if |successes| < recipe.quorum {
      return Ok(MoaRun(proposers, None, Err(MoaQuorumFailed(|successes|, recipe.quorum)))), None, ok;
    }
    var content := F.CandidateBlock(messages, Texts(successes));
    if agg.upstreamId.None? {
      return Ok(MoaRun(proposers, None, Err(Internal))), None, ok;
    }
    asked := Some(AggRequest(recipe.aggregator, recipe.strategy, content));
    r := Aggregate(recipe, ctxModel, agg, proposers, successes);
  }

  /** After the aggregator call: its outcome is surfaced whatever it is, and on success usage is summed. */
  method Aggregate(recipe: Recipe, ctxModel: string, agg: ArmFate, proposers: seq<ArmOutcome>, successes: seq<ChatResponse>)
    returns (r: Result<MoaRun, Error>)
    requires agg.upstreamId.Some?
    ensures r == Ok(MoaRun(proposers, Some(RunArm(0, recipe.aggregator, agg).outcome),
      match agg.end
      case TimedOut => Err(UpstreamTimeout)
      case Returned(Err(e)) => Err(e)
      case Returned(Ok(resp)) =>
        Ok(resp.(model := Some(ctxModel),
                 usage := Some(Summed(Usages(successes) + (if resp.usage.Some? then [resp.usage.value] else [])))))))
  {
    var id := agg.upstreamId.value;
    match agg.end {
      case TimedOut =>
        var failed := ArmOutcome(recipe.aggregator, id, agg.latencyMs, ArmTimeout, false, None, None);
        r := Ok(MoaRun(proposers, Some(failed), Err(UpstreamTimeout)));
      case Returned(Err(e)) =>
        var failed := ArmOutcome(recipe.aggregator, id, agg.latencyMs, ArmError, false, None, None);
        r := Ok(MoaRun(proposers, Some(failed), Err(e)));
      case Returned(Ok(resp)) =>
        var (pt, ct) := ExtractTokens(resp.usage);
        var done := ArmOutcome(recipe.aggregator, id, agg.latencyMs, ArmOk, resp.usage.Some?, pt, ct);
        var usages := Usages(successes);
        if resp.usage.Some? {
          usages := usages + [resp.usage.value];
        }
        var summed := SumUsage(usages);
        assert Usages(successes) + [] == Usages(successes);
        r := Ok(MoaRun(proposers, Some(done), Ok(resp.(model := Some(ctxModel), usage := Some(summed)))));
    }
  }

  // ---- what a run guarantees ----

  function OkArms(arms: seq<ArmRun>): nat {
    if arms == [] then 0 else OkArms(arms[..|arms|-1]) + (if arms[|arms|-1].outcome.status == ArmOk then 1 else 0)
  }

  lemma {:induction false} SuccessesAreOkArms(arms: seq<ArmRun>)
    requires forall i :: 0 <= i < |arms| ==> arms[i].response.Some? == (arms[i].outcome.status == ArmOk)
    ensures |Successes(arms)| == OkArms(arms)
  {
    if arms != [] {
      SuccessesAreOkArms(arms[..|arms|-1]);
    }
  }

  /**
    The quorum gate: the aggregator is asked if and only if at least `quorum` arms are ok and it has a
    provider; below quorum the error carries the exact counts. Whatever happens there is one outcome per
    proposer, in recipe order, repeated names included.
  */
  lemma QuorumGate(ctxModel: string, recipe: Recipe, messages: seq<F.ChatMessage>, fates: nat -> ArmFate, agg: ArmFate)
    ensures var arms := Arms(recipe, fates);
      var (run, request) := RunResult(ctxModel, recipe, messages, arms, agg);
      && (request.Some? <==> OkArms(arms) >= recipe.quorum && agg.upstreamId.Some?)
      && (OkArms(arms) < recipe.quorum <==> run.outcome == Err(MoaQuorumFailed(OkArms(arms), recipe.quorum)) && run.aggregator.None?)
      && (request.Some? <==> run.aggregator.Some?)
      && |run.proposers| == |recipe.proposers|
      && forall i :: 0 <= i < |recipe.proposers| ==> run.proposers[i].model == recipe.proposers[i]
  {
    var arms := Arms(recipe, fates);
    SuccessesAreOkArms(arms);
  }
}
