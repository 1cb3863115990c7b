/**
 Cost estimates and the search for a cheaper model (core/budget_controller.py,
 `estimate_cost`, `suggest_downgrade`, `pre_check`, `auto_downgrade`).

 The price and tier tables are a parameter; `ARCANE` holds those of the program.
 */
module BudgetDowngrade {
  import opened Common
  import opened BudgetLedger

  /** Units of 1e-8 USD per token. */
  datatype Pricing = Pricing(input: nat, output: nat)

  datatype Category = TextWork | PhotoWork | ReviewWork | DesignWork | CodeWork

  datatype Registry = Registry(
    prices: map<string, Pricing>, images: map<string, nat>, tiers: map<Category, seq<string>>)

  /** What a run is expected to use. */
  datatype Plan = Plan(inputTokens: int, outputTokens: int, imageModel: string, images: int, credits: int)

  datatype Cost = Cost(amount: int) | UnknownModel(name: string) | NegativeInput

  /** $0.00125 per Manus credit. */
  const MANUS_CREDIT: int := 125_000

  // ---------------------------------------------------------------------------------------
  // Estimates
  // ---------------------------------------------------------------------------------------

  function LlmCost(reg: Registry, model: string, inputTokens: int, outputTokens: int): Cost {
    if inputTokens < 0 || outputTokens < 0 then NegativeInput
    else if model !in reg.prices then UnknownModel(model)
    else Cost(reg.prices[model].input * inputTokens + reg.prices[model].output * outputTokens)
  }

  function ImageCost(reg: Registry, imageModel: string, count: int): Cost {
    if count < 0 then NegativeInput
    else if imageModel !in reg.images then UnknownModel(imageModel)
    else Cost(reg.images[imageModel] * count)
  }

  function ManusCost(credits: int): Cost {
    if credits < 0 then NegativeInput else Cost(credits * MANUS_CREDIT)
  }

  function Plus(a: Cost, b: Cost): Cost {
    if !a.Cost? then a else if !b.Cost? then b else Cost(a.amount + b.amount)
  }

  /** The part of an estimate that depends on the model. */
  function TokenCost(reg: Registry, model: string, plan: Plan): Cost {
    if model != "" && model != "manus" && (plan.inputTokens != 0 || plan.outputTokens != 0)
    then LlmCost(reg, model, plan.inputTokens, plan.outputTokens) else Cost(0)
  }

  function Estimate(reg: Registry, model: string, plan: Plan): Cost {
    var llm := TokenCost(reg, model, plan);
    var images := if plan.imageModel != "" && plan.images != 0
                  then ImageCost(reg, plan.imageModel, plan.images) else Cost(0);
    var manus := if plan.credits != 0 then ManusCost(plan.credits) else Cost(0);
    Plus(Plus(llm, images), manus)
  }

  predicate NoNegatives(p: Plan) {
    p.inputTokens >= 0 && p.outputTokens >= 0 && p.images >= 0 && p.credits >= 0
  }

  /** Two plans together. */
  function Together(a: Plan, b: Plan): Plan {
    Plan(a.inputTokens + b.inputTokens, a.outputTokens + b.outputTokens, a.imageModel, a.images + b.images,
         a.credits + b.credits)
  }

  lemma TokensAdd(reg: Registry, model: string, a: Plan, b: Plan)
    requires NoNegatives(a) && NoNegatives(b) && TokenCost(reg, model, a).Cost? && TokenCost(reg, model, b).Cost?
    ensures TokenCost(reg, model, Together(a, b))
            == Cost(TokenCost(reg, model, a).amount + TokenCost(reg, model, b).amount)
  {
    if model in reg.prices {
      Spread(reg.prices[model].input, a.inputTokens, b.inputTokens);
      Spread(reg.prices[model].output, a.outputTokens, b.outputTokens);
    }
  }

  lemma Spread(p: int, m: int, n: int)
    ensures p * (m + n) == p * m + p * n
  {
  }

  /** Estimates add up: planning two runs at once costs what they cost one by one. */
  lemma EstimatesAdd(reg: Registry, model: string, a: Plan, b: Plan)
    requires NoNegatives(a) && NoNegatives(b) && a.imageModel == b.imageModel
    requires Estimate(reg, model, a).Cost? && Estimate(reg, model, b).Cost?
    ensures Estimate(reg, model, Together(a, b))
            == Cost(Estimate(reg, model, a).amount + Estimate(reg, model, b).amount)
  {
    hide TokenCost;
    TokensAdd(reg, model, a, b);
    if a.imageModel in reg.images {
      Spread(reg.images[a.imageModel], a.images, b.images);
    }
  }

  /** And each single unit costs its price: a token that of the model, an image that of the image
      model, a credit $0.00125. */
  lemma UnitEstimates(reg: Registry, model: string, imageModel: string)
    requires model in reg.prices && model != "" && model != "manus" && imageModel in reg.images && imageModel != ""
    ensures Estimate(reg, model, Plan(1, 0, imageModel, 0, 0)) == Cost(reg.prices[model].input)
    ensures Estimate(reg, model, Plan(0, 1, imageModel, 0, 0)) == Cost(reg.prices[model].output)
    ensures Estimate(reg, model, Plan(0, 0, imageModel, 1, 0)) == Cost(reg.images[imageModel])
    ensures Estimate(reg, model, Plan(0, 0, imageModel, 0, 1)) == Cost(125_000)
  {
    var p := reg.prices[model];
    assert TokenCost(reg, model, Plan(1, 0, imageModel, 0, 0)) == Cost(p.input);
    assert TokenCost(reg, model, Plan(0, 1, imageModel, 0, 0)) == Cost(p.output);
    UnitsBesideTokens(reg, model, imageModel);
    hide TokenCost, ImageCost, ManusCost;
  }

  lemma UnitsBesideTokens(reg: Registry, model: string, imageModel: string)
    requires imageModel in reg.images && imageModel != ""
    ensures Estimate(reg, model, Plan(0, 0, imageModel, 1, 0)) == Cost(reg.images[imageModel])
    ensures Estimate(reg, model, Plan(0, 0, imageModel, 0, 1)) == Cost(125_000)
  {
    assert TokenCost(reg, model, Plan(0, 0, imageModel, 1, 0)) == Cost(0);
    assert TokenCost(reg, model, Plan(0, 0, imageModel, 0, 1)) == Cost(0);
    hide TokenCost;
    assert ImageCost(reg, imageModel, 1) == Cost(reg.images[imageModel]) && ManusCost(1) == Cost(125_000);
    hide ImageCost, ManusCost;
  }

  /** Tokens of a model that has no price fail as unknown, and negative ones as negative input. */
  lemma TokenErrors(reg: Registry, model: string, p: Plan)
    ensures var cost := TokenCost(reg, model, p);
            var used := model !in {"", "manus"} && !(p.inputTokens == 0 == p.outputTokens);
            && (cost == NegativeInput <==> used && (p.inputTokens < 0 || p.outputTokens < 0))
            && (cost.UnknownModel? <==> used && p.inputTokens >= 0 && p.outputTokens >= 0 && model !in reg.prices)
            && (cost.UnknownModel? ==> cost.name == model)
  {
  }

  /** When an estimate fails, and how: tokens are looked at first, then images, then credits, each only
      if there are any. */
  lemma EstimateFails(reg: Registry, model: string, p: Plan)
    ensures var (cost, tokens) := (Estimate(reg, model, p), TokenCost(reg, model, p));
            var images := p.imageModel != "" && p.images != 0;
            if !tokens.Cost? then cost == tokens
            else if images && p.images < 0 then cost == NegativeInput
            else if images && p.imageModel !in reg.images then cost == UnknownModel(p.imageModel)
            else if p.credits < 0 then cost == NegativeInput
            else cost.Cost?
  {
    hide TokenCost;
  }

  // ---------------------------------------------------------------------------------------
  // Suggesting the next model
  // ---------------------------------------------------------------------------------------

  function Tier(reg: Registry, category: Category): seq<string> {
    if category in reg.tiers then reg.tiers[category] else []
  }

  /** First index, as `list.index`; |tier| if absent. */
  function IndexOf(tier: seq<string>, model: string): (i: nat)
    ensures i <= |tier|
    ensures i < |tier| ==> tier[i] == model
    ensures model in tier ==> i < |tier|
  {
    if tier == [] || tier[0] == model then 0 else 1 + IndexOf(tier[1..], model)
  }

  /** Input plus output price; a candidate without a price counts as free. */
  function TotalPrice(reg: Registry, model: string): nat {
    if model in reg.prices then reg.prices[model].input + reg.prices[model].output else 0
  }

  /** Index of the first candidate cheaper than a model outside the tier; a model without a
      price is dearer than everything. */
  function FirstCheaper(reg: Registry, tier: seq<string>, model: string): (i: nat)
    ensures i <= |tier|
  {
    if tier == [] || model !in reg.prices || TotalPrice(reg, tier[0]) < TotalPrice(reg, model) then 0
    else 1 + FirstCheaper(reg, tier[1..], model)
  }

  function SuggestDowngrade(reg: Registry, model: string, category: Category): Option<string> {
    var tier := Tier(reg, category);
    var next := if model in tier then IndexOf(tier, model) + 1 else FirstCheaper(reg, tier, model);
    if next < |tier| then Some(tier[next]) else None
  }

  /** A candidate is cheaper in total than a model of this total; one without a price is free. */
  predicate CheaperThan(reg: Registry, candidate: string, total: int) {
    (candidate in reg.prices && reg.prices[candidate].input + reg.prices[candidate].output < total)
    || (candidate !in reg.prices && 0 < total)
  }

  lemma {:induction false} FirstCheaperIs(reg: Registry, tier: seq<string>, model: string)
    requires model in reg.prices
    ensures var (k, total) := (FirstCheaper(reg, tier, model), reg.prices[model].input + reg.prices[model].output);
            && (k < |tier| ==> CheaperThan(reg, tier[k], total))
            && forall j | 0 <= j < k :: !CheaperThan(reg, tier[j], total)
  {
    if tier != [] {
      FirstCheaperIs(reg, tier[1..], model);
      var k := FirstCheaper(reg, tier, model);
      assert forall j | 0 < j < k :: tier[j] == tier[1..][j - 1];
    }
  }

  /** The suggestion for a model outside the tier: the first candidate cheaper in total, and the first
      of all for a model without a price. */
  lemma OutsideSuggestion(reg: Registry, model: string, category: Category)
    requires model !in Tier(reg, category)
    ensures var (tier, next) := (Tier(reg, category), SuggestDowngrade(reg, model, category));
            && (model !in reg.prices ==> next == if tier == [] then None else Some(tier[0]))
            && (model in reg.prices ==>
                  var total := reg.prices[model].input + reg.prices[model].output;
                  if forall j | 0 <= j < |tier| :: !CheaperThan(reg, tier[j], total) then next == None
                  else exists k | 0 <= k < |tier| ::
                         && next == Some(tier[k]) && CheaperThan(reg, tier[k], total)
                         && forall j | 0 <= j < k :: !CheaperThan(reg, tier[j], total))
  {
    hide CheaperThan;
    if model in reg.prices {
      FirstCheaperIs(reg, Tier(reg, category), model);
      hide FirstCheaper;
    }
  }

  // ---------------------------------------------------------------------------------------
  // The search
  // ---------------------------------------------------------------------------------------

  /** `Fits` names the model to use; the other outcomes are the exceptions. */
  datatype Outcome = Fits(model: string) | BudgetExceeded(model: string, scope: Scope) | Failed(error: Cost)

  predicate NoDuplicates(s: seq<string>) {
    forall i, j | 0 <= i < j < |s| :: s[i] != s[j]
  }

  /** The models the search can try, in order. */
  function Walk(reg: Registry, model: string, category: Category): seq<string> {
    var tier := Tier(reg, category);
    if model in tier then tier[IndexOf(tier, model)..] else [model] + tier[FirstCheaper(reg, tier, model)..]
  }

  /** The reference: the first model of a list whose cost fits. */
  function FirstFit(b: Book, reg: Registry, project: string, task: string, month: string, plan: Plan,
                    walk: seq<string>): Outcome
    requires walk != []
    decreases |walk|
  {
    var cost := Estimate(reg, walk[0], plan);
    if !cost.Cost? then Failed(cost)
    else if !WouldExceed(b, project, task, month, cost.amount).0 then Fits(walk[0])
    else if |walk| == 1 then BudgetExceeded(walk[0], WouldExceed(b, project, task, month, cost.amount).1)
    else FirstFit(b, reg, project, task, month, plan, walk[1..])
  }

  lemma {:induction false} IndexOfDistinct(tier: seq<string>, i: nat)
    requires NoDuplicates(tier) && i < |tier|
    ensures IndexOf(tier, tier[i]) == i
  {
    if i > 0 {
      assert tier[1..][i - 1] == tier[i];
      IndexOfDistinct(tier[1..], i - 1);
    }
  }

  lemma SuffixDistinct(tier: seq<string>, k: nat, first: seq<string>)
    requires NoDuplicates(tier) && k <= |tier| && |first| <= 1 && (first != [] ==> first[0] !in tier)
    ensures NoDuplicates(first + tier[k..])
  {
    var s := first + tier[k..];
    assert forall i | |first| <= i < |s| :: s[i] == tier[k + i - |first|];
  }

  lemma WalkIs(reg: Registry, model: string, category: Category)
    ensures var tier, walk := Tier(reg, category), Walk(reg, model, category);
            if model in tier then walk == [] + tier[IndexOf(tier, model)..]
            else walk == [model] + tier[FirstCheaper(reg, tier, model)..]
  {
  }

  lemma SuggestionIs(reg: Registry, model: string, category: Category)
    ensures var tier := Tier(reg, category);
            var next := if model in tier then IndexOf(tier, model) + 1 else FirstCheaper(reg, tier, model);
            SuggestDowngrade(reg, model, category) == if next < |tier| then Some(tier[next]) else None
  {
  }

  /** Suggestions follow the walk to its end, and the walk never comes back to a model. */
  lemma WalkSteps(reg: Registry, model: string, category: Category, k: nat)
    requires NoDuplicates(Tier(reg, category)) && k < |Walk(reg, model, category)|
    ensures var walk := Walk(reg, model, category);
            && NoDuplicates(walk) && walk[0] == model
            && SuggestDowngrade(reg, walk[k], category) == if k + 1 < |walk| then Some(walk[k + 1]) else None
  {
    hide Tier, Walk, SuggestDowngrade, FirstCheaper, IndexOf, NoDuplicates;
    var tier, walk := Tier(reg, category), Walk(reg, model, category);
    WalkIs(reg, model, category);
    SuggestionIs(reg, walk[k], category);
    if model in tier {
      var base := IndexOf(tier, model);
      SuffixDistinct(tier, base, []);
      assert walk[k] == tier[base + k];
      IndexOfDistinct(tier, base + k);
    } else {
      var base := FirstCheaper(reg, tier, model);
      SuffixDistinct(tier, base, [model]);
      if k > 0 {
        assert walk[k] == tier[base + k - 1];
        IndexOfDistinct(tier, base + k - 1);
      }
    }
  }

  /** `auto_downgrade`.  With tiers free of duplicates, as the program's are, the loop with its
      `visited` set finds the first model on the walk that fits.  With any tiers it terminates, and
      a model it returns fits, an exception for the budget names a model that exceeds it. */
  method AutoDowngrade(b: Book, reg: Registry, project: string, task: string, month: string,
                       model: string, category: Category, plan: Plan) returns (outcome: Outcome)
    ensures Walk(reg, model, category) != []
    ensures NoDuplicates(Tier(reg, category)) ==>
              outcome == FirstFit(b, reg, project, task, month, plan, Walk(reg, model, category))
    ensures outcome.Fits? ==>
              && FitsAll(b, reg, project, task, month, plan, outcome.model)
              && (outcome.model == model || outcome.model in Tier(reg, category))
    ensures outcome.BudgetExceeded? ==> Exceeds(b, reg, project, task, month, plan, outcome.model)
    ensures outcome.Failed? ==> !outcome.error.Cost?
  {
    hide FirstCheaper, IndexOf, Estimate, WouldExceed, Walk, SuggestDowngrade;
    var current, visited := model, {model};
    ghost var walk, k := Walk(reg, model, category), 0;
    WalkStart(reg, model, category);
    ghost var tier := set m | m in Tier(reg, category);
    ghost var distinct := NoDuplicates(Tier(reg, category));
    while true
      invariant current == model || current in Tier(reg, category)
      invariant distinct ==> k < |walk| && current == walk[k]
      invariant distinct ==> visited == set i | 0 <= i <= k :: walk[i]
      invariant distinct ==> FirstFit(b, reg, project, task, month, plan, walk)
                             == FirstFit(b, reg, project, task, month, plan, walk[k..])
      decreases tier - visited
    {
      var cost := Estimate(reg, current, plan);
      if !cost.Cost? {
        return Failed(cost);
      }
      var (exceeds, scope) := WouldExceed(b, project, task, month, cost.amount);
      if !exceeds {
        return Fits(current);
      }
      var next := SuggestDowngrade(reg, current, category);
      SuggestionInTier(reg, current, category);
      if distinct {
        WalkSteps(reg, model, category, k);
      }
      if next == None || next.value in visited {
        return BudgetExceeded(current, scope);
      }
      visited, current := visited + {next.value}, next.value;
      assert distinct ==> walk[k..][1..] == walk[k + 1..];
      k := k + 1;
    }
  }

  lemma WalkStart(reg: Registry, model: string, category: Category)
    ensures Walk(reg, model, category) != [] && Walk(reg, model, category)[0] == model
  {
  }

  lemma SuggestionInTier(reg: Registry, model: string, category: Category)
    ensures SuggestDowngrade(reg, model, category).Some? ==>
              SuggestDowngrade(reg, model, category).value in Tier(reg, category)
  {
  }

  // ---------------------------------------------------------------------------------------
  // What the search guarantees
  // ---------------------------------------------------------------------------------------

  /** Model `m` is priced for the plan and would exceed a limit. */
  predicate Exceeds(b: Book, reg: Registry, project: string, task: string, month: string, plan: Plan, m: string) {
    var cost := Estimate(reg, m, plan);
    cost.Cost? && WouldExceed(b, project, task, month, cost.amount).0
  }

  predicate FitsAll(b: Book, reg: Registry, project: string, task: string, month: string, plan: Plan, m: string) {
    var cost := Estimate(reg, m, plan);
    cost.Cost? && !WouldExceed(b, project, task, month, cost.amount).0
  }

  /** The outcome is decided at position `k` of the walk; every model before it exceeds. */
  lemma {:induction false} FirstFitDecidedAt(b: Book, reg: Registry, project: string, task: string, month: string,
                                             plan: Plan, walk: seq<string>) returns (k: nat)
    requires walk != []
    ensures k < |walk| && forall j | 0 <= j < k :: Exceeds(b, reg, project, task, month, plan, walk[j])
    ensures match FirstFit(b, reg, project, task, month, plan, walk)
            case Fits(m) => m == walk[k] && FitsAll(b, reg, project, task, month, plan, m)
            case Failed(e) => e == Estimate(reg, walk[k], plan) && !e.Cost?
            case BudgetExceeded(m, _) =>
              k == |walk| - 1 && m == walk[k] && Exceeds(b, reg, project, task, month, plan, m)
    decreases |walk|
  {
    hide Estimate, WouldExceed;
    if Exceeds(b, reg, project, task, month, plan, walk[0]) && |walk| > 1 {
      var j := FirstFitDecidedAt(b, reg, project, task, month, plan, walk[1..]);
      k := j + 1;
      assert forall i | 0 < i < k :: walk[i] == walk[1..][i - 1];
    } else {
      k := 0;
    }
  }

  /** A model the search returns fits all three limits; if it is not the requested one, it is
      strictly cheaper for this very plan than every model tried before it, sorted tiers or not. */
  lemma DowngradeIsCheaper(b: Book, reg: Registry, project: string, task: string, month: string, plan: Plan,
                           walk: seq<string>)
    requires walk != [] && FirstFit(b, reg, project, task, month, plan, walk).Fits?
    ensures var m := FirstFit(b, reg, project, task, month, plan, walk).model;
            && FitsAll(b, reg, project, task, month, plan, m)
            && exists k | 0 <= k < |walk| :: walk[k] == m &&
                 forall j | 0 <= j < k :: Estimate(reg, walk[j], plan).Cost?
                                          && Estimate(reg, walk[j], plan).amount > Estimate(reg, m, plan).amount
  {
    hide Estimate, WouldExceed;
    var k := FirstFitDecidedAt(b, reg, project, task, month, plan, walk);
    var m := walk[k];
    forall j | 0 <= j < k
      ensures Estimate(reg, walk[j], plan).Cost? && Estimate(reg, walk[j], plan).amount > Estimate(reg, m, plan).amount
    {
      assert Exceeds(b, reg, project, task, month, plan, walk[j]);
      var cost := Estimate(reg, walk[j], plan).amount;
      if cost <= Estimate(reg, m, plan).amount {
        ExceedsIsMonotone(b, project, task, month, cost, Estimate(reg, m, plan).amount);
      }
    }
  }

  /** BudgetExceededError is raised exactly when every model on the walk is priced and exceeds a
      limit. */
  lemma ExceededIffAllExceed(b: Book, reg: Registry, project: string, task: string, month: string, plan: Plan,
                             walk: seq<string>)
    requires walk != []
    ensures FirstFit(b, reg, project, task, month, plan, walk).BudgetExceeded?
            <==> forall j | 0 <= j < |walk| :: Exceeds(b, reg, project, task, month, plan, walk[j])
  {
    hide Estimate, WouldExceed, FirstFit;
    var k := FirstFitDecidedAt(b, reg, project, task, month, plan, walk);
    assert FirstFit(b, reg, project, task, month, plan, walk).BudgetExceeded?
           <==> Exceeds(b, reg, project, task, month, plan, walk[k]);
  }

  datatype PreRun = PreRun(cost: int, wouldExceed: bool, scope: Scope, suggestion: Option<string>)

  /** `pre_check` on an estimate that did not raise. */
  function PreCheck(b: Book, reg: Registry, project: string, task: string, month: string, model: string,
                    category: Category, plan: Plan): PreRun
    requires Estimate(reg, model, plan).Cost?
  {
    var cost := Estimate(reg, model, plan).amount;
    var (exceeds, scope) := WouldExceed(b, project, task, month, cost);
    PreRun(cost, exceeds, scope, if exceeds then SuggestDowngrade(reg, model, category) else None)
  }

  /** The check before a run and the search agree: no warning exactly when the search keeps the
      requested model, and the suggestion is the second model of the walk. */
  lemma PreCheckAgrees(b: Book, reg: Registry, project: string, task: string, month: string, model: string,
                       category: Category, plan: Plan)
    requires NoDuplicates(Tier(reg, category)) && Estimate(reg, model, plan).Cost?
    ensures var walk := Walk(reg, model, category);
            var check := PreCheck(b, reg, project, task, month, model, category, plan);
            && walk != []
            && (!check.wouldExceed <==> FirstFit(b, reg, project, task, month, plan, walk) == Fits(model))
            && (check.wouldExceed ==> check.suggestion == if |walk| > 1 then Some(walk[1]) else None)
  {
    hide Estimate, WouldExceed, Walk, SuggestDowngrade, Tier;
    WalkStart(reg, model, category);
    WalkSteps(reg, model, category, 0);
    var walk := Walk(reg, model, category);
    var k := FirstFitDecidedAt(b, reg, project, task, month, plan, walk);
    assert k > 0 ==> walk[k] != model && Exceeds(b, reg, project, task, month, plan, walk[0]);
  }

  // ---------------------------------------------------------------------------------------
  // The program's tables
  // ---------------------------------------------------------------------------------------

  const ARCANE: Registry := Registry(
    map["claude-opus-4.6" := Pricing(500, 2500), "claude-sonnet-4.6" := Pricing(300, 1500),
        "claude-haiku-4.5" := Pricing(100, 500), "gpt-5.4" := Pricing(250, 1500),
        "gpt-5.4-mini" := Pricing(75, 450), "gpt-5.4-nano" := Pricing(20, 125),
        "gemini-3.1-pro" := Pricing(200, 1200), "gemini-2.5-flash" := Pricing(30, 250),
        "deepseek-v3.2" := Pricing(28, 42), "minimax-m2.5" := Pricing(30, 120),
        "kimi-k2.5" := Pricing(0, 0), "step-3.5-flash" := Pricing(0, 0), "nemotron-3-super" := Pricing(0, 0)],
    map["flux-2-pro" := 5_500_000, "midjourney-v8" := 10_000_000, "ideogram-v3" := 4_000_000,
        "recraft-v4" := 4_000_000, "flux-2-schnell" := 1_500_000, "pexels" := 0],
    map[TextWork := ["claude-sonnet-4.6", "gpt-5.4-mini", "deepseek-v3.2", "step-3.5-flash"],
        PhotoWork := ["flux-2-pro", "ideogram-v3", "recraft-v4", "flux-2-schnell", "pexels"],
        ReviewWork := ["gpt-5.4", "claude-sonnet-4.6", "gemini-2.5-flash", "deepseek-v3.2"],
        DesignWork := ["claude-sonnet-4.6", "gemini-3.1-pro", "deepseek-v3.2", "kimi-k2.5"],
        CodeWork := ["claude-opus-4.6", "gpt-5.4", "claude-sonnet-4.6", "gemini-3.1-pro", "deepseek-v3.2"]])

  /** The program's tiers hold no model twice. */
  lemma ArcaneTiersDistinct(category: Category)
    ensures NoDuplicates(Tier(ARCANE, category))
  {
    match category
    case TextWork =>
    case PhotoWork =>
    case ReviewWork =>
    case DesignWork =>
    case CodeWork =>
  }

  /** The whole price table. */
  predicate Listed(m: string, p: Pricing) {
    || (m == "claude-opus-4.6" && p == Pricing(500, 2500))
    || (m == "claude-sonnet-4.6" && p == Pricing(300, 1500))
    || (m == "claude-haiku-4.5" && p == Pricing(100, 500))
    || (m == "gpt-5.4" && p == Pricing(250, 1500))
    || (m == "gpt-5.4-mini" && p == Pricing(75, 450))
    || (m == "gpt-5.4-nano" && p == Pricing(20, 125))
    || (m == "gemini-3.1-pro" && p == Pricing(200, 1200))
    || (m == "gemini-2.5-flash" && p == Pricing(30, 250))
    || (m == "deepseek-v3.2" && p == Pricing(28, 42))
    || (m == "minimax-m2.5" && p == Pricing(30, 120))
    || (m in {"kimi-k2.5", "step-3.5-flash", "nemotron-3-super"} && p == Pricing(0, 0))
  }

  lemma PriceIsListed(m: string)
    ensures m in ARCANE.prices ==> Listed(m, ARCANE.prices[m])
  {
  }

  predicate NoDearer(p: Pricing, q: Pricing) {
    p.input <= q.input && p.output <= q.output
  }

  /** Of two listed models, the one with the lower total price is no dearer in either price,
      unless it is gpt-5.4-nano or compared with it. */
  lemma LowerTotalIsCheaper(m: string, p: Pricing, n: string, q: Pricing)
    requires Listed(m, p) && Listed(n, q) && q.input + q.output < p.input + p.output
    ensures NoDearer(q, p) || n == "gpt-5.4-nano" || (m == "gpt-5.4-nano" && n == "deepseek-v3.2")
  {
  }

  lemma {:induction false} FirstCheaperIsCheaper(reg: Registry, tier: seq<string>, model: string)
    requires model in reg.prices && FirstCheaper(reg, tier, model) < |tier|
    ensures TotalPrice(reg, tier[FirstCheaper(reg, tier, model)]) < TotalPrice(reg, model)
  {
    if TotalPrice(reg, tier[0]) >= TotalPrice(reg, model) {
      FirstCheaperIsCheaper(reg, tier[1..], model);
    }
  }

  /** Neighbours in the tiers that hold language models. */
  predicate IsTierStep(m: string, n: string) {
    || (m == "claude-opus-4.6" && n == "gpt-5.4")
    || (m == "gpt-5.4" && n == "claude-sonnet-4.6")
    || (m == "claude-sonnet-4.6" && n in {"gpt-5.4-mini", "gemini-2.5-flash", "gemini-3.1-pro"})
    || (m in {"gpt-5.4-mini", "gemini-2.5-flash", "gemini-3.1-pro"} && n == "deepseek-v3.2")
    || (m == "deepseek-v3.2" && n in {"step-3.5-flash", "kimi-k2.5"})
  }

  lemma TierStep(category: Category, i: nat)
    requires i + 1 < |Tier(ARCANE, category)| && category != PhotoWork
    ensures IsTierStep(Tier(ARCANE, category)[i], Tier(ARCANE, category)[i + 1])
  {
    hide ARCANE, Tier;
    match category
    case TextWork => TextTier();
    case ReviewWork => ReviewTier();
    case DesignWork => DesignTier();
    case CodeWork => CodeTier();
  }

  lemma TierStepIsCheaper(m: string, p: Pricing, n: string, q: Pricing)
    requires Listed(m, p) && Listed(n, q) && IsTierStep(m, n)
    ensures NoDearer(q, p) || (m == "gpt-5.4" && n == "claude-sonnet-4.6")
  {
  }

  lemma NoNanoInTiers(category: Category)
    ensures "gpt-5.4-nano" !in Tier(ARCANE, category)
  {
    match category
    case TextWork =>
    case PhotoWork =>
    case ReviewWork =>
    case DesignWork =>
    case CodeWork =>
  }

  /** A suggestion for a priced model is no dearer in either price, with two exceptions. */
  lemma SuggestionIsCheaper(model: string, category: Category)
    requires SuggestDowngrade(ARCANE, model, category).Some?
    ensures var next := SuggestDowngrade(ARCANE, model, category).value;
            model in ARCANE.prices && next in ARCANE.prices ==>
              || NoDearer(ARCANE.prices[next], ARCANE.prices[model])
              || (model == "gpt-5.4" && next == "claude-sonnet-4.6")
              || (model == "gpt-5.4-nano" && next == "deepseek-v3.2")
  {
    hide ARCANE, Listed, NoDearer, IsTierStep;
    var tier, next := Tier(ARCANE, category), SuggestDowngrade(ARCANE, model, category).value;
    if model in ARCANE.prices && next in ARCANE.prices {
      PriceIsListed(model);
      PriceIsListed(next);
      if category == PhotoWork {
        SuggestionInTier(ARCANE, model, category);
        PhotoModelUnpriced(next);
      } else if model in tier {
        TierStep(category, IndexOf(tier, model));
        TierStepIsCheaper(model, ARCANE.prices[model], next, ARCANE.prices[next]);
      } else {
        FirstCheaperIsCheaper(ARCANE, tier, model);
        NoNanoInTiers(category);
        LowerTotalIsCheaper(model, ARCANE.prices[model], next, ARCANE.prices[next]);
      }
    }
  }

  /** Which suggestions of the program cost more than the model they replace: the step from
      gpt-5.4 to claude-sonnet-4.6 for every plan with input tokens; the one from gpt-5.4-nano to
      deepseek-v3.2 for plans with more than 83 input per 8 output tokens; and, for a run without
      a language model, every suggestion as soon as there are tokens. */
  predicate IsDearerStep(model: string, next: string, category: Category, plan: Plan) {
    || (model == "gpt-5.4" && next == "claude-sonnet-4.6" && plan.inputTokens > 0)
    || (model == "gpt-5.4-nano" && next == "deepseek-v3.2" && 8 * plan.inputTokens > 83 * plan.outputTokens)
    || (model in {"", "manus"} && category != PhotoWork && (plan.inputTokens > 0 || plan.outputTokens > 0))
  }

  lemma EstimateShift(reg: Registry, m: string, n: string, plan: Plan)
    requires Estimate(reg, m, plan).Cost? && Estimate(reg, n, plan).Cost?
    ensures TokenCost(reg, m, plan).Cost? && TokenCost(reg, n, plan).Cost?
    ensures Estimate(reg, n, plan).amount - Estimate(reg, m, plan).amount
            == TokenCost(reg, n, plan).amount - TokenCost(reg, m, plan).amount
  {
    hide TokenCost;
  }

  lemma DearerPrices(p: Pricing, q: Pricing, i: nat, o: nat)
    ensures NoDearer(q, p) ==> q.input * i + q.output * o <= p.input * i + p.output * o
  {
    if NoDearer(q, p) {
      TimesKeepsOrder(q.input, p.input, i);
      TimesKeepsOrder(q.output, p.output, o);
    }
  }

  lemma TimesKeepsOrder(a: nat, b: nat, n: nat)
    requires a <= b
    ensures a * n <= b * n
  {
  }

  lemma TierTop(category: Category)
    requires category != PhotoWork
    ensures Tier(ARCANE, category) != []
    ensures Tier(ARCANE, category)[0] in {"claude-sonnet-4.6", "gpt-5.4", "claude-opus-4.6"}
  {
    match category
    case TextWork =>
    case ReviewWork =>
    case DesignWork =>
    case CodeWork =>
  }

  lemma NotAModel(m: string)
    requires m in {"", "manus"}
    ensures m !in ARCANE.prices
  {
  }

  lemma FirstOfTier(model: string, category: Category)
    requires model in {"", "manus"} && SuggestDowngrade(ARCANE, model, category).Some? && category != PhotoWork
    ensures SuggestDowngrade(ARCANE, model, category).value in {"claude-sonnet-4.6", "gpt-5.4", "claude-opus-4.6"}
  {
    hide ARCANE;
    TierTop(category);
    NotAModel(model);
    if model in Tier(ARCANE, category) {
      TierNames(category, model);
    }
  }

  lemma TierNames(category: Category, m: string)
    requires m in Tier(ARCANE, category)
    ensures m != "" && m != "manus"
  {
    match category
    case TextWork =>
    case PhotoWork =>
    case ReviewWork =>
    case DesignWork =>
    case CodeWork =>
  }

  lemma NoTokensCostNothing(reg: Registry, m: string, plan: Plan)
    requires plan.inputTokens == 0 && plan.outputTokens == 0
    ensures TokenCost(reg, m, plan) == Cost(0)
  {
  }

  lemma TokenPrice(reg: Registry, m: string, plan: Plan)
    requires TokenCost(reg, m, plan).Cost? && m != "" && m != "manus"
    requires plan.inputTokens != 0 || plan.outputTokens != 0
    ensures m in reg.prices && plan.inputTokens >= 0 && plan.outputTokens >= 0
    ensures TokenCost(reg, m, plan).amount
            == reg.prices[m].input * plan.inputTokens + reg.prices[m].output * plan.outputTokens
  {
  }

  /** The arithmetic of the two exceptions, and of a step that starts without a language model. */
  lemma ListedPrices(m: string, p: Pricing, i: int, o: int)
    requires Listed(m, p)
    ensures m == "gpt-5.4" ==> p.input * i + p.output * o == 250 * i + 1500 * o
    ensures m == "claude-sonnet-4.6" ==> p.input * i + p.output * o == 300 * i + 1500 * o
    ensures m == "claude-opus-4.6" ==> p.input * i + p.output * o == 500 * i + 2500 * o
    ensures m == "gpt-5.4-nano" ==> p.input * i + p.output * o == 20 * i + 125 * o
    ensures m == "deepseek-v3.2" ==> p.input * i + p.output * o == 28 * i + 42 * o
  {
  }

  lemma ModelStepRaisesIff(model: string, category: Category, plan: Plan)
    requires SuggestDowngrade(ARCANE, model, category).Some? && model != "" && model != "manus"
    requires plan.inputTokens != 0 || plan.outputTokens != 0
    requires TokenCost(ARCANE, model, plan).Cost?
    requires TokenCost(ARCANE, SuggestDowngrade(ARCANE, model, category).value, plan).Cost?
    ensures var next := SuggestDowngrade(ARCANE, model, category).value;
            TokenCost(ARCANE, next, plan).amount > TokenCost(ARCANE, model, plan).amount
            <==> IsDearerStep(model, next, category, plan)
  {
    hide ARCANE, TokenCost, NoDearer, Listed;
    var next := SuggestDowngrade(ARCANE, model, category).value;
    SuggestionInTier(ARCANE, model, category);
    TierNames(category, next);
    SuggestionIsCheaper(model, category);
    hide SuggestDowngrade, Tier;
    TokenPrice(ARCANE, model, plan);
    TokenPrice(ARCANE, next, plan);
    PriceIsListed(model);
    PriceIsListed(next);
    var p, q := ARCANE.prices[model], ARCANE.prices[next];
    hide IsDearerStep;
    PricesRaiseIff(model, p, next, q, category, plan);
  }

  lemma PricesRaiseIff(m: string, p: Pricing, n: string, q: Pricing, category: Category, plan: Plan)
    requires Listed(m, p) && Listed(n, q) && plan.inputTokens >= 0 && plan.outputTokens >= 0 && m !in {"", "manus"}
    requires || NoDearer(q, p)
             || (m == "gpt-5.4" && n == "claude-sonnet-4.6")
             || (m == "gpt-5.4-nano" && n == "deepseek-v3.2")
    ensures var (i, o) := (plan.inputTokens, plan.outputTokens);
            q.input * i + q.output * o > p.input * i + p.output * o <==> IsDearerStep(m, n, category, plan)
  {
    hide Listed, NoDearer;
    ListedPrices(m, p, plan.inputTokens, plan.outputTokens);
    ListedPrices(n, q, plan.inputTokens, plan.outputTokens);
    DearerPrices(p, q, plan.inputTokens, plan.outputTokens);
    if NoDearer(q, p) {
      NotDearerPairs(m, p, n, q);
    }
  }

  lemma NotDearerPairs(m: string, p: Pricing, n: string, q: Pricing)
    requires Listed(m, p) && Listed(n, q) && NoDearer(q, p)
    ensures !(m == "gpt-5.4" && n == "claude-sonnet-4.6") && !(m == "gpt-5.4-nano" && n == "deepseek-v3.2")
  {
  }

  lemma PlainStepRaisesIff(model: string, category: Category, plan: Plan)
    requires SuggestDowngrade(ARCANE, model, category).Some? && model in {"", "manus"}
    requires plan.inputTokens != 0 || plan.outputTokens != 0
    requires TokenCost(ARCANE, SuggestDowngrade(ARCANE, model, category).value, plan).Cost?
    ensures var next := SuggestDowngrade(ARCANE, model, category).value;
            && category != PhotoWork && (plan.inputTokens > 0 || plan.outputTokens > 0)
            && TokenCost(ARCANE, next, plan).amount > TokenCost(ARCANE, model, plan).amount == 0
  {
    hide ARCANE, Listed;
    var next := SuggestDowngrade(ARCANE, model, category).value;
    SuggestionInTier(ARCANE, model, category);
    TierNames(category, next);
    if category == PhotoWork {
      PhotoModelUnpriced(next);
    } else {
      FirstOfTier(model, category);
    }
    hide SuggestDowngrade, Tier;
    TokenPrice(ARCANE, next, plan);
    PriceIsListed(next);
    ListedPrices(next, ARCANE.prices[next], plan.inputTokens, plan.outputTokens);
  }

  /** The tiers are documented as ordered by descending cost, and suggestions as cheaper.  For
      every model, category and plan that can be priced, the suggestion raises the cost exactly in
      the cases of `IsDearerStep`. */
  lemma StepRaisesCostIff(model: string, category: Category, plan: Plan)
    requires SuggestDowngrade(ARCANE, model, category).Some? && Estimate(ARCANE, model, plan).Cost?
    requires Estimate(ARCANE, SuggestDowngrade(ARCANE, model, category).value, plan).Cost?
    ensures var next := SuggestDowngrade(ARCANE, model, category).value;
            Estimate(ARCANE, next, plan).amount > Estimate(ARCANE, model, plan).amount
            <==> IsDearerStep(model, next, category, plan)
  {
    hide ARCANE, Estimate, SuggestDowngrade, TokenCost;
    var next := SuggestDowngrade(ARCANE, model, category).value;
    EstimateShift(ARCANE, model, next, plan);
    if plan.inputTokens == 0 && plan.outputTokens == 0 {
      NoTokensCostNothing(ARCANE, model, plan);
      NoTokensCostNothing(ARCANE, next, plan);
    } else if model in {"", "manus"} {
      PlainStepRaisesIff(model, category, plan);
    } else {
      ModelStepRaisesIff(model, category, plan);
    }
  }

  lemma TextTier()
    ensures Tier(ARCANE, TextWork) == ["claude-sonnet-4.6", "gpt-5.4-mini", "deepseek-v3.2", "step-3.5-flash"]
  {
  }

  lemma ReviewTier()
    ensures Tier(ARCANE, ReviewWork) == ["gpt-5.4", "claude-sonnet-4.6", "gemini-2.5-flash", "deepseek-v3.2"]
  {
  }

  lemma DesignTier()
    ensures Tier(ARCANE, DesignWork) == ["claude-sonnet-4.6", "gemini-3.1-pro", "deepseek-v3.2", "kimi-k2.5"]
  {
  }

  lemma CodeTier()
    ensures Tier(ARCANE, CodeWork)
            == ["claude-opus-4.6", "gpt-5.4", "claude-sonnet-4.6", "gemini-3.1-pro", "deepseek-v3.2"]
  {
  }

  lemma TotalsAre()
    ensures TotalPrice(ARCANE, "gpt-5.4-nano") == 145 && "gpt-5.4-nano" in ARCANE.prices
    ensures TotalPrice(ARCANE, "gpt-5.4") == 1750 && "gpt-5.4" in ARCANE.prices
    ensures TotalPrice(ARCANE, "claude-opus-4.6") == 3000 && TotalPrice(ARCANE, "claude-sonnet-4.6") == 1800
    ensures TotalPrice(ARCANE, "gpt-5.4-mini") == 525 && TotalPrice(ARCANE, "gemini-2.5-flash") == 280
    ensures TotalPrice(ARCANE, "gemini-3.1-pro") == 1400 && TotalPrice(ARCANE, "deepseek-v3.2") == 70
  {
  }

  /** A model outside the tier goes to the first cheaper one. */
  lemma {:induction false} FirstCheaperAt(reg: Registry, tier: seq<string>, model: string, k: nat)
    requires k < |tier| && model in reg.prices && TotalPrice(reg, tier[k]) < TotalPrice(reg, model)
    requires forall j | 0 <= j < k :: TotalPrice(reg, tier[j]) >= TotalPrice(reg, model)
    ensures FirstCheaper(reg, tier, model) == k
  {
    if k > 0 {
      assert TotalPrice(reg, tier[0]) >= TotalPrice(reg, model);
      FirstCheaperAt(reg, tier[1..], model, k - 1);
    }
  }

  lemma OutsideStep(model: string, category: Category, k: nat)
    requires model !in Tier(ARCANE, category) && k < |Tier(ARCANE, category)| && model in ARCANE.prices
    requires TotalPrice(ARCANE, Tier(ARCANE, category)[k]) < TotalPrice(ARCANE, model)
    requires forall j | 0 <= j < k :: TotalPrice(ARCANE, Tier(ARCANE, category)[j]) >= TotalPrice(ARCANE, model)
    ensures SuggestDowngrade(ARCANE, model, category) == Some(Tier(ARCANE, category)[k])
  {
    hide ARCANE, TotalPrice;
    FirstCheaperAt(ARCANE, Tier(ARCANE, category), model, k);
  }

  lemma InsideStep(category: Category, i: nat)
    requires i + 1 < |Tier(ARCANE, category)|
    ensures SuggestDowngrade(ARCANE, Tier(ARCANE, category)[i], category) == Some(Tier(ARCANE, category)[i + 1])
  {
    hide ARCANE;
    ArcaneTiersDistinct(category);
    IndexOfDistinct(Tier(ARCANE, category), i);
  }

  lemma PhotoStep(model: string)
    ensures SuggestDowngrade(ARCANE, model, PhotoWork).Some? ==>
              SuggestDowngrade(ARCANE, model, PhotoWork).value !in ARCANE.prices
  {
    hide ARCANE;
    SuggestionInTier(ARCANE, model, PhotoWork);
    if SuggestDowngrade(ARCANE, model, PhotoWork).Some? {
      PhotoModelUnpriced(SuggestDowngrade(ARCANE, model, PhotoWork).value);
    }
  }

  /** Where the first exception arises: in review and code work, and nowhere else. */
  lemma DearGptStep(category: Category)
    ensures SuggestDowngrade(ARCANE, "gpt-5.4", category) == Some("claude-sonnet-4.6")
            <==> category in {ReviewWork, CodeWork}
  {
    hide ARCANE, SuggestDowngrade, TotalPrice, Tier;
    TotalsAre();
    match category
    case TextWork => TextTier(); OutsideStep("gpt-5.4", TextWork, 1);
    case DesignWork => DesignTier(); OutsideStep("gpt-5.4", DesignWork, 1);
    case ReviewWork => ReviewTier(); InsideStep(ReviewWork, 0);
    case CodeWork => CodeTier(); InsideStep(CodeWork, 1);
    case PhotoWork => PhotoStep("gpt-5.4"); SonnetIsPriced();
  }

  /** And the second: in all work but photos. */
  lemma DearNanoStep(category: Category)
    ensures SuggestDowngrade(ARCANE, "gpt-5.4-nano", category) == Some("deepseek-v3.2") <==> category != PhotoWork
  {
    hide ARCANE, SuggestDowngrade, TotalPrice, Tier;
    TotalsAre();
    match category
    case TextWork => TextTier(); OutsideStep("gpt-5.4-nano", TextWork, 2);
    case DesignWork => DesignTier(); OutsideStep("gpt-5.4-nano", DesignWork, 2);
    case ReviewWork => ReviewTier(); OutsideStep("gpt-5.4-nano", ReviewWork, 3);
    case CodeWork => CodeTier(); OutsideStep("gpt-5.4-nano", CodeWork, 4);
    case PhotoWork => PhotoStep("gpt-5.4-nano"); SonnetIsPriced();
  }

  /** So the tiers are not sorted by price: a million input tokens cost more after the step down
      from gpt-5.4 in review work, and after the one from gpt-5.4-nano in text work. */
  lemma ReviewTierIsNotSorted()
    ensures SuggestDowngrade(ARCANE, "gpt-5.4", ReviewWork) == Some("claude-sonnet-4.6")
    ensures Estimate(ARCANE, "gpt-5.4", Plan(1_000_000, 0, "", 0, 0)) == Cost(250_000_000)
    ensures Estimate(ARCANE, "claude-sonnet-4.6", Plan(1_000_000, 0, "", 0, 0)) == Cost(300_000_000)
    ensures SuggestDowngrade(ARCANE, "gpt-5.4-nano", TextWork) == Some("deepseek-v3.2")
    ensures Estimate(ARCANE, "gpt-5.4-nano", Plan(1_000_000, 0, "", 0, 0)) == Cost(20_000_000)
    ensures Estimate(ARCANE, "deepseek-v3.2", Plan(1_000_000, 0, "", 0, 0)) == Cost(28_000_000)
  {
    hide ARCANE, Estimate, SuggestDowngrade;
    DearGptStep(ReviewWork);
    DearNanoStep(TextWork);
    MillionTokens("gpt-5.4");
    MillionTokens("claude-sonnet-4.6");
    MillionTokens("gpt-5.4-nano");
    MillionTokens("deepseek-v3.2");
  }

  lemma MillionTokens(m: string)
    requires m in {"gpt-5.4", "claude-sonnet-4.6", "gpt-5.4-nano", "deepseek-v3.2"}
    ensures Estimate(ARCANE, m, Plan(1_000_000, 0, "", 0, 0))
            == Cost(if m == "gpt-5.4" then 250_000_000 else if m == "claude-sonnet-4.6" then 300_000_000
                    else if m == "gpt-5.4-nano" then 20_000_000 else 28_000_000)
  {
    hide ARCANE, Listed;
    TotalsAre();
    SonnetIsPriced();
    PriceIsListed(m);
    ListedPrices(m, ARCANE.prices[m], 1_000_000, 0);
  }

  lemma SonnetIsPriced()
    ensures "claude-sonnet-4.6" in ARCANE.prices && "deepseek-v3.2" in ARCANE.prices
  {
  }

  lemma PhotoModelUnpriced(model: string)
    requires model in Tier(ARCANE, PhotoWork)
    ensures model !in ARCANE.prices && model != "" && model != "manus"
  {
    assert Tier(ARCANE, PhotoWork) == ["flux-2-pro", "ideogram-v3", "recraft-v4", "flux-2-schnell", "pexels"];
  }

  lemma UnpricedFails(reg: Registry, model: string, plan: Plan)
    requires model !in reg.prices && model != "" && model != "manus"
    requires plan.inputTokens != 0 || plan.outputTokens != 0
    ensures !Estimate(reg, model, plan).Cost?
  {
  }

  /** Photo tiers list image models, which have no token price: the search in photo work never
      ends in another model than the requested one. */
  lemma PhotoNeverDowngrades(b: Book, project: string, task: string, month: string, model: string, plan: Plan)
    ensures var walk := Walk(ARCANE, model, PhotoWork);
            && walk != []
            && (FirstFit(b, ARCANE, project, task, month, plan, walk).Fits? ==>
                  FirstFit(b, ARCANE, project, task, month, plan, walk) == Fits(model))
  {
    hide ARCANE, Estimate, WouldExceed;
    var walk := Walk(ARCANE, model, PhotoWork);
    WalkStart(ARCANE, model, PhotoWork);
    var k := FirstFitDecidedAt(b, ARCANE, project, task, month, plan, walk);
    if k > 0 {
      assert Exceeds(b, ARCANE, project, task, month, plan, walk[0]);
      if plan.inputTokens == 0 && plan.outputTokens == 0 {
        SameWithoutTokens(ARCANE, walk[0], walk[k], plan);
      } else {
        PhotoSecondUnpriced(model);
        UnpricedFails(ARCANE, walk[1], plan);
        assert k > 1 ==> Exceeds(b, ARCANE, project, task, month, plan, walk[1]);
      }
    }
  }

  lemma SameWithoutTokens(reg: Registry, m: string, n: string, plan: Plan)
    requires plan.inputTokens == 0 && plan.outputTokens == 0
    ensures Estimate(reg, m, plan) == Estimate(reg, n, plan)
  {
  }

  lemma PhotoSecondUnpriced(model: string)
    ensures var walk := Walk(ARCANE, model, PhotoWork);
            |walk| > 1 ==> walk[1] !in ARCANE.prices && walk[1] != "" && walk[1] != "manus"
  {
    hide ARCANE;
    var tier, walk := Tier(ARCANE, PhotoWork), Walk(ARCANE, model, PhotoWork);
    if |walk| > 1 {
      assert walk[1] in tier;
      PhotoModelUnpriced(walk[1]);
    }
  }
}
