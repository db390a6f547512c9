/**
 * cost-tracker.ts: a session ledger of API costs kept under one browser storage key, with
 * totals per source and per category, and the price table used to estimate a call's cost.
 * Costs are exact reals.
 */
module CostTracker {
  import opened Wrappers

  /** The `source` literal of a cost entry. */
  datatype Source = Curate | Research | Enhance | Draft | RegenSection | RegenStory | ImagePrompt | ImageGen

  datatype TokenCount = TokenCount(input: nat, output: nat)

  datatype CostEntry = CostEntry(
    id: string,
    timestamp: int,
    source: Source,
    model: string,
    cost: real,
    description: string,
    tokenCount: Option<TokenCount>)

  /** The storage slot: nothing stored, a value that does not parse, or the stored list. */
  datatype Slot = Empty | Unparseable | Entries(entries: seq<CostEntry>)

  // ---------------------------------------------------------------- the ledger

  /** The storage slot; `hasWindow` is false on the server, where nothing is stored. */
  class Ledger {
    const hasWindow: bool
    var slot: Slot

    constructor(hasWindow: bool, slot: Slot)
      ensures this.hasWindow == hasWindow && this.slot == slot
    {
      this.hasWindow := hasWindow;
      this.slot := slot;
    }

    /** `getCosts`: the stored list; `[]` on the server, when nothing is stored, or when it does not parse. */
    function GetCosts(): (r: seq<CostEntry>)
      reads this
      ensures !hasWindow || slot.Empty? || slot.Unparseable? ==> r == []
      ensures hasWindow && slot.Entries? ==> r == slot.entries
    {
      if !hasWindow then []
      else match slot
        case Empty => []
        case Unparseable => []
        case Entries(es) => es
    }

    /**
     * `addCost`: the entry with its id and timestamp is appended to what `getCosts` returned
     * and stored; on the server nothing changes. The new entry is returned either way.
     */
    method AddCost(source: Source, model: string, cost: real, description: string, tokenCount: Option<TokenCount>,
                   id: string, now: int)
      returns (newEntry: CostEntry)
      modifies this
      ensures newEntry == CostEntry(id, now, source, model, cost, description, tokenCount)
      ensures hasWindow ==> slot == Entries(old(GetCosts()) + [newEntry])
      ensures !hasWindow ==> slot == old(slot)
      ensures hasWindow ==> GetCosts() == old(GetCosts()) + [newEntry]
    {
      newEntry := CostEntry(id, now, source, model, cost, description, tokenCount);
      if hasWindow {
        var costs := GetCosts();
        costs := costs + [newEntry];
        slot := Entries(costs);
      }
    }

    /** `clearCosts`: the key is removed, so the ledger reads as empty. */
    method ClearCosts()
      modifies this
      ensures hasWindow ==> slot == Empty
      ensures !hasWindow ==> slot == old(slot)
      ensures GetCosts() == []
    {
      if hasWindow {
        slot := Empty;
      }
    }

    /** `getCostsBySource`: the loop accumulating each entry's cost under its source. */
    method GetCostsBySource() returns (grouped: map<Source, real>)
      ensures grouped == BySource(GetCosts())
    {
      var costs := GetCosts();
      grouped := map[];
      for i := 0 to |costs|
        invariant grouped == BySource(costs[..i])
      {
        var entry := costs[i];
        assert costs[..i + 1][..i] == costs[..i];
        grouped := grouped[entry.source := Get(grouped, entry.source) + entry.cost];
      }
      assert costs[..|costs|] == costs;
    }

    /** `getTotalCost` */
    function GetTotalCost(): real
      reads this
    {
      Total(GetCosts())
    }

    /** `getCostSummary` of the stored list. */
    function GetCostSummary(): CostSummary
      reads this
    {
      Summary(GetCosts())
    }
  }

  // ---------------------------------------------------------------- queries on a list

  /** `grouped[s] || 0` */
  function Get(m: map<Source, real>, s: Source): real {
    if s in m then m[s] else 0.0
  }

  /** The sum of the costs. */
  function Total(entries: seq<CostEntry>): real {
    if entries == [] then 0.0 else Total(entries[..|entries| - 1]) + entries[|entries| - 1].cost
  }

  /** The sum of the costs of the entries with source `s`. */
  function SumOf(entries: seq<CostEntry>, s: Source): real {
    if entries == [] then 0.0
    else SumOf(entries[..|entries| - 1], s) + (if entries[|entries| - 1].source == s then entries[|entries| - 1].cost else 0.0)
  }

  /** The `grouped` record after the loop has read `entries`. */
  function BySource(entries: seq<CostEntry>): map<Source, real> {
    if entries == [] then map[]
    else
      var m := BySource(entries[..|entries| - 1]);
      var e := entries[|entries| - 1];
      m[e.source := Get(m, e.source) + e.cost]
  }

  /** A source has a total iff some entry has that source, and its total is the sum of those entries' costs. */
  lemma {:induction false} BySourceCorrect(entries: seq<CostEntry>)
    ensures forall s :: s in BySource(entries) <==> exists i :: 0 <= i < |entries| && entries[i].source == s
    ensures forall s :: Get(BySource(entries), s) == SumOf(entries, s)
    decreases |entries|
  {
    if entries != [] {
      var init := entries[..|entries| - 1];
      BySourceCorrect(init);
      assert forall i :: 0 <= i < |init| ==> init[i] == entries[i];
    }
  }

  /** Every cost is counted under exactly one of the eight sources. */
  lemma {:induction false} TotalBySources(entries: seq<CostEntry>)
    ensures Total(entries) == SumOf(entries, Curate) + SumOf(entries, Research) + SumOf(entries, Enhance)
      + SumOf(entries, Draft) + SumOf(entries, RegenSection) + SumOf(entries, RegenStory)
      + SumOf(entries, ImagePrompt) + SumOf(entries, ImageGen)
    decreases |entries|
  {
    if entries != [] {
      TotalBySources(entries[..|entries| - 1]);
    }
  }

  datatype ByCategory = ByCategory(curation: real, research: real, drafting: real, images: real)

  datatype CostSummary = CostSummary(
    total: real,
    bySource: map<Source, real>,
    byCategory: ByCategory,
    entryCount: nat,
    sessionStart: Option<int>)

  /** `Math.min(...costs.map(e => e.timestamp))` of a non-empty list. */
  function MinTimestamp(entries: seq<CostEntry>): (m: int)
    requires entries != []
    ensures forall i :: 0 <= i < |entries| ==> m <= entries[i].timestamp
    ensures exists i :: 0 <= i < |entries| && m == entries[i].timestamp
  {
    var last := entries[|entries| - 1].timestamp;
    if |entries| == 1 then last
    else
      var init := entries[..|entries| - 1];
      var m := MinTimestamp(init);
      assert forall i :: 0 <= i < |init| ==> init[i] == entries[i];
      if m <= last then m else last
  }

  /** The summary: totals, the four categories of sources, the count and the earliest timestamp. */
  function Summary(costs: seq<CostEntry>): CostSummary {
    var bySource := BySource(costs);
    CostSummary(
      Total(costs),
      bySource,
      ByCategory(
        Get(bySource, Curate),
        Get(bySource, Research) + Get(bySource, Enhance),
        Get(bySource, Draft) + Get(bySource, RegenSection) + Get(bySource, RegenStory),
        Get(bySource, ImagePrompt) + Get(bySource, ImageGen)),
      |costs|,
      if |costs| > 0 then Some(MinTimestamp(costs)) else None)
  }

  /**
   * The total is the sum of all costs and equals the sum of the four categories, which
   * split the eight sources between them; the session starts at the earliest entry, and
   * there is no start iff there are no entries.
   */
  lemma SummaryCorrect(costs: seq<CostEntry>)
    ensures var sm := Summary(costs);
      && sm.total == Total(costs)
      && sm.byCategory.curation + sm.byCategory.research + sm.byCategory.drafting + sm.byCategory.images == sm.total
      && sm.entryCount == |costs|
      && (sm.sessionStart.None? <==> costs == [])
      && (sm.sessionStart.Some? ==>
            (forall i :: 0 <= i < |costs| ==> sm.sessionStart.value <= costs[i].timestamp) &&
            exists i :: 0 <= i < |costs| && sm.sessionStart.value == costs[i].timestamp)
  {
    BySourceCorrect(costs);
    TotalBySources(costs);
  }

  /** After `addCost` in a browser, the total grows by the new cost and the count by one. */
  lemma SummaryAfterAdd(costs: seq<CostEntry>, e: CostEntry)
    ensures Summary(costs + [e]).total == Summary(costs).total + e.cost
    ensures Summary(costs + [e]).entryCount == Summary(costs).entryCount + 1
    ensures Get(Summary(costs + [e]).bySource, e.source) == Get(Summary(costs).bySource, e.source) + e.cost
  {
    assert (costs + [e])[..|costs|] == costs;
  }

  // ---------------------------------------------------------------- pricing

  /** Rates in dollars per million tokens, and per generated image where one is listed. */
  datatype Pricing = Pricing(inputPer1M: real, outputPer1M: real, perImage: Option<real>)

  const ModelPricing: map<string, Pricing> := map[
    "x-ai/grok-4.1-fast" := Pricing(0.20, 0.50, None),
    "google/gemini-2.0-flash-001" := Pricing(0.10, 0.40, None),
    "google/gemini-2.5-flash-preview" := Pricing(0.15, 0.60, None),
    "google/gemini-3-pro-preview" := Pricing(1.25, 10.00, None),
    "anthropic/claude-sonnet-4" := Pricing(3.00, 15.00, None),
    "anthropic/claude-3.5-sonnet" := Pricing(3.00, 15.00, None),
    "openai/gpt-4o" := Pricing(2.50, 10.00, None),
    "deepseek/deepseek-r1" := Pricing(0.55, 2.19, None),
    "perplexity/sonar-deep-research" := Pricing(2.00, 8.00, None),
    "perplexity/sonar-pro" := Pricing(3.00, 15.00, None),
    "perplexity/sonar" := Pricing(1.00, 1.00, None),
    "google/gemini-3-pro-image-preview" := Pricing(0.0, 0.0, Some(0.03)),
    "google/gemini-2.0-flash-001:image" := Pricing(0.0, 0.0, Some(0.02)),
    "bytedance-seed/seedream-4.5" := Pricing(0.0, 0.0, Some(0.02)),
    "black-forest-labs/flux-pro-1.1" := Pricing(0.0, 0.0, Some(0.04)),
    "black-forest-labs/flux-1.1-pro" := Pricing(0.0, 0.0, Some(0.04))
  ]

  /** The rates of an unknown model. */
  const FallbackPricing := Pricing(1.0, 5.0, None)
  const DefaultImageCost := 0.03

  /** `MODEL_PRICING[model]`, or the fallback rates. */
  function RatesOf(table: map<string, Pricing>, model: string): Pricing {
    if model in table then table[model] else FallbackPricing
  }

  /** Tokens times the per-million rates. */
  function TokenCost(p: Pricing, inputTokens: real, outputTokens: real): real {
    (inputTokens / 1000000.0) * p.inputPer1M + (outputTokens / 1000000.0) * p.outputPer1M
  }

  /** `estimateTextCost`, over a price table. */
  function EstimateTextCostIn(table: map<string, Pricing>, model: string, inputTokens: real, outputTokens: real): real {
    TokenCost(RatesOf(table, model), inputTokens, outputTokens)
  }

  function EstimateTextCost(model: string, inputTokens: real, outputTokens: real): real {
    EstimateTextCostIn(ModelPricing, model, inputTokens, outputTokens)
  }

  /** `pricing?.perImage || 0.03`, over a price table. */
  function EstimateImageCostIn(table: map<string, Pricing>, model: string): real {
    if model in table && table[model].perImage.Some? && table[model].perImage.value != 0.0 then table[model].perImage.value
    else DefaultImageCost
  }

  function EstimateImageCost(model: string): real {
    EstimateImageCostIn(ModelPricing, model)
  }

  /**
   * The estimate is linear in the token counts, with the model's rates for a listed model
   * and 1.0 and 5.0 dollars per million otherwise.
   */
  lemma TextCostLinear(table: map<string, Pricing>, model: string, a: real, b: real, c: real, d: real, k: real)
    ensures EstimateTextCostIn(table, model, a + b, c + d) ==
      EstimateTextCostIn(table, model, a, c) + EstimateTextCostIn(table, model, b, d)
    ensures EstimateTextCostIn(table, model, k * a, k * c) == k * EstimateTextCostIn(table, model, a, c)
    ensures EstimateTextCostIn(table, model, 0.0, 0.0) == 0.0
    ensures model !in table ==>
      EstimateTextCostIn(table, model, a, c) == a / 1000000.0 + 5.0 * (c / 1000000.0)
    ensures model in table ==>
      EstimateTextCostIn(table, model, a, c) == (a / 1000000.0) * table[model].inputPer1M + (c / 1000000.0) * table[model].outputPer1M
  {
    var p := RatesOf(table, model);
    assert (k * a) / 1000000.0 == k * (a / 1000000.0);
    assert (k * c) / 1000000.0 == k * (c / 1000000.0);
  }

  /** A model without a (non-zero) per-image price, a text model included, is charged 0.03 per image. */
  lemma ImageCostCases(table: map<string, Pricing>, model: string)
    ensures model in table && table[model].perImage.Some? && table[model].perImage.value != 0.0 ==>
      EstimateImageCostIn(table, model) == table[model].perImage.value
    ensures model !in table || table[model].perImage.None? ==> EstimateImageCostIn(table, model) == DefaultImageCost
    ensures EstimateImageCostIn(table, model) > 0.0 || (model in table && table[model].perImage.Some? && table[model].perImage.value < 0.0)
  {
  }

  /** The listed per-image prices are positive, and the text models have none. */
  lemma PricingTable()
    ensures forall m :: m in ModelPricing && ModelPricing[m].perImage.Some? ==> ModelPricing[m].perImage.value > 0.0
    ensures EstimateImageCost("openai/gpt-4o") == DefaultImageCost
    ensures EstimateImageCost("black-forest-labs/flux-pro-1.1") == 0.04
    ensures EstimateTextCost("unknown/model", 1000000.0, 1000000.0) == 6.0
  {
  }
}
