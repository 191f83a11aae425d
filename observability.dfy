/** The pure parts of the tracing helper (`observability.py`): the price of
    one model call from its token usage, the card labels put into a trace
    and the previews of retrieved documents. */
module Observability {
  import Agent

  // ---------------------------------------------------------------------
  // Cost (`calculate_cost`)
  // ---------------------------------------------------------------------

  /** Dollars per prompt token and per completion token. */
  datatype Price = Price(prompt: real, completion: real)

  const DefaultModel: string := "gpt-4-turbo-preview"

  /** The price table, per token (the source writes each price per 1000
      tokens and divides). */
  const Pricing: map<string, Price> := map[
    "gpt-4-turbo-preview" := Price(0.01 / 1000.0, 0.03 / 1000.0),
    "gpt-4" := Price(0.03 / 1000.0, 0.06 / 1000.0),
    "gpt-3.5-turbo" := Price(0.0015 / 1000.0, 0.002 / 1000.0)
  ]

  /** The prices of `model`, those of the default model when the table does
      not list it. */
  function PriceOf(model: string): (price: Price)
  {
    if model in Pricing then Pricing[model] else Pricing[DefaultModel]
  }

  /** `token_usage.get(key, 0)`. */
  function TokenCount(usage: map<string, int>, key: string): int
  {
    if key in usage then usage[key] else 0
  }

  function CalculateCost(usage: map<string, int>, model: string): (cost: real)
  {
    var price := PriceOf(model);
    TokenCount(usage, "prompt_tokens") as real * price.prompt
    + TokenCount(usage, "completion_tokens") as real * price.completion
  }

  /** Every listed price is positive, and so is every price `PriceOf`
      gives. */
  lemma PricesPositive(model: string)
    ensures PriceOf(model).prompt > 0.0 && PriceOf(model).completion > 0.0
  {
  }

  /** A model the table does not list is charged exactly as the default
      model. */
  lemma UnknownModelCostsAsDefault(usage: map<string, int>, model: string)
    requires model !in Pricing
    ensures CalculateCost(usage, model) == CalculateCost(usage, DefaultModel)
  {
  }

  /** The cost depends on the usage only through the prompt and completion
      counts: `total_tokens` and every other key are ignored. */
  lemma OnlyTokenCountsMatter(u: map<string, int>, v: map<string, int>, model: string)
    requires TokenCount(u, "prompt_tokens") == TokenCount(v, "prompt_tokens")
    requires TokenCount(u, "completion_tokens") == TokenCount(v, "completion_tokens")
    ensures CalculateCost(u, model) == CalculateCost(v, model)
  {
  }

  /** An empty usage record costs nothing. */
  lemma EmptyUsageIsFree(model: string)
    ensures CalculateCost(map[], model) == 0.0
  {
  }

  /** Multiplying by a positive price keeps the order of two counts. */
  lemma ScaleMono(a: int, b: int, price: real)
    requires a <= b && price > 0.0
    ensures a as real * price <= b as real * price
  {
    assert b as real * price - a as real * price == (b - a) as real * price;
  }

  /** More prompt tokens and more completion tokens never cost less. */
  lemma CostMonotone(u: map<string, int>, v: map<string, int>, model: string)
    requires TokenCount(u, "prompt_tokens") <= TokenCount(v, "prompt_tokens")
    requires TokenCount(u, "completion_tokens") <= TokenCount(v, "completion_tokens")
    ensures CalculateCost(u, model) <= CalculateCost(v, model)
  {
    var price := PriceOf(model);
    PricesPositive(model);
    ScaleMono(TokenCount(u, "prompt_tokens"), TokenCount(v, "prompt_tokens"), price.prompt);
    ScaleMono(TokenCount(u, "completion_tokens"), TokenCount(v, "completion_tokens"), price.completion);
  }

  /** Token counts that are not negative give a cost that is not negative. */
  lemma CostNonNegative(usage: map<string, int>, model: string)
    requires TokenCount(usage, "prompt_tokens") >= 0 && TokenCount(usage, "completion_tokens") >= 0
    ensures CalculateCost(usage, model) >= 0.0
  {
    EmptyUsageIsFree(model);
    CostMonotone(map[], usage, model);
  }

  /** For the same usage, `gpt-4` costs at least as much as the default
      model, which costs at least as much as `gpt-3.5-turbo`. */
  lemma ModelsOrderedByCost(usage: map<string, int>)
    requires TokenCount(usage, "prompt_tokens") >= 0 && TokenCount(usage, "completion_tokens") >= 0
    ensures CalculateCost(usage, "gpt-3.5-turbo") <= CalculateCost(usage, DefaultModel)
    ensures CalculateCost(usage, DefaultModel) <= CalculateCost(usage, "gpt-4")
  {
    var p, c := TokenCount(usage, "prompt_tokens") as real, TokenCount(usage, "completion_tokens") as real;
    assert CalculateCost(usage, DefaultModel) - CalculateCost(usage, "gpt-3.5-turbo")
           == p * (0.0085 / 1000.0) + c * (0.028 / 1000.0);
    assert CalculateCost(usage, "gpt-4") - CalculateCost(usage, DefaultModel)
           == p * (0.02 / 1000.0) + c * (0.03 / 1000.0);
  }

  /** A thousand prompt tokens and five hundred completion tokens on
      `gpt-4` cost 0.06 dollars; `total_tokens` adds nothing. */
  lemma CostExample()
    ensures CalculateCost(map["prompt_tokens" := 1000, "completion_tokens" := 500, "total_tokens" := 1500], "gpt-4")
            == 0.06
  {
    var usage := map["prompt_tokens" := 1000, "completion_tokens" := 500, "total_tokens" := 1500];
    assert TokenCount(usage, "prompt_tokens") == 1000 && TokenCount(usage, "completion_tokens") == 500;
  }

  // ---------------------------------------------------------------------
  // Trace inputs (`create_trace`, `log_retrieval`)
  // ---------------------------------------------------------------------

  const ReversedWord: string := "перевернута"
  const UprightWord: string := "пряма"

  /** How a drawn card is named in a trace: its name and its orientation
      in parentheses. */
  function CardLabel(name: string, isReversed: bool): (text: string)
    ensures |text| == |name| + (if isReversed then 14 else 8)
    ensures text[..|name|] == name && text[|text| - 1] == ')'
  {
    name + " (" + (if isReversed then ReversedWord else UprightWord) + ")"
  }

  /** Two cards get the same label only when they have the same name and
      the same orientation. */
  lemma CardLabelInjective(n1: string, r1: bool, n2: string, r2: bool)
    requires CardLabel(n1, r1) == CardLabel(n2, r2)
    ensures n1 == n2 && r1 == r2
  {
    var l1, l2 := CardLabel(n1, r1), CardLabel(n2, r2);
    assert l1[|l1| - 3] == (if r1 then 'т' else 'м');
    assert l2[|l2| - 3] == (if r2 then 'т' else 'м');
    assert l1[..|n1|] == n1 && l2[..|n2|] == n2;
  }

  /** The `cards` input of a trace: one label per drawn card, in order. */
  function CardLabels(cards: seq<Agent.DrawnCard>): (labels: seq<string>)
    ensures |labels| == |cards|
  {
    seq(|cards|, i requires 0 <= i < |cards| => CardLabel(cards[i].name, cards[i].isReversed))
  }

  /** The labels of a spread tell its names and orientations apart: equal
      label lists mean the same cards in the same positions, up to image
      paths. */
  lemma CardLabelsDetermineSpread(a: seq<Agent.DrawnCard>, b: seq<Agent.DrawnCard>)
    requires CardLabels(a) == CardLabels(b)
    ensures |a| == |b|
    ensures forall i :: 0 <= i < |a| ==> a[i].name == b[i].name && a[i].isReversed == b[i].isReversed
  {
    forall i | 0 <= i < |a|
      ensures a[i].name == b[i].name && a[i].isReversed == b[i].isReversed
    {
      assert CardLabels(a)[i] == CardLabels(b)[i];
      CardLabelInjective(a[i].name, a[i].isReversed, b[i].name, b[i].isReversed);
    }
  }

  const PreviewLength: nat := 200

  /** `doc[:200] + "..."`. */
  function Preview(doc: string): (preview: string)
  {
    (if |doc| <= PreviewLength then doc else doc[..PreviewLength]) + "..."
  }

  /** A preview is at most 203 characters: the first 200 characters of the
      document (all of a shorter one), then three dots. */
  lemma PreviewShape(doc: string)
    ensures |Preview(doc)| == (if |doc| <= PreviewLength then |doc| else PreviewLength) + 3
    ensures |Preview(doc)| <= PreviewLength + 3
    ensures Preview(doc)[..|Preview(doc)| - 3] <= doc
    ensures Preview(doc)[|Preview(doc)| - 3..] == "..."
    ensures |doc| <= PreviewLength ==> Preview(doc)[..|doc|] == doc
  {
  }

  /** Short documents keep their previews apart; long ones that share the
      first 200 characters share the preview. */
  lemma PreviewInjectiveWhenShort(d1: string, d2: string)
    ensures |d1| <= PreviewLength && |d2| <= PreviewLength ==> (Preview(d1) == Preview(d2) <==> d1 == d2)
    ensures |d1| >= PreviewLength && |d2| >= PreviewLength ==>
              (Preview(d1) == Preview(d2) <==> d1[..PreviewLength] == d2[..PreviewLength])
  {
    if Preview(d1) == Preview(d2) {
      PreviewShape(d1);
      PreviewShape(d2);
      if |d1| <= PreviewLength && |d2| <= PreviewLength {
        assert d1 == Preview(d1)[..|d1|];
      }
      if |d1| >= PreviewLength && |d2| >= PreviewLength {
        assert d1[..PreviewLength] == Preview(d1)[..PreviewLength];
      }
    }
  }

  /** The `documents` output of a retrieval step. */
  function Previews(documents: seq<string>): (previews: seq<string>)
    ensures |previews| == |documents|
  {
    seq(|documents|, i requires 0 <= i < |documents| => Preview(documents[i]))
  }
}
