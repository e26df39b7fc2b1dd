/**
 * The generation-side records: model identifiers, roles, prompt messages, the
 * per-token price table and the parsed provider reply with its cost.
 * Prices and costs are exact reals.
 */
module GenAiModels {
  import opened Wrappers
  import opened Json

  /** The models the bot may call. */
  datatype ValidLLMModel = Gpt4o | Gpt4oMini | Gpt35Turbo

  /** The identifier sent to the provider and used as the price-table key. */
  function ModelName(m: ValidLLMModel): string
  {
    match m
    case Gpt4o => "gpt-4o"
    case Gpt4oMini => "gpt-4o-mini"
    case Gpt35Turbo => "gpt-3.5-turbo"
  }

  /** Price per token, for prompt tokens and for completion tokens. */
  datatype Rates = Rates(input: real, output: real)

  type CostTable = map<string, Rates>

  /** The static price table, keyed by model identifier. */
  const LlmCostPerToken: CostTable := map[
    "gpt-4o" := Rates(0.000005, 0.000015),
    "gpt-4o-mini" := Rates(0.000000150, 0.000000600),
    "gpt-3.5-turbo" := Rates(0.0000005, 0.0000015)
  ]

  /** Every model the enum offers is priced, and nothing else is. */
  lemma EveryModelPriced()
    ensures forall m: ValidLLMModel :: ModelName(m) in LlmCostPerToken
    ensures forall k :: k in LlmCostPerToken ==> exists m: ValidLLMModel :: ModelName(m) == k
  {
    assert ModelName(Gpt4o) == "gpt-4o" && ModelName(Gpt4oMini) == "gpt-4o-mini";
    assert ModelName(Gpt35Turbo) == "gpt-3.5-turbo";
  }

  /** Every rate in the table is strictly positive. */
  lemma RatesPositive()
    ensures forall k :: k in LlmCostPerToken ==> LlmCostPerToken[k].input > 0.0 && LlmCostPerToken[k].output > 0.0
  {
  }

  /** The three speaker roles of a prompt message. */
  datatype LLMRole = System | User | AI

  /** The string a role serialises to. */
  function RoleValue(r: LLMRole): string
  {
    match r
    case System => "system"
    case User => "user"
    case AI => "assistant"
  }

  /** Enum validation of a role given as its string value. */
  function ParseRole(s: string): (r: Option<LLMRole>)
    ensures r.Some? <==> s in {"system", "user", "assistant"}
  {
    if s == "system" then Some(System)
    else if s == "user" then Some(User)
    else if s == "assistant" then Some(AI)
    else None
  }

  /** The three role values are distinct, and each validates back to its role. */
  lemma RoleValues()
    ensures forall r1: LLMRole, r2: LLMRole :: RoleValue(r1) == RoleValue(r2) ==> r1 == r2
    ensures forall r: LLMRole :: ParseRole(RoleValue(r)) == Some(r)
    ensures RoleValue(AI) == "assistant"
  {
  }

  datatype LLMMessage = LLMMessage(role: LLMRole, content: string)

  /** The ordered message log sent to the provider; callers grow it in place. */
  class LLMMessageLog {
    var messages: seq<LLMMessage>

    constructor (initial: seq<LLMMessage>)
      ensures messages == initial
    {
      messages := initial;
    }

    /** `messages.extend(more)`. */
    method Extend(more: seq<LLMMessage>)
      modifies this
      ensures messages == old(messages) + more
    {
      messages := messages + more;
    }

    /** `messages.append(m)`. */
    method Append(m: LLMMessage)
      modifies this
      ensures messages == old(messages) + [m]
    {
      messages := messages + [m];
    }
  }

  /** A parsed provider reply; `cost` stays `None` until it is calculated. */
  datatype AIResponse = AIResponse(text: string, inputTokens: int, outputTokens: int, cost: Option<real>)

  const TextPath: seq<PathItem> := [Key("choices"), Index(0), Key("message"), Key("content")]
  const PromptTokensPath: seq<PathItem> := [Key("usage"), Key("prompt_tokens")]
  const CompletionTokensPath: seq<PathItem> := [Key("usage"), Key("completion_tokens")]

  /** The optional `cost` field: absent or `null` is `None`, a number is kept. */
  function OptionalCost(o: Object): (r: Option<Option<real>>)
    ensures r == Some(None) <==> "cost" !in o || o["cost"] == JNull
    ensures r.None? <==> "cost" in o && !(o["cost"].JNull? || o["cost"].JInt? || o["cost"].JReal?)
    ensures "cost" in o && o["cost"].JReal? ==> r == Some(Some(o["cost"].r))
    ensures "cost" in o && o["cost"].JInt? ==> r == Some(Some(o["cost"].i as real))
  {
    if "cost" !in o || o["cost"] == JNull then Some(None)
    else match AsFloat(o["cost"])
      case Some(c) => Some(Some(c))
      case None => None
  }

  /** Validation of a provider reply into an `AIResponse`; `None` is a validation error. */
  function ParseAIResponse(o: Object): (r: Option<AIResponse>)
    ensures r.Some? ==> LookupPath(JObject(o), TextPath) == Some(JStr(r.value.text))
    ensures r.Some? ==> LookupPath(JObject(o), PromptTokensPath) == Some(JInt(r.value.inputTokens))
    ensures r.Some? ==> LookupPath(JObject(o), CompletionTokensPath) == Some(JInt(r.value.outputTokens))
    ensures r.Some? ==> OptionalCost(o) == Some(r.value.cost)
    ensures var text := LookupPath(JObject(o), TextPath);
            var prompt := LookupPath(JObject(o), PromptTokensPath);
            var completion := LookupPath(JObject(o), CompletionTokensPath);
            (&& text.Some? && text.value.JStr? && prompt.Some? && prompt.value.JInt?
             && completion.Some? && completion.value.JInt? && OptionalCost(o).Some?) ==> r.Some?
  {
    var text := LookupPath(JObject(o), TextPath);
    var prompt := LookupPath(JObject(o), PromptTokensPath);
    var completion := LookupPath(JObject(o), CompletionTokensPath);
    if text.Some? && text.value.JStr? && prompt.Some? && prompt.value.JInt?
       && completion.Some? && completion.value.JInt? && OptionalCost(o).Some?
    then Some(AIResponse(text.value.s, prompt.value.i, completion.value.i, OptionalCost(o).value))
    else None
  }

  /** A reply lacking any of the three paths fails validation. */
  lemma MissingPathFails(o: Object)
    requires LookupPath(JObject(o), TextPath).None? || LookupPath(JObject(o), PromptTokensPath).None?
             || LookupPath(JObject(o), CompletionTokensPath).None?
    ensures ParseAIResponse(o) == None
  {
  }

  /** The reply body a provider sends for `resp`; `cost` appears only when it is set. */
  function ReplyToJson(resp: AIResponse): Object
  {
    var message := JObject(map["content" := JStr(resp.text)]);
    var usage := JObject(map["prompt_tokens" := JInt(resp.inputTokens), "completion_tokens" := JInt(resp.outputTokens)]);
    var body := map["choices" := JArray([JObject(map["message" := message])]), "usage" := usage];
    if resp.cost.Some? then body["cost" := JReal(resp.cost.value)] else body
  }

  /** Validation reads back exactly the reply that was encoded. */
  lemma ReplyRoundTrip(resp: AIResponse)
    ensures ParseAIResponse(ReplyToJson(resp)) == Some(resp)
  {
    var o := ReplyToJson(resp);
    var v := JObject(o);
    var message := o["choices"].items[0].fields["message"];
    assert LookupPath(message, TextPath[3..]) == Some(JStr(resp.text));
    assert LookupPath(v, TextPath) == Some(JStr(resp.text));
    assert LookupPath(v, PromptTokensPath) == Some(JInt(resp.inputTokens));
    assert LookupPath(v, CompletionTokensPath) == Some(JInt(resp.outputTokens));
  }

  /** `inputRate * inputTokens + outputRate * outputTokens`. */
  function TokenCost(rates: Rates, inputTokens: int, outputTokens: int): (c: real)
    ensures rates.input >= 0.0 && rates.output >= 0.0 && inputTokens >= 0 && outputTokens >= 0 ==> c >= 0.0
    ensures inputTokens == 0 && outputTokens == 0 ==> c == 0.0
    ensures outputTokens == 0 ==> c == rates.input * inputTokens as real
  {
    rates.input * inputTokens as real + rates.output * outputTokens as real
  }

  /** Looking up an unknown model is a `KeyError`, never a zero cost. */
  datatype CostError = KeyError(model: string)

  /** `calculate_cost`: the record with its `cost` set from the table; nothing else changes. */
  function CalculateCost(resp: AIResponse, model: string, table: CostTable): (r: Result<AIResponse, CostError>)
    ensures r.Failure? <==> model !in table
    ensures r.Failure? ==> r.error == KeyError(model)
    ensures r.Success? ==> r.value.text == resp.text && r.value.inputTokens == resp.inputTokens
                           && r.value.outputTokens == resp.outputTokens
    ensures r.Success? ==> r.value.cost == Some(TokenCost(table[model], resp.inputTokens, resp.outputTokens))
  {
    if model !in table then Failure(KeyError(model))
    else Success(resp.(cost := Some(TokenCost(table[model], resp.inputTokens, resp.outputTokens))))
  }

  /** Pricing through the enum never hits the missing-key failure. */
  lemma EnumPricingNeverFails(resp: AIResponse, m: ValidLLMModel)
    ensures CalculateCost(resp, ModelName(m), LlmCostPerToken).Success?
  {
    EveryModelPriced();
  }

  /** With the positive rates of the table, cost is non-negative, zero for zero tokens, and monotone in each count. */
  lemma {:induction false} CostProperties(m: ValidLLMModel, input: nat, output: nat, input': nat, output': nat)
    ensures TokenCost(LlmCostPerToken[ModelName(m)], input, output) >= 0.0
    ensures TokenCost(LlmCostPerToken[ModelName(m)], 0, 0) == 0.0
    ensures input <= input' && output <= output' ==>
              TokenCost(LlmCostPerToken[ModelName(m)], input, output) <= TokenCost(LlmCostPerToken[ModelName(m)], input', output')
  {
    EveryModelPriced();
    RatesPositive();
    var rates := LlmCostPerToken[ModelName(m)];
    assert rates.input > 0.0 && rates.output > 0.0;
    if input <= input' && output <= output' {
      assert rates.input * input as real <= rates.input * input' as real;
      assert rates.output * output as real <= rates.output * output' as real;
    }
  }

  /** The worked example: 100 prompt and 50 completion tokens on gpt-4o cost 0.00125. */
  lemma Gpt4oExample()
    ensures TokenCost(LlmCostPerToken["gpt-4o"], 100, 50) == 0.00125
  {
  }
}
