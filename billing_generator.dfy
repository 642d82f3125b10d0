/** `generate_synthetic_billing`: asks the model for billing records and keeps
    its answer only when it extracts to a non-empty list. */
module BillingGenerator {
  import opened PyValue
  import opened LlmClient

  /** The profile values the prompt is built from; its wording is not modelled. */
  datatype BillingPrompt = BillingPrompt(name: Json, budget: Json, techStack: Json)

  /** One run of a stage: the prompt sent to the model, if any, and the result. */
  datatype BillingRun = BillingRun(sent: Option<BillingPrompt>, result: Option<seq<Json>>)

  const DefaultBudget := 5000

  /** The fields `profile.get` supplies to the prompt. */
  function PromptFor(profile: Json): (p: BillingPrompt)
    requires profile.Obj?
    ensures "budget_inr_per_month" !in profile.fields ==> p.budget == Num(DefaultBudget)
    ensures "budget_inr_per_month" in profile.fields ==> p.budget == profile.fields["budget_inr_per_month"]
  {
    BillingPrompt(
      Get(profile, "name", Null),
      Get(profile, "budget_inr_per_month", Num(DefaultBudget)),
      Get(profile, "tech_stack", Obj(map[])))
  }

  /** What the stage makes of the model's reply: the extracted value when it
      is a non-empty list, otherwise None. A raised error is caught. */
  function BillingFromReply(reply: LlmReply, parse: string -> Option<Json>): (r: Option<seq<Json>>)
    ensures r.Some? <==>
      reply.Text? && reply.content != [] && ExtractJson(reply.content, parse).Some?
      && ExtractJson(reply.content, parse).value.Arr? && ExtractJson(reply.content, parse).value.items != []
    ensures r.Some? ==> ExtractJson(reply.content, parse) == Some(Arr(r.value))
  {
    match reply
    case Raised(_) => None
    case NoContent => None
    case Text(text) =>
      if text == [] then None
      else
        var billing := ExtractJson(text, parse);
        if billing.Some? && Truthy(billing.value) && billing.value.Arr? then Some(billing.value.items)
        else None
  }

  /** `generate_synthetic_billing(profile)`, with the model given as `llm`. */
  function GenerateSyntheticBilling(profile: Json, llm: BillingPrompt -> LlmReply, parse: string -> Option<Json>): (r: BillingRun)
    requires DictOrFalsy(profile)
    ensures !Truthy(profile) ==> r.sent.None? && r.result.None?
    ensures Truthy(profile) ==> r.sent == Some(PromptFor(profile)) && r.result == BillingFromReply(llm(PromptFor(profile)), parse)
    ensures r.result.Some? ==> r.result.value != []
  {
    if !Truthy(profile) then BillingRun(None, None)
    else
      var prompt := PromptFor(profile);
      BillingRun(Some(prompt), BillingFromReply(llm(prompt), parse))
  }
}
