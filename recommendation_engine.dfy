/** `generate_recommendations`: asks the model for optimisation advice and
    returns whatever list it can recover, `[]` on every failure. */
module RecommendationEngine {
  import opened PyValue
  import opened LlmClient

  /** The profile and summary values the prompt is built from; its wording is
      not modelled. */
  datatype RecommendationPrompt = RecommendationPrompt(
    projectName: Json,
    techStack: Json,
    nonFunctionalRequirements: Json,
    totalCost: Json,
    budget: Json,
    variance: Json,
    serviceCosts: Json)

  /** One run of the stage: the prompt sent to the model, if any, and the
      returned value (a list, or the verbatim `recommendations` entry). */
  datatype RecommendationRun = RecommendationRun(sent: Option<RecommendationPrompt>, result: Json)

  const NoRecommendations: Json := Arr([])

  /** The `.get` lookups with their defaults. */
  function PromptFor(profile: Json, summary: Json): (p: RecommendationPrompt)
    requires profile.Obj? && summary.Obj?
    ensures "total_monthly_cost" !in summary.fields ==> p.totalCost == Num(0)
    ensures "budget" !in summary.fields ==> p.budget == Num(0)
    ensures "budget_variance" !in summary.fields ==> p.variance == Num(0)
    ensures "service_costs" !in summary.fields ==> p.serviceCosts == Obj(map[])
    ensures "name" !in profile.fields ==> p.projectName == Str("Unknown Project")
    ensures "name" in profile.fields ==> p.projectName == profile.fields["name"]
    ensures "total_monthly_cost" in summary.fields ==> p.totalCost == summary.fields["total_monthly_cost"]
    ensures "budget" in summary.fields ==> p.budget == summary.fields["budget"]
    ensures "budget_variance" in summary.fields ==> p.variance == summary.fields["budget_variance"]
    ensures "service_costs" in summary.fields ==> p.serviceCosts == summary.fields["service_costs"]
  {
    RecommendationPrompt(
      Get(profile, "name", Str("Unknown Project")),
      Get(profile, "tech_stack", Obj(map[])),
      Get(profile, "non_functional_requirements", Arr([])),
      Get(summary, "total_monthly_cost", Num(0)),
      Get(summary, "budget", Num(0)),
      Get(summary, "budget_variance", Num(0)),
      Get(summary, "service_costs", Obj(map[])))
  }

  /** What the stage makes of the model's reply: an extracted list as it is,
      the `recommendations` entry of an extracted dict unchecked, and `[]` for
      anything else, including a raised error. */
  function RecommendationsFromReply(reply: LlmReply, parse: string -> Option<Json>): (r: Json)
    ensures !reply.Text? || reply.content == [] ==> r == NoRecommendations
    ensures reply.Text? && reply.content != [] ==>
      match ExtractJson(reply.content, parse)
      case Some(Arr(items)) => r == Arr(items)
      case Some(Obj(fields)) => r == (if "recommendations" in fields then fields["recommendations"] else NoRecommendations)
      case _ => r == NoRecommendations
  {
    match reply
    case Raised(_) => NoRecommendations
    case NoContent => NoRecommendations
    case Text(text) =>
      if text == [] then NoRecommendations
      else
        match ExtractJson(text, parse)
        case Some(Arr(items)) => Arr(items)
        case Some(Obj(fields)) =>
          if "recommendations" in fields then fields["recommendations"] else NoRecommendations
        case _ => NoRecommendations
  }

  /** `generate_recommendations(profile, analysis_summary)`, with the model
      given as `llm`. */
  function GenerateRecommendations(profile: Json, summary: Json, llm: RecommendationPrompt -> LlmReply,
                                   parse: string -> Option<Json>): (r: RecommendationRun)
    requires Truthy(profile) && Truthy(summary) ==> profile.Obj? && summary.Obj?
    ensures !Truthy(profile) || !Truthy(summary) ==> r == RecommendationRun(None, NoRecommendations)
    ensures Truthy(profile) && Truthy(summary) ==>
      && r.sent == Some(PromptFor(profile, summary))
      && r.result == RecommendationsFromReply(llm(PromptFor(profile, summary)), parse)
  {
    if !Truthy(profile) || !Truthy(summary) then RecommendationRun(None, NoRecommendations)
    else
      var prompt := PromptFor(profile, summary);
      RecommendationRun(Some(prompt), RecommendationsFromReply(llm(prompt), parse))
  }
}
