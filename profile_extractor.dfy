/** `extract_project_profile`: one model call and one extraction, with no
    try block, no shape check and no budget default. */
module ProfileExtractor {
  import opened PyValue
  import opened LlmClient

  datatype ProfilePrompt = ProfilePrompt(description: string)

  /** The profile, or the exception that escapes the call. */
  datatype ProfileOutcome = Profile(value: Option<Json>) | Propagated

  /** `extract_project_profile(description)`: a `None` reply reaches
      `re.search` and raises TypeError; an error of the model call propagates. */
  function ExtractProjectProfile(description: string, llm: ProfilePrompt -> LlmReply,
                                 parse: string -> Option<Json>): (r: ProfileOutcome)
    ensures r.Profile? <==> llm(ProfilePrompt(description)).Text?
    ensures r.Profile? ==> r.value == ExtractJson(llm(ProfilePrompt(description)).content, parse)
  {
    match llm(ProfilePrompt(description))
    case Text(text) => Profile(ExtractJson(text, parse))
    case _ => Propagated
  }
}
