/** The request handleGenerate reads from the form and its pre-flight
    checks. */
module Validation {
  import opened Wrappers

  /** The form state handleGenerate reads. An empty string is a missing value. */
  datatype Request = Request(
    isDemoMode: bool,
    apiKey: string,
    imageUrl: string,
    prompt: string,
    audioStyle: string)

  /** The fields the controller requires, in the order it checks them. */
  datatype Field = ApiKey | ImageUrl | Prompt

  const MissingKeyMsg := "Please provide your Kie AI API Key."
  const MissingImageMsg := "Please provide a reference image URL."
  const MissingPromptMsg := "Please provide a visual prompt."

  function MissingMessage(f: Field): string
  {
    match f
    case ApiKey => MissingKeyMsg
    case ImageUrl => MissingImageMsg
    case Prompt => MissingPromptMsg
  }

  /** Every required field that is missing, in check order; the API key is
      required only outside demo mode. */
  function MissingFields(req: Request): seq<Field>
  {
    (if !req.isDemoMode && req.apiKey == "" then [ApiKey] else [])
    + (if req.imageUrl == "" then [ImageUrl] else [])
    + (if req.prompt == "" then [Prompt] else [])
  }

  /** The pre-flight checks: the message of the first missing field, or
      None when the request may proceed. */
  function Validate(req: Request): (r: Option<string>)
    ensures r.None? <==> MissingFields(req) == []
    ensures r.Some? ==> r.value == MissingMessage(MissingFields(req)[0])
  {
    if !req.isDemoMode && req.apiKey == "" then Some(MissingKeyMsg)
    else if req.imageUrl == "" then Some(MissingImageMsg)
    else if req.prompt == "" then Some(MissingPromptMsg)
    else None
  }

  /** In demo mode the API key is never looked at. */
  lemma DemoModeIgnoresKey(req: Request, key: string)
    requires req.isDemoMode
    ensures ApiKey !in MissingFields(req)
    ensures Validate(req.(apiKey := key)) == Validate(req)
  {
  }
}
