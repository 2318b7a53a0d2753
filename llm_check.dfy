/** `check_llm` (GET /llm/ping): validate the provider and model name, then
    ping the model. Both guards raise HTTP 400, but the catch-all handler
    re-raises every exception, those two included, as HTTP 500 whose
    detail is the text of the original exception. */
module LlmCheck {
  import opened Wrappers
  import opened Http

  /** `llm_providers` of the configuration constants. */
  const SupportedProviders: seq<string> := ["openai", "google", "anthropic"]

  const MissingInputDetail: string := "400: Model provider and name must be provided."

  function UnsupportedDetail(provider: string): string {
    "400: Unsupported model provider: " + provider + ". Supported providers are: openai, google, anthropic."
  }

  /** `LlmManager(model_provider, model_name).ping()`; an error carries the
      text of the exception raised. */
  type Pinger = (string, string) -> Result<bool, string>

  function CheckLlm(provider: string, name: string, ping: Pinger): (r: Result<bool, HttpException>)
    ensures r.Err? ==> r.error.status == 500
    ensures provider == "" || name == "" ==> r == Err(HttpException(500, MissingInputDetail))
    ensures provider != "" && name != "" && provider !in SupportedProviders
            ==> r == Err(HttpException(500, UnsupportedDetail(provider)))
    ensures r.Ok? <==> provider != "" && name != "" && provider in SupportedProviders && ping(provider, name).Ok?
    ensures r.Ok? ==> r.value == ping(provider, name).value
    ensures provider != "" && name != "" && provider in SupportedProviders && ping(provider, name).Err?
            ==> r == Err(HttpException(500, ping(provider, name).error))
  {
    if provider == "" || name == "" then Err(HttpException(500, MissingInputDetail))
    else if provider !in SupportedProviders then Err(HttpException(500, UnsupportedDetail(provider)))
    else
      match ping(provider, name)
      case Ok(alive) => Ok(alive)
      case Err(e) => Err(HttpException(500, e))
  }

  /** The manager is built and pinged only after both guards pass: while a
      guard fails, the outcome does not depend on the model at all. */
  lemma GuardsPrecedePing(provider: string, name: string, ping1: Pinger, ping2: Pinger)
    requires provider == "" || name == "" || provider !in SupportedProviders
    ensures CheckLlm(provider, name, ping1) == CheckLlm(provider, name, ping2)
  {
  }
}
