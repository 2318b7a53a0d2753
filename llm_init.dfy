/** `initialize_model`: accept one of three providers, then let the model
    library build the chat model with the name and provider forwarded.
    Errors from either step are re-raised unchanged. */
module LlmInit {
  import opened Wrappers

  /** The providers `initialize_model` accepts. */
  const ValidProviders: seq<string> := ["openai", "google", "anthropic"]

  /** `init_chat_model(model_name=…, model_provider=…, **kwargs)`. */
  datatype ProviderModel = ProviderModel(modelName: string, modelProvider: string, options: map<string, string>)

  datatype InitError = InvalidProvider(provider: string) | LibraryError(reason: string)

  /** The model library: None when it builds the model, else the text of
      the exception it raises. */
  type ModelLibrary = ProviderModel -> Option<string>

  function InitializeModel(provider: string, name: string, options: map<string, string>, library: ModelLibrary)
    : (r: Result<ProviderModel, InitError>)
    ensures provider !in ValidProviders ==> r == Err(InvalidProvider(provider))
    ensures r.Ok? <==> provider in ValidProviders && library(ProviderModel(name, provider, options)).None?
    ensures r.Ok? ==> r.value.modelName == name && r.value.modelProvider == provider && r.value.options == options
    ensures provider in ValidProviders && library(ProviderModel(name, provider, options)).Some?
            ==> r == Err(LibraryError(library(ProviderModel(name, provider, options)).value))
  {
    if provider !in ValidProviders then Err(InvalidProvider(provider))
    else
      var model := ProviderModel(name, provider, options);
      match library(model)
      case Some(reason) => Err(LibraryError(reason))
      case None => Ok(model)
  }

  /** Exactly three providers pass the guard. */
  lemma AcceptedProviders(provider: string)
    ensures provider in ValidProviders <==> provider == "openai" || provider == "google" || provider == "anthropic"
  {
  }

  /** An invalid provider is refused before the model library is consulted:
      the outcome is the same whatever the library would do. */
  lemma GuardPrecedesLibrary(provider: string, name: string, options: map<string, string>,
                             library1: ModelLibrary, library2: ModelLibrary)
    requires provider !in ValidProviders
    ensures InitializeModel(provider, name, options, library1) == InitializeModel(provider, name, options, library2)
  {
  }
}
