/** The model handle: it exists only when the sidebar key is non-empty and
    configuring the client with it did not fail. Configuring the client
    library and constructing the model object are foreign calls; their
    combined result is supplied by the caller as a `ConfigResult`. */
module Client {
  import opened Wrappers

  /** The model the handle is bound to. */
  const ModelName: string := "gemini-pro"

  /** A configured model object, remembering the key it was set up with. */
  datatype Handle = Handle(apiKey: string, modelName: string)

  /** What configuring the client library with a key and constructing the
      model object did: succeeded, or raised with the given description. */
  datatype ConfigResult = Accepted | Rejected(cause: string)

  /** What the sidebar shows after the configuration attempt. */
  datatype ConfigStatus = NoKey | Configured | ConfigFailed(message: string)

  const ConfigErrorPrefix: string := "An error occurred while setting up the Gemini model: "

  datatype Configuration = Configuration(handle: Option<Handle>, status: ConfigStatus)

  /** One pass over the key: the handle starts absent and is set only when
      the key is non-empty and configuration is accepted. An empty key
      does not even attempt configuration. */
  function Configure(apiKey: string, attempt: ConfigResult): (r: Configuration)
    ensures r.handle.Some? <==> apiKey != "" && attempt.Accepted?
    ensures r.handle.Some? ==> r.handle.value == Handle(apiKey, ModelName)
    ensures r.status.NoKey? <==> apiKey == ""
    ensures r.status.Configured? <==> r.handle.Some?
    ensures r.status.ConfigFailed? ==> attempt.Rejected? && r.status.message == ConfigErrorPrefix + attempt.cause
  {
    if apiKey != "" then
      match attempt
      case Accepted => Configuration(Some(Handle(apiKey, ModelName)), Configured)
      case Rejected(cause) => Configuration(None, ConfigFailed(ConfigErrorPrefix + cause))
    else
      Configuration(None, NoKey)
  }

  /** An empty key never yields a usable handle, whatever the library
      would have said. */
  lemma EmptyKeyNeverConfigures(attempt: ConfigResult)
    ensures Configure("", attempt).handle == None
    ensures Configure("", attempt).status == NoKey
  {
  }
}
