/**
 * `ChatNvidiaNIM`: the OpenAI-compatible chat client configured for NVIDIA's
 * NIM endpoint.  It is a record of fields with defaults, plus two read-only
 * identity properties.  Temperature and top_p are Python floats; they are
 * kept here as the decimal constants the source writes.
 */
module NvidiaNim {
  import opened Wrappers

  const DefaultModel: string := "qwen/qwen3-next-80b-a3b-instruct"
  const DefaultBaseUrl: string := "https://integrate.api.nvidia.com/v1"
  const DefaultTemperature: real := 0.6
  const DefaultTopP: real := 0.7
  const DefaultMaxCompletionTokens: int := 4096
  const ProviderName: string := "nvidia-nim"

  datatype ChatNvidiaNim = ChatNvidiaNim(
    apiKey: Option<string>,
    model: string,
    baseUrl: string,
    temperature: real,
    topP: real,
    maxCompletionTokens: int)

  /** The keyword arguments a caller may pass; an absent one takes the field's default. */
  datatype Overrides = Overrides(
    model: Option<string>,
    baseUrl: Option<string>,
    temperature: Option<real>,
    topP: Option<real>,
    maxCompletionTokens: Option<int>)

  const NoOverrides: Overrides := Overrides(None, None, None, None, None)

  function OrDefault<T>(given: Option<T>, default: T): T
  {
    if given.Some? then given.value else default
  }

  /** The dataclass constructor. */
  function Create(apiKey: Option<string>, o: Overrides): ChatNvidiaNim
  {
    ChatNvidiaNim(
      apiKey,
      OrDefault(o.model, DefaultModel),
      OrDefault(o.baseUrl, DefaultBaseUrl),
      OrDefault(o.temperature, DefaultTemperature),
      OrDefault(o.topP, DefaultTopP),
      OrDefault(o.maxCompletionTokens, DefaultMaxCompletionTokens))
  }

  /** The `provider` property. */
  function Provider(c: ChatNvidiaNim): string
  {
    ProviderName
  }

  /** The `name` property: `f"nvidia-nim/{self.model}"`. */
  function Name(c: ChatNvidiaNim): string
  {
    ProviderName + "/" + c.model
  }

  /** The model a name was made from, if it has the provider's prefix. */
  function ModelOfName(name: string): (m: Option<string>)
  {
    var prefix := ProviderName + "/";
    if |name| >= |prefix| && name[..|prefix|] == prefix then Some(name[|prefix|..]) else None
  }

  /** The client `book_appointment` builds (its arguments restate the defaults). */
  function BookingClient(apiKey: string): ChatNvidiaNim
  {
    Create(Some(apiKey), Overrides(Some("qwen/qwen3-next-80b-a3b-instruct"), None, Some(0.6), Some(0.7), Some(4096)))
  }

  // ---------------------------------------------------------------- properties

  /** Built with a credential only, the client has the NIM defaults. */
  lemma CredentialOnlyDefaults(apiKey: string)
    ensures var c := Create(Some(apiKey), NoOverrides);
      c.apiKey == Some(apiKey) && c.model == "qwen/qwen3-next-80b-a3b-instruct" &&
      c.baseUrl == "https://integrate.api.nvidia.com/v1" && c.temperature == 0.6 && c.topP == 0.7 &&
      c.maxCompletionTokens == 4096
  {
  }

  /** Each keyword argument that is passed replaces the default; nothing else changes. */
  lemma OverridesTakeEffect(apiKey: Option<string>, o: Overrides)
    ensures var c := Create(apiKey, o); var d := Create(apiKey, NoOverrides);
      c.apiKey == apiKey &&
      (o.model.Some? ==> c.model == o.model.value) && (o.model.None? ==> c.model == d.model) &&
      (o.baseUrl.Some? ==> c.baseUrl == o.baseUrl.value) && (o.baseUrl.None? ==> c.baseUrl == d.baseUrl) &&
      (o.temperature.Some? ==> c.temperature == o.temperature.value) && (o.temperature.None? ==> c.temperature == d.temperature) &&
      (o.topP.Some? ==> c.topP == o.topP.value) && (o.topP.None? ==> c.topP == d.topP) &&
      (o.maxCompletionTokens.Some? ==> c.maxCompletionTokens == o.maxCompletionTokens.value) &&
      (o.maxCompletionTokens.None? ==> c.maxCompletionTokens == d.maxCompletionTokens)
  {
  }

  /** The provider is the constant "nvidia-nim", whatever the configuration. */
  lemma ProviderIsConstant(c: ChatNvidiaNim, e: ChatNvidiaNim)
    ensures Provider(c) == "nvidia-nim" && Provider(c) == Provider(e)
  {
  }

  /** The name is the provider, a slash and the model, so it starts with the provider. */
  lemma NameExtendsProvider(c: ChatNvidiaNim)
    ensures Name(c) == Provider(c) + "/" + c.model
    ensures |Name(c)| > |Provider(c)| && Name(c)[..|Provider(c)|] == Provider(c)
  {
    assert Name(c)[..|ProviderName|] == ProviderName;
  }

  /** The name determines the model and the model the name: it depends on nothing else. */
  lemma NameOnlyFromModel(c: ChatNvidiaNim, e: ChatNvidiaNim)
    ensures ModelOfName(Name(c)) == Some(c.model)
    ensures Name(c) == Name(e) <==> c.model == e.model
  {
    var prefix := ProviderName + "/";
    assert Name(c)[..|prefix|] == prefix && Name(c)[|prefix|..] == c.model;
    assert Name(e)[..|prefix|] == prefix && Name(e)[|prefix|..] == e.model;
  }

  /** The client `book_appointment` builds is the default one for its credential. */
  lemma BookingClientIsDefault(apiKey: string)
    ensures BookingClient(apiKey) == Create(Some(apiKey), NoOverrides)
  {
  }
}
