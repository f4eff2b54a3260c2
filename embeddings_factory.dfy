/**
 * `EmbeddingsFactory.create`: pick an embedding backend by the provider tag of
 * an API client and build the configuration handed to that backend's
 * constructor. The three backend classes belong to external libraries; the
 * model keeps only the option values passed to them.
 */
module EmbeddingsFactory {
  import opened Wrappers
  import opened ApiSuffix

  /** The four fields of the API client record that the factory reads. */
  datatype ApiClient = ApiClient(provider: string, model: string, apiKey: string, baseURL: string)

  /**
   * The argument of `create`. `dimensions` is the requested vector length, if
   * any; `sendDimensions` is `None` when the caller leaves it out.
   */
  datatype CreateParams = CreateParams(embedApiClient: ApiClient, dimensions: Option<nat>, sendDimensions: Option<bool>)

  /** The HTTP transport given to the OpenAI-compatible client: the host's `net.fetch`, kept opaque. */
  datatype Transport = NetFetch

  /** The `configuration` object of the OpenAI-compatible client. */
  datatype ClientConfiguration = ClientConfiguration(baseURL: string, fetch: Transport)

  /** The embedding client that `create` constructs, one variant per backend. */
  datatype Embeddings =
    | Voyage(modelName: string, apiKey: string, outputDimension: Option<nat>, batchSize: nat)
    | Ollama(model: string, baseUrl: string, requestOptions: map<string, string>)
    | OpenAi(model: string, apiKey: string, dimensions: Option<nat>, batchSize: nat, configuration: ClientConfiguration)

  const VoyageProvider: string := "voyageai"
  const OllamaProvider: string := "ollama"

  /** Batch size of the OpenAI-compatible client (the `batchSize` local of `create`). */
  const DefaultBatchSize: nat := 10
  /** Batch size of the Voyage client. */
  const VoyageBatchSize: nat := 8

  const EncodingFormatOption: string := "encoding-format"

  /**
   * `EmbeddingsFactory.create`. Total: every provider tag yields a client,
   * and every tag other than `voyageai` and `ollama` (an unknown one, or
   * Azure's) yields the OpenAI-compatible one.
   */
  function Create(params: CreateParams): (e: Embeddings)
    // The contract spells the tags, the option name and the batch sizes as literals,
    // so that it also pins the values of the named constants the body uses.
    // exactly one variant, chosen by the provider tag alone
    ensures e.Voyage? <==> params.embedApiClient.provider == "voyageai"
    ensures e.Ollama? <==> params.embedApiClient.provider == "ollama"
    ensures e.OpenAi? <==> params.embedApiClient.provider != "voyageai" && params.embedApiClient.provider != "ollama"
    // Voyage: batches of 8, the dimensions forwarded whatever sendDimensions says
    ensures e.Voyage? ==>
      && e.batchSize == 8
      && e.outputDimension == params.dimensions
      && e.modelName == params.embedApiClient.model
      && e.apiKey == params.embedApiClient.apiKey
    // Ollama: one trailing "/api" dropped from the base URL, float vectors requested
    ensures e.Ollama? ==>
      && e.model == params.embedApiClient.model
      && (EndsWithApi(params.embedApiClient.baseURL) ==> e.baseUrl + "/api" == params.embedApiClient.baseURL)
      && (!EndsWithApi(params.embedApiClient.baseURL) ==> e.baseUrl == params.embedApiClient.baseURL)
      && e.requestOptions.Keys == {"encoding-format"}
      && e.requestOptions["encoding-format"] == "float"
    // OpenAI-compatible: batches of 10, base URL untouched, dimensions dropped only on an explicit false
    ensures e.OpenAi? ==>
      && e.batchSize == 10
      && e.model == params.embedApiClient.model
      && e.apiKey == params.embedApiClient.apiKey
      && e.configuration.baseURL == params.embedApiClient.baseURL
      && e.configuration.fetch == NetFetch
      && (params.sendDimensions == Some(false) ==> e.dimensions == None)
      && (params.sendDimensions != Some(false) ==> e.dimensions == params.dimensions)
  {
    var sendDimensions := match params.sendDimensions case None => true case Some(b) => b;
    var batchSize := DefaultBatchSize;
    var ApiClient(provider, model, apiKey, baseURL) := params.embedApiClient;
    if provider == VoyageProvider then
      Voyage(model, apiKey, params.dimensions, VoyageBatchSize)
    else if provider == OllamaProvider then
      Ollama(model, StripApiSuffix(baseURL), map[EncodingFormatOption := "float"])
    else
      OpenAi(model, apiKey, if sendDimensions then params.dimensions else None, batchSize,
             ClientConfiguration(baseURL, NetFetch))
  }

  /** Leaving `sendDimensions` out is the same as passing `true`. */
  lemma SendDimensionsDefaultsToTrue(client: ApiClient, dimensions: Option<nat>)
    ensures Create(CreateParams(client, dimensions, None)) == Create(CreateParams(client, dimensions, Some(true)))
  {
  }

  /** The Voyage client does not depend on `sendDimensions`. */
  lemma VoyageIgnoresSendDimensions(client: ApiClient, dimensions: Option<nat>, s1: Option<bool>, s2: Option<bool>)
    requires client.provider == VoyageProvider
    ensures Create(CreateParams(client, dimensions, s1)) == Create(CreateParams(client, dimensions, s2))
  {
  }

  /** The Ollama client carries neither key nor dimensions: those inputs do not affect it. */
  lemma OllamaIgnoresKeyAndDimensions(client: ApiClient, apiKey: string, d1: Option<nat>, d2: Option<nat>, s1: Option<bool>, s2: Option<bool>)
    requires client.provider == OllamaProvider
    ensures Create(CreateParams(client, d1, s1)) == Create(CreateParams(client.(apiKey := apiKey), d2, s2))
  {
  }

  /** Which variant is built depends on the provider tag and on nothing else. */
  lemma VariantDependsOnlyOnProvider(p1: CreateParams, p2: CreateParams)
    requires p1.embedApiClient.provider == p2.embedApiClient.provider
    ensures Create(p1).Voyage? == Create(p2).Voyage?
    ensures Create(p1).Ollama? == Create(p2).Ollama?
    ensures Create(p1).OpenAi? == Create(p2).OpenAi?
  {
  }

  /** `create` with its two provider tests in the other order. */
  function CreateOllamaFirst(params: CreateParams): Embeddings
  {
    var c := params.embedApiClient;
    if c.provider == OllamaProvider then
      Ollama(c.model, StripApiSuffix(c.baseURL), map[EncodingFormatOption := "float"])
    else if c.provider == VoyageProvider then
      Voyage(c.model, c.apiKey, params.dimensions, VoyageBatchSize)
    else
      OpenAi(c.model, c.apiKey, if params.sendDimensions == Some(false) then None else params.dimensions,
             DefaultBatchSize, ClientConfiguration(c.baseURL, NetFetch))
  }

  /** The provider tests exclude each other, so their order does not change the result. */
  lemma BranchOrderIrrelevant(params: CreateParams)
    ensures Create(params) == CreateOllamaFirst(params)
  {
  }

  /** Voyage, 512 dimensions: batches of 8 and an output dimension of 512. */
  lemma VoyageScenario()
    ensures Create(CreateParams(ApiClient("voyageai", "voyage-2", "k", ""), Some(512), None))
         == Voyage("voyage-2", "k", Some(512), 8)
  {
  }

  /** Ollama at `http://host:11434/api`: the client's base URL is `http://host:11434`. */
  lemma OllamaScenario()
    ensures Create(CreateParams(ApiClient("ollama", "nomic-embed-text", "", "http://host:11434/api"), None, None)).baseUrl
         == "http://host:11434"
  {
  }

  /** OpenAI with `sendDimensions: false`: batches of 10 and no dimensions field. */
  lemma OpenAiScenario()
    ensures var e := Create(CreateParams(ApiClient("openai", "text-embedding-3-small", "k", "https://api.openai.com/v1"), Some(1536), Some(false)));
      e.OpenAi? && e.batchSize == 10 && e.dimensions == None
  {
  }

  /** An Azure tag or an unknown tag is served by the OpenAI-compatible client, base URL untouched. */
  lemma AzureFallsBackToOpenAi(model: string, apiKey: string, dimensions: Option<nat>)
    ensures var url := "https://xxxx.openai.azure.com/openai/v1";
      var e := Create(CreateParams(ApiClient("azure-openai", model, apiKey, url), dimensions, None));
      e == OpenAi(model, apiKey, dimensions, 10, ClientConfiguration(url, NetFetch))
  {
  }
}
