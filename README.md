# Embeddings factory

A model of `EmbeddingsFactory.create` from the knowledge-base subsystem of a
desktop chat client. Given an API client record (provider tag, model name,
API key, base URL), an optional vector dimensionality and an optional
`sendDimensions` flag, `create` builds one of three embedding clients:

- `voyageai`: a Voyage client with batches of 8 that always receives the
  dimensionality as its output dimension;
- `ollama`: an Ollama client whose base URL loses one trailing `/api` and
  whose requests ask for the `float` encoding format;
- anything else (OpenAI itself, Azure OpenAI, unknown tags): an
  OpenAI-compatible client with batches of 10, the base URL unchanged, the
  host's `net.fetch` as transport, and the dimensionality sent unless
  `sendDimensions` is explicitly `false`.

The model is three files of pure functions and lemmas:

- `wrappers.dfy`: `Option`, standing for a JavaScript value that may be `undefined`.
- `api_suffix.dfy`: `baseURL.replace(/\/api$/, '')`. The regular-expression
  search is modelled as a left-to-right scan for the leftmost match
  (`FirstMatchFrom`), followed by replacing that one match. The lemmas show
  that this amounts to dropping one trailing `/api`.
- `embeddings_factory.dfy`: the input records, the `Embeddings` result with
  one variant per backend, `Create`, and lemmas about it.

`sendDimensions` is `Option<bool>`: `None` is "left out", which the source
defaults to `true`.

## Model

| member | source | states |
|---|---|---|
| `EmbeddingsFactory.Create` | src/main/knowledge/embedjs/embeddings/EmbeddingsFactory.ts:16-45 | Total. Exactly one variant, chosen by the provider tag alone. Voyage iff the tag is `voyageai`: batch size 8, output dimension equals `dimensions`, model and key passed through. Ollama iff the tag is `ollama`: model passed through, `baseUrl + "/api" == baseURL` when the URL ends with `/api` and `baseUrl == baseURL` otherwise, the only request option is `encoding-format = float`. OpenAI-compatible for every other tag: batch size 10, model, key and base URL passed through, `net.fetch` transport, `dimensions` absent when `sendDimensions` is `false` and equal to the input otherwise |
| `ApiSuffix.FirstMatchFrom` | src/main/knowledge/embedjs/embeddings/EmbeddingsFactory.ts:30 | The regular-expression search: the position found is a match of `/\/api$/` at or after the start, and no position before it matches; when nothing is found, no position matches |
| `ApiSuffix.MatchOnlyAtEnd` | src/main/knowledge/embedjs/embeddings/EmbeddingsFactory.ts:30 | The pattern matches at position `i` iff the string ends with `/api` and `i` is four characters before the end |
| `ApiSuffix.StripApiSuffix` | src/main/knowledge/embedjs/embeddings/EmbeddingsFactory.ts:30 | Replacing the leftmost match by the empty string: if the URL ends with `/api`, the result followed by `/api` is the URL; otherwise the URL is unchanged |
| `ApiSuffix.StripUndoesAppend` | src/main/knowledge/embedjs/embeddings/EmbeddingsFactory.ts:30 | For every string `u`, stripping `u + "/api"` gives back `u` |
| `ApiSuffix.StripRemovesOnlyOne` | src/main/knowledge/embedjs/embeddings/EmbeddingsFactory.ts:30 | Only one trailing `/api` is removed: `h/api/api` becomes `h/api` |
| `ApiSuffix.StripKeepsTrailingSlash` | src/main/knowledge/embedjs/embeddings/EmbeddingsFactory.ts:30 | A URL ending in `/api/` is left unchanged |
| `ApiSuffix.StripIsPrefix` | src/main/knowledge/embedjs/embeddings/EmbeddingsFactory.ts:30 | The rewritten URL is a prefix of the original and never longer |
| `EmbeddingsFactory.SendDimensionsDefaultsToTrue` | src/main/knowledge/embedjs/embeddings/EmbeddingsFactory.ts:16 | Leaving `sendDimensions` out gives the same client as passing `true` |
| `EmbeddingsFactory.VoyageIgnoresSendDimensions` | src/main/knowledge/embedjs/embeddings/EmbeddingsFactory.ts:19-25 | For `voyageai`, the client is the same whatever `sendDimensions` is |
| `EmbeddingsFactory.OllamaIgnoresKeyAndDimensions` | src/main/knowledge/embedjs/embeddings/EmbeddingsFactory.ts:27-35 | For `ollama`, the API key, `dimensions` and `sendDimensions` do not affect the client |
| `EmbeddingsFactory.VariantDependsOnlyOnProvider` | src/main/knowledge/embedjs/embeddings/EmbeddingsFactory.ts:18-44 | Two calls with the same provider tag build the same variant, whatever the other inputs |
| `EmbeddingsFactory.BranchOrderIrrelevant` | src/main/knowledge/embedjs/embeddings/EmbeddingsFactory.ts:19-36 | Testing `ollama` before `voyageai` gives the same result: the two tests exclude each other |
| `EmbeddingsFactory.VoyageScenario` | src/main/knowledge/embedjs/embeddings/EmbeddingsFactory.ts:19-25 | `voyageai`, `voyage-2`, 512 dimensions gives a Voyage client with batch size 8 and output dimension 512 |
| `EmbeddingsFactory.OllamaScenario` | src/main/knowledge/embedjs/embeddings/EmbeddingsFactory.ts:27-35 | `ollama` at `http://host:11434/api` gives the base URL `http://host:11434` |
| `EmbeddingsFactory.OpenAiScenario` | src/main/knowledge/embedjs/embeddings/EmbeddingsFactory.ts:37-44 | `openai` with 1536 dimensions and `sendDimensions` false gives an OpenAI-compatible client with batch size 10 and no dimensions |
| `EmbeddingsFactory.AzureFallsBackToOpenAi` | src/main/knowledge/embedjs/embeddings/EmbeddingsFactory.ts:37-44 | The `azure-openai` tag with an Azure host gets the OpenAI-compatible client, base URL unchanged, batch size 10 |

## Left out

- The behaviour of the Voyage, Ollama and OpenAI embedding classes (requests, batching, retries): they belong to external libraries. Only the option values handed to their constructors are modelled.
- Errors thrown by those constructors: the factory neither raises nor catches any, so they simply propagate and are not modelled.
- Electron's `net.fetch`: network I/O. It appears only as the opaque `NetFetch` transport marker on the OpenAI-compatible variant.
- The `ApiClient` type beyond the four fields `create` reads (`provider`, `model`, `apiKey`, `baseURL`). The provider tag is a plain string.
- `dimensions` is a natural number. A JavaScript number that is negative, fractional or `NaN` is not modelled. The source types it as a plain `number` (src/main/knowledge/embedjs/embeddings/EmbeddingsFactory.ts:16) and never checks that it is a positive integer; the model does not require that either.
- Keys present with the value `undefined`: the source keeps the `dimensions` key on the OpenAI-compatible options with the value `undefined` when `sendDimensions` is false (src/main/knowledge/embedjs/embeddings/EmbeddingsFactory.ts:41), and keeps `outputDimension` on the Voyage options with the value `undefined` when no dimensions are given (src/main/knowledge/embedjs/embeddings/EmbeddingsFactory.ts:23). The model's `None` does not tell a key holding `undefined` apart from a missing key. What the libraries then send is their own behaviour.
- Object identity: each call builds a fresh client object. The model compares configuration values only, so two calls with equal inputs give equal values.
- JavaScript truthiness of `sendDimensions`: the flag is a boolean or absent. Other values the type system would reject are not modelled.
