# Narrate text-to-speech gateway: a Dafny model

Narrate is a small web backend that takes text and returns synthesized speech.
It hands the synthesis to one of three providers: a local MLX-Audio server and
two cloud APIs, ElevenLabs and OpenAI. This project models the gateway's
decision procedure in `app.py`:

- the static provider catalog (`PROVIDERS`) and the `TTSRequest` defaults;
- `text_to_speech`: validation in a fixed order, then dispatch to one provider,
  then mapping the provider's audio or failure to one response;
- the three request builders `generate_mlx_audio`, `generate_elevenlabs` and
  `generate_openai`;
- `health_check`: how key presence and one probe of the local server become
  per-provider status strings.

HTTP is abstracted away. A downstream call is the `Http.HttpRequest` that
would be sent, plus an `Http.Outcome` passed in from outside: a reply
(status, body bytes, body text), a timeout, a connection failure, or any
other client exception. `Tts.TextToSpeech` returns the request it sent as an
`Option`, so "no downstream call was made" is a property one can state.

Modules, one file each: `Wrappers` (Option), `PyStr` (Python's `str.strip()`
and the truthiness of `str | None`), `Http` (requests, outcomes,
exceptions), `Catalog` (`PROVIDERS`, the per-provider constants, the
environment settings), `Generate` (the builders), `Tts` (the endpoint),
`Health` (the health check) and `Scenarios` (requests taken from
`tests/test_api.py`). Everything is a pure function except
`Health.HealthCheck`. That is a method, because the source builds a status
dictionary and then overwrites its local-server entry in place.

## Model

| member | source | states |
|---|---|---|
| `PyStr.TrimStartSpec` | app.py:195 | what `lstrip()` leaves is the longest suffix not starting with whitespace; everything removed is whitespace |
| `PyStr.IsSpace` | app.py:195 | no contract of its own: CPython's `str.isspace()` set, the characters `strip()` removes, listed code point by code point; used by `PyStr.TrimStartSpec`, `PyStr.TrimEndSpec` and `PyStr.BlankIffAllSpace` |
| `PyStr.TrimEndSpec` | app.py:195 | what `rstrip()` leaves is the longest prefix not ending with whitespace; everything removed is whitespace |
| `PyStr.StripSpec` | app.py:195 | the result of `strip()` is a slice of the input that neither starts nor ends with whitespace, and everything cut away on either side is whitespace |
| `PyStr.Strip` | app.py:195 | no contract of its own: `text.strip()`, specified by `PyStr.StripSpec` |
| `PyStr.IsBlank` | app.py:195 | no contract of its own: `not request.text.strip()`, specified by `PyStr.BlankIffAllSpace` |
| `PyStr.Truthy` | app.py:210 | no contract of its own: an optional string is truthy when present and non-empty; used by `PyStr.Or` |
| `PyStr.BlankIffAllSpace` | app.py:195 | `not text.strip()` holds exactly when every character is Python whitespace |
| `PyStr.Or` | app.py:210 | `a or b` is `a` when `a` is a non-empty string, else `b`; it is empty exactly when `a` is falsy and `b` is empty |
| `Catalog.GetProviders` | app.py:88-91 | the catalog has exactly the three providers; only the cloud ones require a key; both cloud providers list voices |
| `Catalog.ProviderIdsAreCatalogKeys` | app.py:22-72 | the ids dispatch checks against are exactly the keys of `PROVIDERS` |
| `Catalog.KindOf` | app.py:198-223 | a provider id selects a dispatch branch exactly when it is in `PROVIDERS`, and the branch is that id's own |
| `Catalog.KindOfId` | app.py:204-223 | each of the three branches is reached by its own id |
| `Catalog.DefaultVoice` | app.py:116-167 | no contract of its own: the voice each builder falls back to, `af_heart` (app.py:116), `21m00Tcm4TlvDq8ikWAM` (app.py:140) and `alloy` (app.py:167); specified by `Catalog.DefaultsAgreeWithCatalog` and `Tts.SentRequest` |
| `Catalog.Label` | app.py:130-186 | no contract of its own: the provider name in the error details (app.py:130, 138, 157, 165, 186); used by `Generate.Receive` and `Generate.KeyRequired`, specified by `Tts.CloudKeyRequired` and `Tts.DownstreamStatusPropagated` |
| `Catalog.MediaType` | app.py:206-222 | no contract of its own: the `media_type` each branch sets (app.py:206, 214, 222); specified by `Catalog.MediaTypeMatchesExtension` |
| `Catalog.Extension` | app.py:207-223 | no contract of its own: the `ext` each branch sets (app.py:207, 215, 223); specified by `Catalog.MediaTypeMatchesExtension` and `Tts.FilenameCarriesExtension` |
| `Catalog.DefaultsAgreeWithCatalog` | app.py:22-72 | the default voices of ElevenLabs and OpenAI are in their catalog voices; the local entry lists no voices; the default model is a catalog model |
| `Catalog.MediaTypeMatchesExtension` | app.py:204-223 | media type and extension always name the same format: mpeg/mp3 or wav/wav, and wav exactly for OpenAI |
| `Catalog.ConfigFromEnv` | app.py:17-19 | each setting is the environment's value when present, otherwise `http://127.0.0.1:8000` or the empty key |
| `Catalog.EnvKey` | app.py:210-218 | no contract of its own: the module-level key each cloud branch falls back to, `ELEVENLABS_API_KEY` (app.py:210) or `OPENAI_API_KEY` (app.py:218); used by `Tts.EffectiveKey` |
| `Generate.Receive` | app.py:127-132 | a reply counts as audio exactly when its status is 200, and the audio is the body verbatim; any other status raises that same status with `"<Provider> error: <text>"`; client exceptions propagate |
| `Generate.MlxAudioRequest` | app.py:114-126 | POST to `<MLX_AUDIO_URL>/v1/audio/speech` with three JSON fields: `model`, the text as `input`, and the voice or `af_heart` |
| `Generate.ElevenLabsRequest` | app.py:140-153 | POST to `.../text-to-speech/` followed by the voice or `21m00Tcm4TlvDq8ikWAM`; the key in `xi-api-key`; JSON `{text, model_id}` |
| `Generate.OpenAiBody` | app.py:176-181 | four JSON fields: `model`, the text as `input`, the voice or `alloy`, and `response_format` `wav` |
| `Generate.OpenAiRequest` | app.py:167-182 | POST to the fixed OpenAI URL with `Authorization: Bearer <key>` and that body |
| `Generate.GenerateMlxAudio` | app.py:114-132 | the local builder always sends its request and consults no key |
| `Generate.KeyRequired` | app.py:137-138 | the missing-key exception is an `HTTPException` with status 400 whose detail starts with the provider's label (the same check for OpenAI is at app.py:164-165) |
| `Generate.GenerateElevenLabs` | app.py:135-159 | nothing is sent exactly when the key is empty; then 400 "ElevenLabs API key required" is raised; otherwise the request is sent with that key |
| `Generate.GenerateOpenAi` | app.py:162-188 | nothing is sent exactly when the key is empty; then 400 "OpenAI API key required" is raised; otherwise the request is sent with that key |
| `Tts.WithDefaults` | app.py:75-80 | an omitted provider becomes `mlx-audio` and an omitted model `mlx-community/Spark-TTS-0.5B-bf16`; voice and key stay optional |
| `Tts.MapException` | app.py:233-243 | every exception becomes an error: timeout 504, connection failure 503 naming the provider, an HTTP exception unchanged, anything else 500 with its message |
| `Tts.EffectiveKey` | app.py:210 | the request's key wins when it is truthy; the resolved key is empty exactly when the request's key is falsy and the environment's key is empty (the same `or` for OpenAI is at app.py:218) |
| `Tts.Dispatch` | app.py:203-223 | nothing is sent exactly when the provider is a cloud one and its resolved key is empty, and then the result is the key-required exception; a sent request's result is the reply received under the provider's label |
| `Tts.TextToSpeech` | app.py:191-243 | a request is sent only for non-blank text and a catalog provider; audio is returned only after a 200 reply and is its body verbatim |
| `Tts.Respond` | app.py:225-243 | the builder's audio goes out with the provider's media type and extension; its exception is mapped; the sent request is kept |
| `Tts.NoCallResponses` | app.py:195-221 | without a downstream call the response is one of: blank text, unknown provider, or a missing cloud key |
| `Tts.EmptyTextRejected` | app.py:195-196 | the response is 400 "Text cannot be empty" with no call exactly when the text strips to nothing, checked before the provider |
| `Tts.UnknownProviderRejected` | app.py:198-199 | the response is 400 "Unknown provider: <provider>" with no call exactly when the text is not blank and the provider is not in `PROVIDERS` |
| `Tts.CloudKeyRequired` | app.py:209-221 | for a cloud provider, the resolved key (the request's if truthy, else the environment's) is empty exactly when the response is 400 "<Provider> API key required" with no call |
| `Tts.SentIffValid` | app.py:195-221 | a downstream request is sent exactly when the text is not blank, the provider is known, and a cloud provider has a resolved key |
| `Tts.NoCallMeansClientError` | app.py:195-221 | every response made without a downstream call is a 400 error |
| `Tts.NoCallIgnoresOutcome` | app.py:195-221 | when nothing is sent, the downstream outcome does not affect the result |
| `Tts.MlxAudioIgnoresKeys` | app.py:204-207 | for `mlx-audio`, neither the request's key nor the environment keys change the result |
| `Tts.SentRequest` | app.py:204-221 | the request sent carries the URL, the text unstripped, the model, the voice or default, and the resolved key in that provider's header |
| `Tts.DefaultsReachLocalServer` | tests/test_api.py:231-251 | a body holding only text goes to `http://127.0.0.1:8000/v1/audio/speech` with the default model and voice `af_heart` |
| `Tts.DefaultSpeechUrl` | app.py:120 | the default local base URL plus the speech path is `http://127.0.0.1:8000/v1/audio/speech` |
| `Tts.SuccessIff200` | app.py:204-231 | the response is audio exactly when a request was sent and answered 200; the body is verbatim, as audio/wav `wav` for OpenAI and audio/mpeg `mp3` otherwise |
| `Tts.DownstreamStatusPropagated` | app.py:240-241 | a non-200 reply to a sent request becomes an error with that status and `"<Provider> error: <reply text>"` |
| `Tts.TransportFailuresMapped` | app.py:233-239 | after a sent request, a timeout gives 504, a connection failure 503 naming the provider, and any other client exception 500 with its message |
| `Tts.Take` | app.py:229 | `s[:n]` has length min(len(s), n) and is a prefix of `s` |
| `Tts.Filename` | app.py:229 | the name starts with `narrate_`, adds at most 8 random characters, and ends in a dot followed by the extension; when the extension has no dot, what follows the name's last dot is exactly that extension |
| `Tts.ContentDisposition` | app.py:228-230 | the header starts with `attachment; filename=narrate_`, and when the extension has no dot, what follows the header's last dot is exactly that extension |
| `Tts.ExtensionAfterDot` | app.py:229 | after the last dot of `<prefix>.<ext>` comes `ext`, when `ext` has no dot |
| `Tts.FilenameCarriesExtension` | app.py:229 | each provider's attachment filename ends in that provider's extension |
| `Tts.FilenameMatchesMediaType` | app.py:204-229 | the filename of a successful response has the response's extension, which matches its media type |
| `Health.ProbeRequest` | app.py:105-106 | the probe is a GET of `<MLX_AUDIO_URL>/v1/models` |
| `Health.KeyStatus` | app.py:99-100 | a cloud provider is "configured" exactly when its environment key is non-empty, otherwise "no_api_key" |
| `Health.LocalStatus` | app.py:103-109 | the local server is "connected" exactly on a 200 reply, "error" on any other reply, "disconnected" on any exception, never "unknown" |
| `Health.HealthCheck` | app.py:94-111 | overall status is "ok"; exactly three entries; the local entry is the probe's status and the cloud entries are their key statuses |
| `Health.ConfiguredIffFallbackKeySuffices` | app.py:97-100 | a cloud provider shows as configured exactly when a request to it carrying no key gets as far as the downstream call |
| `Scenarios.WhitespaceOnlyRejected` | tests/test_api.py:84-89 | `"   \n\t  "` is rejected with 400 "Text cannot be empty" |
| `Scenarios.ElevenLabsWithoutKeyRejected` | tests/test_api.py:99-106 | with no key anywhere, an ElevenLabs request gives 400 "ElevenLabs API key required" and sends nothing |
| `Scenarios.OpenAiWithoutKeyRejected` | tests/test_api.py:108-115 | with no key anywhere, an OpenAI request gives 400 "OpenAI API key required" and sends nothing |
| `Scenarios.LocalServerErrorPropagated` | tests/test_api.py:191-209 | the local server answering 500 "Internal server error" gives 500 "MLX-Audio error: Internal server error" |
| `Scenarios.LocalServerSuccess` | tests/test_api.py:121-143 | the local server answering 200 gives its bytes verbatim as audio/mpeg |

## Left out

- Networking, `async` and the client timeouts (120 s for synthesis, 5 s for the health probe). A call is the request it would send, plus an outcome passed in as a parameter.
- `response.text`, the reply body decoded by the HTTP client. It is a given field of `Http.Outcome.Reply`, not derived from the bytes.
- The Content-Type header that the HTTP client adds by itself to the local server's JSON request. Only headers the code sets are modelled.
- The FastAPI and pydantic layer: routing, JSON parsing, the 422 for a missing `text` or an explicit `null` provider or model, and `StreamingResponse`. These are framework behaviour.
- The index page and the static file mount (app.py:83-85, 247). They serve files and make no decisions.
- `uuid.uuid4()`. Its hex string is a parameter of `Tts.Filename`, and only the first eight characters are used.
- Reading the environment. `Catalog.ConfigFromEnv` takes the environment as a map.
- The order of entries in the catalog dictionaries. They are modelled as maps.
- `Generate.MlxAudioRequest`: states how many JSON fields and headers there are and what each one holds, not the order in which they are written.
- `Generate.ElevenLabsRequest`: states how many JSON fields and headers there are and what each one holds, not the order in which they are written.
- `Generate.OpenAiBody`: states how many JSON fields there are and what each one holds, not the order in which they are written.
- `Generate.OpenAiRequest`: states how many headers there are and what each one holds, not the order in which they are written.
- Exception classes that match more than one `except` clause. httpx's connection failure, timeout and other errors are disjoint variants here, so it does not matter that the timeout clause comes first.
- The `UnboundLocalError` that would follow a catalog provider matching none of the three branches. It cannot happen: `Catalog.KindOf` maps every catalog key to a branch.
