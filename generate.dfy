/**
 * The three request builders (`generate_mlx_audio`, `generate_elevenlabs`,
 * `generate_openai`): each checks its credential, builds the provider's
 * request, and turns the reply into audio bytes or an exception.
 */
module Generate {
  import opened Wrappers
  import opened PyStr
  import opened Http
  import opened Catalog

  const SpeechPath := "/v1/audio/speech"
  const ElevenLabsUrlPrefix := "https://api.elevenlabs.io/v1/text-to-speech/"
  const OpenAiSpeechUrl := "https://api.openai.com/v1/audio/speech"
  const JsonContentType := ("Content-Type", "application/json")

  /** What a builder ends with: the audio it returns, or the exception it raises. */
  datatype Result = Returned(audio: seq<byte>) | Raised(exception: Exception)

  /** The request a builder sent (none if it raised first) and how it ended. */
  datatype Generated = Generated(sent: Option<HttpRequest>, result: Result)

  /**
   * The common tail of the builders: a 200 reply yields its body verbatim,
   * any other status raises an HTTP exception carrying that status and the
   * reply's text, and a client exception propagates untouched.
   */
  function Receive(name: string, net: Outcome): (r: Result)
    ensures r.Returned? <==> net.Reply? && net.statusCode == 200
    ensures r.Returned? ==> r.audio == net.content
    ensures net.Reply? && net.statusCode != 200 ==>
      r == Raised(HttpException(net.statusCode, name + " error: " + net.text))
    ensures net.Failed? ==> r == Raised(Transport(net.error))
  {
    match net
    case Reply(status, content, text) =>
      if status != 200 then Raised(HttpException(status, name + " error: " + text))
      else Returned(content)
    case Failed(e) => Raised(Transport(e))
  }

  /** The local server's speech request: `{model, input, voice}` posted to `<base>/v1/audio/speech`. */
  function MlxAudioRequest(baseUrl: string, text: string, model: string, voice: Option<string>): (q: HttpRequest)
    ensures q.verb == "POST" && q.url == baseUrl + SpeechPath && q.headers == []
    ensures |q.json| == 3
    ensures Lookup(q.json, "model") == Some(model)
    ensures Lookup(q.json, "input") == Some(text)
    ensures Lookup(q.json, "voice") == Some(Or(voice, DefaultVoice(MlxAudio)))
  {
    var body := [("model", model), ("input", text), ("voice", Or(voice, DefaultVoice(MlxAudio)))];
    assert DistinctNames(body);
    LookupAt(body, 0);
    LookupAt(body, 1);
    LookupAt(body, 2);
    HttpRequest("POST", baseUrl + SpeechPath, [], body)
  }

  /** ElevenLabs' speech request: `{text, model_id}` posted to the voice's own URL, keyed by `xi-api-key`. */
  function ElevenLabsRequest(text: string, model: string, voice: Option<string>, apiKey: string): (q: HttpRequest)
    ensures q.verb == "POST"
    ensures |q.url| >= |ElevenLabsUrlPrefix| && q.url[..|ElevenLabsUrlPrefix|] == ElevenLabsUrlPrefix
    ensures q.url[|ElevenLabsUrlPrefix|..] == Or(voice, DefaultVoice(ElevenLabs))
    ensures |q.headers| == 2
    ensures Lookup(q.headers, "xi-api-key") == Some(apiKey)
    ensures Lookup(q.headers, "Content-Type") == Some("application/json")
    ensures |q.json| == 2
    ensures Lookup(q.json, "text") == Some(text)
    ensures Lookup(q.json, "model_id") == Some(model)
  {
    var url := ElevenLabsUrlPrefix + Or(voice, DefaultVoice(ElevenLabs));
    var headers := [("xi-api-key", apiKey), JsonContentType];
    var body := [("text", text), ("model_id", model)];
    assert url[..|ElevenLabsUrlPrefix|] == ElevenLabsUrlPrefix;
    assert DistinctNames(headers);
    LookupAt(headers, 0);
    LookupAt(headers, 1);
    assert DistinctNames(body);
    LookupAt(body, 0);
    LookupAt(body, 1);
    HttpRequest("POST", url, headers, body)
  }

  /** OpenAI's JSON body: `{model, input, voice, response_format: "wav"}`. */
  function OpenAiBody(text: string, model: string, voice: Option<string>): (b: Fields)
    ensures |b| == 4
    ensures Lookup(b, "model") == Some(model)
    ensures Lookup(b, "input") == Some(text)
    ensures Lookup(b, "voice") == Some(Or(voice, DefaultVoice(OpenAi)))
    ensures Lookup(b, "response_format") == Some("wav")
  {
    var body := [("model", model), ("input", text), ("voice", Or(voice, DefaultVoice(OpenAi))),
                 ("response_format", "wav")];
    assert DistinctNames(body);
    LookupAt(body, 0);
    LookupAt(body, 1);
    LookupAt(body, 2);
    LookupAt(body, 3);
    body
  }

  /** OpenAI's speech request: the body above, posted to a fixed URL with a bearer credential. */
  function OpenAiRequest(text: string, model: string, voice: Option<string>, apiKey: string): (q: HttpRequest)
    ensures q.verb == "POST" && q.url == OpenAiSpeechUrl
    ensures |q.headers| == 2
    ensures Lookup(q.headers, "Authorization") == Some("Bearer " + apiKey)
    ensures Lookup(q.headers, "Content-Type") == Some("application/json")
    ensures q.json == OpenAiBody(text, model, voice)
  {
    var headers := [("Authorization", "Bearer " + apiKey), JsonContentType];
    assert DistinctNames(headers);
    LookupAt(headers, 0);
    LookupAt(headers, 1);
    HttpRequest("POST", OpenAiSpeechUrl, headers, OpenAiBody(text, model, voice))
  }

  /** `generate_mlx_audio`: never consults a credential and always sends its request. */
  function GenerateMlxAudio(baseUrl: string, text: string, model: string, voice: Option<string>, net: Outcome)
    : (g: Generated)
    ensures g.sent == Some(MlxAudioRequest(baseUrl, text, model, voice))
    ensures g.result == Receive(Label(MlxAudio), net)
  {
    Generated(Some(MlxAudioRequest(baseUrl, text, model, voice)), Receive(Label(MlxAudio), net))
  }

  /** The exception a cloud builder raises, before any call, when its credential is empty. */
  function KeyRequired(k: Kind): (e: Exception)
    ensures e.HttpException? && e.statusCode == 400
    ensures |e.detail| > |Label(k)| && e.detail[..|Label(k)|] == Label(k)
  {
    HttpException(400, Label(k) + " API key required")
  }

  /** `generate_elevenlabs`: an empty key raises before anything is sent. */
  function GenerateElevenLabs(text: string, model: string, voice: Option<string>, apiKey: string, net: Outcome)
    : (g: Generated)
    ensures g.sent.None? <==> apiKey == ""
    ensures apiKey == "" ==> g.result == Raised(KeyRequired(ElevenLabs))
    ensures apiKey != "" ==>
      g.sent == Some(ElevenLabsRequest(text, model, voice, apiKey)) && g.result == Receive(Label(ElevenLabs), net)
  {
    if apiKey == "" then Generated(None, Raised(KeyRequired(ElevenLabs)))
    else Generated(Some(ElevenLabsRequest(text, model, voice, apiKey)), Receive(Label(ElevenLabs), net))
  }

  /** `generate_openai`: an empty key raises before anything is sent. */
  function GenerateOpenAi(text: string, model: string, voice: Option<string>, apiKey: string, net: Outcome)
    : (g: Generated)
    ensures g.sent.None? <==> apiKey == ""
    ensures apiKey == "" ==> g.result == Raised(KeyRequired(OpenAi))
    ensures apiKey != "" ==>
      g.sent == Some(OpenAiRequest(text, model, voice, apiKey)) && g.result == Receive(Label(OpenAi), net)
  {
    if apiKey == "" then Generated(None, Raised(KeyRequired(OpenAi)))
    else Generated(Some(OpenAiRequest(text, model, voice, apiKey)), Receive(Label(OpenAi), net))
  }
}
