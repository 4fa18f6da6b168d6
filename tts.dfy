/**
 * `POST /api/tts`: validate the request, dispatch it to one provider's
 * builder, and map the builder's audio or exception into one response.
 */
module Tts {
  import opened Wrappers
  import opened PyStr
  import opened Http
  import opened Catalog
  import opened Generate

  const DefaultProvider := "mlx-audio"
  const DefaultModel := "mlx-community/Spark-TTS-0.5B-bf16"

  /** The JSON body as the client sent it: every field but `text` may be omitted. */
  datatype TtsBody = TtsBody(
    text: string,
    provider: Option<string>,
    model: Option<string>,
    voice: Option<string>,
    apiKey: Option<string>)

  /** `TTSRequest` once its defaults are applied. */
  datatype TtsRequest = TtsRequest(
    text: string,
    provider: string,
    model: string,
    voice: Option<string>,
    apiKey: Option<string>)

  /** The defaults of `TTSRequest`: omitted provider and model take fixed values, voice and key stay optional. */
  function WithDefaults(b: TtsBody): (r: TtsRequest)
    ensures r.text == b.text && r.voice == b.voice && r.apiKey == b.apiKey
    ensures b.provider.None? ==> r.provider == DefaultProvider
    ensures b.provider.Some? ==> r.provider == b.provider.value
    ensures b.model.None? ==> r.model == DefaultModel
    ensures b.model.Some? ==> r.model == b.model.value
  {
    TtsRequest(b.text, b.provider.GetOr(DefaultProvider), b.model.GetOr(DefaultModel), b.voice, b.apiKey)
  }

  /** What the client receives: audio with its media type and extension, or an error status and detail. */
  datatype Response =
    | Audio(content: seq<byte>, mediaType: string, extension: string)
    | Error(statusCode: int, detail: string)

  /** The downstream request sent on behalf of the client (if any) and the response. */
  datatype TtsResult = TtsResult(sent: Option<HttpRequest>, response: Response)

  /** The `except` chain around the dispatch: how an exception from a builder becomes a response. */
  function MapException(provider: string, e: Exception): (r: Response)
    ensures r.Error?
    ensures e.HttpException? ==> r == Error(e.statusCode, e.detail)
    ensures e == Transport(Timeout) ==> r == Error(504, "TTS generation timed out")
    ensures e == Transport(ConnectFailure) ==>
      r == Error(503, "Cannot connect to " + provider + ". Check your connection or API settings.")
    ensures e.Transport? && e.error.Other? ==> r == Error(500, e.error.message)
  {
    match e
    case Transport(Timeout) => Error(504, "TTS generation timed out")
    case Transport(ConnectFailure) =>
      Error(503, "Cannot connect to " + provider + ". Check your connection or API settings.")
    case HttpException(status, detail) => Error(status, detail)
    case Transport(Other(message)) => Error(500, message)
  }

  /** The key a request ends up using with a cloud provider: its own if truthy, else the environment's. */
  function EffectiveKey(c: Config, k: Kind, req: TtsRequest): (key: string)
    requires k != MlxAudio
    ensures Truthy(req.apiKey) ==> key == req.apiKey.value
    ensures key == "" <==> !Truthy(req.apiKey) && EnvKey(c, k) == ""
  {
    Or(req.apiKey, EnvKey(c, k))
  }

  /** The builder a provider shape selects. */
  function Dispatch(c: Config, k: Kind, req: TtsRequest, net: Outcome): (g: Generated)
    ensures g.sent.None? <==> k != MlxAudio && EffectiveKey(c, k, req) == ""
    ensures g.sent.None? ==> g.result == Raised(KeyRequired(k))
    ensures g.sent.Some? ==> g.result == Receive(Label(k), net)
  {
    match k
    case MlxAudio => GenerateMlxAudio(c.mlxAudioUrl, req.text, req.model, req.voice, net)
    case ElevenLabs => GenerateElevenLabs(req.text, req.model, req.voice, EffectiveKey(c, k, req), net)
    case OpenAi => GenerateOpenAi(req.text, req.model, req.voice, EffectiveKey(c, k, req), net)
  }

  /**
   * `text_to_speech`. `net` is what the downstream service does if it is
   * called; it is irrelevant when no request is sent.
   */
  function TextToSpeech(c: Config, req: TtsRequest, net: Outcome): (r: TtsResult)
    ensures r.sent.Some? ==> !IsBlank(req.text) && req.provider in ProviderIds
    ensures r.response.Audio? ==>
      r.sent.Some? && net.Reply? && net.statusCode == 200 && r.response.content == net.content
  {
    if IsBlank(req.text) then TtsResult(None, Error(400, "Text cannot be empty"))
    else match KindOf(req.provider)
      case None => TtsResult(None, Error(400, "Unknown provider: " + req.provider))
      case Some(k) => Respond(req.provider, k, Dispatch(c, k, req, net))
  }

  /** The `try` body's ending: the builder's audio with the provider's media type, or its mapped exception. */
  function Respond(provider: string, k: Kind, g: Generated): (r: TtsResult)
    ensures r.sent == g.sent
    ensures r.response.Audio? <==> g.result.Returned?
    ensures g.result.Returned? ==> r.response == Audio(g.result.audio, MediaType(k), Extension(k))
    ensures g.result.Raised? ==> r.response == MapException(provider, g.result.exception)
  {
    match g.result
    case Returned(audio) => TtsResult(g.sent, Audio(audio, MediaType(k), Extension(k)))
    case Raised(e) => TtsResult(g.sent, MapException(provider, e))
  }

  // ---------------------------------------------------------------------
  // Validation order and "no downstream call"
  // ---------------------------------------------------------------------

  /** Two strings that differ in their first character differ. */
  lemma DifferAtStart(a: string, b: string, x: string, y: string)
    requires a != [] && b != [] && a[0] != b[0]
    ensures a + x != b + y
  {
    assert (a + x)[0] == a[0];
    assert (b + y)[0] == b[0];
  }

  /**
   * The only responses given without a downstream call: blank text, an
   * unknown provider, and a cloud provider without a key.
   */
  lemma NoCallResponses(c: Config, req: TtsRequest, net: Outcome)
    requires TextToSpeech(c, req, net).sent.None?
    ensures var e := TextToSpeech(c, req, net).response;
      || (IsBlank(req.text) && e == Error(400, "Text cannot be empty"))
      || (!IsBlank(req.text) && KindOf(req.provider).None? && e == Error(400, "Unknown provider: " + req.provider))
      || (!IsBlank(req.text) && KindOf(req.provider).Some? && KindOf(req.provider).value != MlxAudio &&
          e == Error(400, Label(KindOf(req.provider).value) + " API key required"))
  {
    if !IsBlank(req.text) && KindOf(req.provider).Some? {
      var k := KindOf(req.provider).value;
      assert TextToSpeech(c, req, net) == Respond(req.provider, k, Dispatch(c, k, req, net));
    }
  }

  /** The three no-call details are pairwise distinct, whatever the provider string. */
  lemma NoCallDetailsDistinct(p: string, k: Kind)
    ensures "Unknown provider: " + p != "Text cannot be empty"
    ensures Label(k) + " API key required" != "Text cannot be empty"
    ensures Label(k) + " API key required" != "Unknown provider: " + p
  {
    DifferAtStart("Unknown provider: ", "Text cannot be empty", p, "");
    assert "Text cannot be empty" + "" == "Text cannot be empty";
    DifferAtStart(Label(k), "T", " API key required", "ext cannot be empty");
    assert "T" + "ext cannot be empty" == "Text cannot be empty";
    DifferAtStart(Label(k), "Unknown provider: ", " API key required", p);
  }

  /**
   * Text that strips to nothing is rejected with 400 "Text cannot be empty",
   * before the provider is looked at and without a downstream call; no
   * other request draws that response.
   */
  lemma EmptyTextRejected(c: Config, req: TtsRequest, net: Outcome)
    ensures TextToSpeech(c, req, net) == TtsResult(None, Error(400, "Text cannot be empty"))
        <==> IsBlank(req.text)
  {
    var r := TextToSpeech(c, req, net);
    if !IsBlank(req.text) && r.sent.None? {
      NoCallResponses(c, req, net);
      NoCallDetailsDistinct(req.provider, if KindOf(req.provider).Some? then KindOf(req.provider).value else OpenAi);
    }
  }

  /**
   * A provider outside the catalog is rejected with 400 "Unknown provider:
   * <provider>" without a downstream call, exactly when the text is not blank.
   */
  lemma UnknownProviderRejected(c: Config, req: TtsRequest, net: Outcome)
    ensures TextToSpeech(c, req, net) == TtsResult(None, Error(400, "Unknown provider: " + req.provider))
        <==> !IsBlank(req.text) && req.provider !in ProviderIds
  {
    var r := TextToSpeech(c, req, net);
    if r.sent.None? {
      NoCallResponses(c, req, net);
      NoCallDetailsDistinct(req.provider, if KindOf(req.provider).Some? then KindOf(req.provider).value else OpenAi);
    }
  }

  /**
   * A cloud provider whose resolved key (the request's if truthy, else the
   * environment's) is empty answers 400 "<Provider> API key required" without
   * a downstream call; with a non-empty key the request is sent.
   */
  lemma CloudKeyRequired(c: Config, req: TtsRequest, net: Outcome)
    requires !IsBlank(req.text)
    requires req.provider in {"elevenlabs", "openai"}
    ensures var k := KindOf(req.provider).value;
      EffectiveKey(c, k, req) == "" <==>
      TextToSpeech(c, req, net) == TtsResult(None, Error(400, Label(k) + " API key required"))
    ensures var k := KindOf(req.provider).value;
      EffectiveKey(c, k, req) != "" <==> TextToSpeech(c, req, net).sent.Some?
  {
  }

  /** A downstream request is sent exactly when every validation step passes. */
  lemma SentIffValid(c: Config, req: TtsRequest, net: Outcome)
    ensures TextToSpeech(c, req, net).sent.Some? <==>
      !IsBlank(req.text) && req.provider in ProviderIds &&
      (req.provider != "mlx-audio" ==> EffectiveKey(c, KindOf(req.provider).value, req) != "")
  {
  }

  /** Every response produced without a downstream call is a 400 error. */
  lemma NoCallMeansClientError(c: Config, req: TtsRequest, net: Outcome)
    requires TextToSpeech(c, req, net).sent.None?
    ensures TextToSpeech(c, req, net).response.Error?
    ensures TextToSpeech(c, req, net).response.statusCode == 400
  {
  }

  /** When nothing is sent, what the downstream service would have done does not matter. */
  lemma NoCallIgnoresOutcome(c: Config, req: TtsRequest, net: Outcome, net': Outcome)
    requires TextToSpeech(c, req, net).sent.None?
    ensures TextToSpeech(c, req, net') == TextToSpeech(c, req, net)
  {
    if !IsBlank(req.text) && KindOf(req.provider).Some? {
      var k := KindOf(req.provider).value;
      assert TextToSpeech(c, req, net) == Respond(req.provider, k, Dispatch(c, k, req, net));
      assert TextToSpeech(c, req, net') == Respond(req.provider, k, Dispatch(c, k, req, net'));
      assert Dispatch(c, k, req, net') == Dispatch(c, k, req, net);
    }
  }

  // ---------------------------------------------------------------------
  // Credentials, defaults and the request that is sent
  // ---------------------------------------------------------------------

  /** The local provider never consults a key: neither the request's nor the environment's. */
  lemma MlxAudioIgnoresKeys(c: Config, req: TtsRequest, net: Outcome, k1: string, k2: string, key: Option<string>)
    requires req.provider == "mlx-audio"
    ensures TextToSpeech(c.(elevenLabsKey := k1, openAiKey := k2), req.(apiKey := key), net)
         == TextToSpeech(c, req, net)
  {
  }

  /**
   * What is sent, per provider: the configured local URL, the voice's own
   * ElevenLabs URL or OpenAI's fixed URL; the text verbatim (not stripped);
   * the requested model; the voice or the provider's default; and, for the
   * cloud providers, the resolved key in the provider's header.
   */
  lemma SentRequest(c: Config, req: TtsRequest, net: Outcome)
    ensures TextToSpeech(c, req, net).sent.Some? ==>
      var q := TextToSpeech(c, req, net).sent.value;
      var k := KindOf(req.provider).value;
      && q.verb == "POST"
      && (k == MlxAudio ==>
            && q.url == c.mlxAudioUrl + "/v1/audio/speech"
            && Lookup(q.json, "input") == Some(req.text)
            && Lookup(q.json, "model") == Some(req.model)
            && Lookup(q.json, "voice") == Some(if Truthy(req.voice) then req.voice.value else "af_heart"))
      && (k == ElevenLabs ==>
            && q.url == "https://api.elevenlabs.io/v1/text-to-speech/"
                        + (if Truthy(req.voice) then req.voice.value else "21m00Tcm4TlvDq8ikWAM")
            && Lookup(q.headers, "xi-api-key") == Some(Or(req.apiKey, c.elevenLabsKey))
            && Lookup(q.json, "text") == Some(req.text)
            && Lookup(q.json, "model_id") == Some(req.model))
      && (k == OpenAi ==>
            && q.url == "https://api.openai.com/v1/audio/speech"
            && Lookup(q.headers, "Authorization") == Some("Bearer " + Or(req.apiKey, c.openAiKey))
            && Lookup(q.json, "input") == Some(req.text)
            && Lookup(q.json, "model") == Some(req.model)
            && Lookup(q.json, "voice") == Some(if Truthy(req.voice) then req.voice.value else "alloy")
            && Lookup(q.json, "response_format") == Some("wav"))
  {
    if TextToSpeech(c, req, net).sent.Some? && KindOf(req.provider) == Some(ElevenLabs) {
      var q := TextToSpeech(c, req, net).sent.value;
      var p := ElevenLabsUrlPrefix;
      assert q.url == p + q.url[|p|..] by { assert q.url == q.url[..|p|] + q.url[|p|..]; }
    }
  }

  /**
   * A body carrying only the text goes to the local server at its default
   * address, with the default model and voice.
   */
  lemma DefaultsReachLocalServer(text: string, net: Outcome)
    requires !IsBlank(text)
    ensures var r := TextToSpeech(ConfigFromEnv(map[]), WithDefaults(TtsBody(text, None, None, None, None)), net);
      && r.sent.Some?
      && r.sent.value.url == "http://127.0.0.1:8000/v1/audio/speech"
      && Lookup(r.sent.value.json, "model") == Some("mlx-community/Spark-TTS-0.5B-bf16")
      && Lookup(r.sent.value.json, "voice") == Some("af_heart")
  {
    var c := ConfigFromEnv(map[]);
    var req := WithDefaults(TtsBody(text, None, None, None, None));
    assert c.mlxAudioUrl == DefaultMlxAudioUrl;
    assert req == TtsRequest(text, "mlx-audio", DefaultModel, None, None);
    assert KindOf(req.provider) == Some(MlxAudio);
    var g := GenerateMlxAudio(c.mlxAudioUrl, text, DefaultModel, None, net);
    assert TextToSpeech(c, req, net) == Respond(req.provider, MlxAudio, g);
    assert g.sent == Some(MlxAudioRequest(DefaultMlxAudioUrl, text, DefaultModel, None));
    DefaultSpeechUrl();
  }

  /** The local speech endpoint at the default address. */
  lemma DefaultSpeechUrl()
    ensures DefaultMlxAudioUrl + SpeechPath == "http://127.0.0.1:8000/v1/audio/speech"
  {
  }

  // ---------------------------------------------------------------------
  // Mapping the downstream result
  // ---------------------------------------------------------------------

  /**
   * Success is exactly a sent request answered with 200; the audio is the
   * downstream body verbatim, declared as MP3 for the local server and
   * ElevenLabs and as WAV for OpenAI.
   */
  lemma SuccessIff200(c: Config, req: TtsRequest, net: Outcome)
    ensures var r := TextToSpeech(c, req, net);
      r.response.Audio? <==> r.sent.Some? && net.Reply? && net.statusCode == 200
    ensures var r := TextToSpeech(c, req, net);
      r.response.Audio? ==>
        && r.response.content == net.content
        && (req.provider == "openai" ==> r.response.mediaType == "audio/wav" && r.response.extension == "wav")
        && (req.provider != "openai" ==> r.response.mediaType == "audio/mpeg" && r.response.extension == "mp3")
  {
    if !IsBlank(req.text) && KindOf(req.provider).Some? {
      var k := KindOf(req.provider).value;
      var g := Dispatch(c, k, req, net);
      assert TextToSpeech(c, req, net) == Respond(req.provider, k, g);
      assert g.result.Returned? <==> g.sent.Some? && net.Reply? && net.statusCode == 200;
      assert req.provider == Id(k);
    }
  }

  /** A non-200 reply becomes an error with that same status and "<Provider> error: <reply text>". */
  lemma DownstreamStatusPropagated(c: Config, req: TtsRequest, net: Outcome)
    ensures TextToSpeech(c, req, net).sent.Some? && net.Reply? && net.statusCode != 200 ==>
      TextToSpeech(c, req, net).response
        == Error(net.statusCode, Label(KindOf(req.provider).value) + " error: " + net.text)
  {
  }

  /**
   * Client exceptions during the call: a timeout is 504, a connection
   * failure 503 naming the provider, anything else 500 with its message.
   */
  lemma TransportFailuresMapped(c: Config, req: TtsRequest, net: Outcome)
    ensures TextToSpeech(c, req, net).sent.Some? && net.Failed? ==>
      var r := TextToSpeech(c, req, net).response;
      && (net.error == Timeout ==> r == Error(504, "TTS generation timed out"))
      && (net.error == ConnectFailure ==>
            r == Error(503, "Cannot connect to " + req.provider + ". Check your connection or API settings."))
      && (net.error.Other? ==> r == Error(500, net.error.message))
  {
  }

  // ---------------------------------------------------------------------
  // The attachment filename
  // ---------------------------------------------------------------------

  /** Python's `s[:n]`. */
  function Take(s: string, n: nat): (r: string)
    ensures |r| == if |s| < n then |s| else n
    ensures r == s[..|r|]
  {
    if |s| <= n then s else s[..n]
  }

  /** The attachment name `narrate_<first 8 of the random hex>.<ext>`; the randomness is a parameter. */
  function Filename(randomHex: string, ext: string): (name: string)
    ensures |"narrate_"| < |name| <= |"narrate_"| + 8 + 1 + |ext|
    ensures name[..|"narrate_"|] == "narrate_"
    ensures |name| > |ext| && name[|name| - |ext| - 1..] == "." + ext
    ensures '.' !in ext ==> AfterLastDot(name) == ext
  {
    var p := "narrate_" + Take(randomHex, 8);
    if '.' in ext then p + "." + ext
    else
      ExtensionAfterDot(p, ext);
      p + "." + ext
  }

  /** The `Content-Disposition` header of a successful response. */
  function ContentDisposition(randomHex: string, ext: string): (h: string)
    ensures |h| >= |"attachment; filename=narrate_"|
    ensures h[..|"attachment; filename=narrate_"|] == "attachment; filename=narrate_"
    ensures '.' !in ext ==> AfterLastDot(h) == ext
  {
    var p := "attachment; filename=narrate_" + Take(randomHex, 8);
    var h := "attachment; filename=" + Filename(randomHex, ext);
    assert h == p + "." + ext;
    if '.' in ext then h
    else
      ExtensionAfterDot(p, ext);
      h
  }

  /** The part of a name after its last dot (all of it if it has none): what a client sees as its extension. */
  function AfterLastDot(s: string): string
    decreases |s|
  {
    if s == [] then []
    else if s[|s| - 1] == '.' then []
    else AfterLastDot(s[..|s| - 1]) + [s[|s| - 1]]
  }

  /** Whatever `p` is, the extension of `p + "." + ext` is `ext` when `ext` has no dot. */
  lemma {:induction false} ExtensionAfterDot(p: string, ext: string)
    requires '.' !in ext
    ensures AfterLastDot(p + "." + ext) == ext
    decreases |ext|
  {
    var s := p + "." + ext;
    if ext == [] {
      assert s[|s| - 1] == '.';
    } else {
      var e' := ext[..|ext| - 1];
      assert s[..|s| - 1] == p + "." + e';
      assert s[|s| - 1] == ext[|ext| - 1];
      ExtensionAfterDot(p, e');
      assert e' + [ext[|ext| - 1]] == ext;
    }
  }

  /**
   * The offered filename carries the response's extension, and that
   * extension names the same format as the declared media type.
   */
  lemma FilenameMatchesMediaType(c: Config, req: TtsRequest, net: Outcome, randomHex: string)
    ensures TextToSpeech(c, req, net).response.Audio? ==>
      var a := TextToSpeech(c, req, net).response;
      && AfterLastDot(Filename(randomHex, a.extension)) == a.extension
      && (a.mediaType, a.extension) in {("audio/mpeg", "mp3"), ("audio/wav", "wav")}
  {
    if TextToSpeech(c, req, net).response.Audio? {
      var k := KindOf(req.provider).value;
      assert TextToSpeech(c, req, net) == Respond(req.provider, k, Dispatch(c, k, req, net));
      MediaTypeMatchesExtension(k);
      FilenameCarriesExtension(randomHex, k);
    }
  }

  /** Each provider's filename ends in that provider's extension. */
  lemma FilenameCarriesExtension(randomHex: string, k: Kind)
    ensures AfterLastDot(Filename(randomHex, Extension(k))) == Extension(k)
  {
    assert '.' !in Extension(k);
    ExtensionAfterDot("narrate_" + Take(randomHex, 8), Extension(k));
  }
}
