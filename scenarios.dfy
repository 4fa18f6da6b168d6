/** Concrete requests from the gateway's own test suite, stated over the model. */
module Scenarios {
  import opened Wrappers
  import opened PyStr
  import opened Http
  import opened Catalog
  import opened Tts

  /** The process started with none of the three variables set. */
  function NoEnv(): Config {
    ConfigFromEnv(map[])
  }

  /** Whitespace-only text is blank, for any provider and any downstream behaviour. */
  lemma WhitespaceOnlyRejected(net: Outcome)
    ensures TextToSpeech(NoEnv(), WithDefaults(TtsBody("   \n\t  ", Some("mlx-audio"), None, None, None)), net)
         == TtsResult(None, Error(400, "Text cannot be empty"))
  {
    var s := "   \n\t  ";
    assert AllSpace(s) by {
      forall i | 0 <= i < |s| ensures IsSpace(s[i]) {
      }
    }
    BlankIffAllSpace(s);
  }

  /** "Hello world" has something left after stripping. */
  lemma HelloWorldNotBlank()
    ensures !IsBlank("Hello world")
  {
    assert TrimStart("Hello world") == "Hello world";
    assert TrimEnd("Hello world") == "Hello world";
  }

  /** An ElevenLabs request without a key, with none in the environment, stops at 400 before any call. */
  lemma ElevenLabsWithoutKeyRejected(net: Outcome)
    ensures TextToSpeech(NoEnv(), WithDefaults(TtsBody("Hello world", Some("elevenlabs"), Some("eleven_flash_v2_5"), None, None)), net)
         == TtsResult(None, Error(400, "ElevenLabs API key required"))
  {
    var req := WithDefaults(TtsBody("Hello world", Some("elevenlabs"), Some("eleven_flash_v2_5"), None, None));
    assert req == TtsRequest("Hello world", "elevenlabs", "eleven_flash_v2_5", None, None);
    HelloWorldNotBlank();
    assert KindOf(req.provider) == Some(ElevenLabs);
    assert EffectiveKey(NoEnv(), ElevenLabs, req) == "";
    CloudKeyRequired(NoEnv(), req, net);
    assert TextToSpeech(NoEnv(), req, net) == TtsResult(None, Error(400, Label(ElevenLabs) + " API key required"));
    KeyRequiredDetails();
  }

  /** An OpenAI request without a key, with none in the environment, stops at 400 before any call. */
  lemma OpenAiWithoutKeyRejected(net: Outcome)
    ensures TextToSpeech(NoEnv(), WithDefaults(TtsBody("Hello world", Some("openai"), Some("tts-1"), None, None)), net)
         == TtsResult(None, Error(400, "OpenAI API key required"))
  {
    var req := WithDefaults(TtsBody("Hello world", Some("openai"), Some("tts-1"), None, None));
    assert req == TtsRequest("Hello world", "openai", "tts-1", None, None);
    HelloWorldNotBlank();
    assert KindOf(req.provider) == Some(OpenAi);
    assert EffectiveKey(NoEnv(), OpenAi, req) == "";
    CloudKeyRequired(NoEnv(), req, net);
    assert TextToSpeech(NoEnv(), req, net) == TtsResult(None, Error(400, Label(OpenAi) + " API key required"));
    KeyRequiredDetails();
  }

  /** The two key-required details, spelled out. */
  lemma KeyRequiredDetails()
    ensures Label(ElevenLabs) + " API key required" == "ElevenLabs API key required"
    ensures Label(OpenAi) + " API key required" == "OpenAI API key required"
  {
  }

  /** The local server answering 500 gives a 500 whose detail names it and carries its text. */
  lemma LocalServerErrorPropagated(content: seq<byte>)
    ensures TextToSpeech(NoEnv(), WithDefaults(TtsBody("Hello world", Some("mlx-audio"), None, None, None)),
                         Reply(500, content, "Internal server error")).response
         == Error(500, "MLX-Audio error: Internal server error")
  {
    var req := WithDefaults(TtsBody("Hello world", Some("mlx-audio"), None, None, None));
    assert req == TtsRequest("Hello world", "mlx-audio", DefaultModel, None, None);
    HelloWorldNotBlank();
    assert KindOf(req.provider) == Some(MlxAudio);
    SentIffValid(NoEnv(), req, Reply(500, content, "Internal server error"));
    DownstreamStatusPropagated(NoEnv(), req, Reply(500, content, "Internal server error"));
    LocalServerErrorDetail();
  }

  /** The detail of that error, spelled out. */
  lemma LocalServerErrorDetail()
    ensures Label(MlxAudio) + " error: " + "Internal server error" == "MLX-Audio error: Internal server error"
  {
  }

  /** The local server answering 200 gives its bytes back verbatim as audio/mpeg. */
  lemma LocalServerSuccess(content: seq<byte>)
    ensures TextToSpeech(NoEnv(), WithDefaults(TtsBody("Hello world", Some("mlx-audio"),
                           Some("mlx-community/Kokoro-82M-bf16"), Some("af_heart"), None)),
                         Reply(200, content, "")).response
         == Audio(content, "audio/mpeg", "mp3")
  {
    HelloWorldNotBlank();
  }
}
