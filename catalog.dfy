/**
 * The static provider catalog, the per-provider constants the gateway
 * hard-codes, and the process configuration read from the environment.
 */
module Catalog {
  import opened Wrappers

  datatype ProviderInfo = ProviderInfo(
    name: string,
    description: string,
    requiresApiKey: bool,
    models: map<string, string>,
    voices: map<string, string>)

  /** The local server's descriptor: no key, two Spark TTS models, no voice list. */
  const MlxAudioInfo := ProviderInfo(
    "MLX-Audio (Local)", "Local TTS on Apple Silicon", false,
    map[
      "mlx-community/Spark-TTS-0.5B-bf16" := "Spark TTS 0.5B (Best quality, EN/ZH)",
      "mlx-community/Spark-TTS-0.5B-8bit" := "Spark TTS 0.5B 8-bit (Faster, less memory)"],
    map[])

  const ElevenLabsInfo := ProviderInfo(
    "ElevenLabs", "Cloud TTS with natural voices", true,
    map[
      "eleven_flash_v2_5" := "Flash v2.5 (Low latency)",
      "eleven_multilingual_v2" := "Multilingual v2 (Best quality)",
      "eleven_turbo_v2_5" := "Turbo v2.5 (Balanced)"],
    map[
      "21m00Tcm4TlvDq8ikWAM" := "Rachel",
      "EXAVITQu4vr4xnSDxMaL" := "Bella",
      "ErXwobaYiN019PkySvjV" := "Antoni",
      "VR6AewLTigWG4xSOukaG" := "Arnold",
      "pNInz6obpgDQGcFmaJgB" := "Adam"])

  const OpenAiInfo := ProviderInfo(
    "OpenAI", "Cloud TTS with GPT-4o voices", true,
    map[
      "gpt-4o-mini-tts" := "GPT-4o Mini TTS (Best)",
      "tts-1" := "TTS-1 (Fast)",
      "tts-1-hd" := "TTS-1 HD (High quality)"],
    map[
      "alloy" := "Alloy", "ash" := "Ash", "ballad" := "Ballad", "coral" := "Coral",
      "echo" := "Echo", "fable" := "Fable", "nova" := "Nova", "onyx" := "Onyx",
      "sage" := "Sage", "shimmer" := "Shimmer"])

  /** `PROVIDERS`: provider id to its descriptor. */
  const Providers: map<string, ProviderInfo> :=
    map["mlx-audio" := MlxAudioInfo, "elevenlabs" := ElevenLabsInfo, "openai" := OpenAiInfo]

  /** The ids `PROVIDERS` is keyed by; `ProviderIdsAreCatalogKeys` ties the two together. */
  const ProviderIds: set<string> := {"mlx-audio", "elevenlabs", "openai"}

  /** `id in PROVIDERS` is membership in `ProviderIds`. */
  lemma ProviderIdsAreCatalogKeys()
    ensures Providers.Keys == ProviderIds
  {
  }

  /** `GET /api/providers`: the catalog as it stands. */
  function GetProviders(): (ps: map<string, ProviderInfo>)
    ensures ps.Keys == {"mlx-audio", "elevenlabs", "openai"}
    ensures forall id :: id in ps ==> (ps[id].requiresApiKey <==> id != "mlx-audio")
    ensures |ps["elevenlabs"].voices| > 0 && |ps["openai"].voices| > 0
  {
    Providers
  }

  /** The three provider shapes the dispatcher knows, one per catalog entry. */
  datatype Kind = MlxAudio | ElevenLabs | OpenAi

  /** The catalog key of a provider shape. */
  function Id(k: Kind): string {
    match k
    case MlxAudio => "mlx-audio"
    case ElevenLabs => "elevenlabs"
    case OpenAi => "openai"
  }

  /** Which shape a provider id selects; none exactly when the id is not in the catalog. */
  function KindOf(id: string): (k: Option<Kind>)
    ensures k.Some? <==> id in ProviderIds
    ensures k.Some? ==> Id(k.value) == id
  {
    if id == "mlx-audio" then Some(MlxAudio)
    else if id == "elevenlabs" then Some(ElevenLabs)
    else if id == "openai" then Some(OpenAi)
    else None
  }

  /** Every shape is selected by its own catalog key. */
  lemma KindOfId(k: Kind)
    ensures KindOf(Id(k)) == Some(k)
  {
  }

  /** The voice used when a request names none (or an empty one). */
  function DefaultVoice(k: Kind): string {
    match k
    case MlxAudio => "af_heart"
    case ElevenLabs => "21m00Tcm4TlvDq8ikWAM"
    case OpenAi => "alloy"
  }

  /** The provider name used in `"<label> error: ..."` and `"<label> API key required"`. */
  function Label(k: Kind): string {
    match k
    case MlxAudio => "MLX-Audio"
    case ElevenLabs => "ElevenLabs"
    case OpenAi => "OpenAI"
  }

  /** The declared content type of the audio a provider returns. */
  function MediaType(k: Kind): string {
    if k == OpenAi then "audio/wav" else "audio/mpeg"
  }

  /** The file extension offered for the audio a provider returns. */
  function Extension(k: Kind): string {
    if k == OpenAi then "wav" else "mp3"
  }

  /**
   * The cloud providers' default voices are voices of their own catalog
   * entries; the local default is not listed, the local entry lists none.
   */
  lemma DefaultsAgreeWithCatalog()
    ensures DefaultVoice(ElevenLabs) in Providers[Id(ElevenLabs)].voices
    ensures DefaultVoice(OpenAi) in Providers[Id(OpenAi)].voices
    ensures Providers[Id(MlxAudio)].voices == map[]
    ensures "mlx-community/Spark-TTS-0.5B-bf16" in Providers[Id(MlxAudio)].models
  {
  }

  /** The media type and the extension always name the same format. */
  lemma MediaTypeMatchesExtension(k: Kind)
    ensures (MediaType(k), Extension(k)) in {("audio/mpeg", "mp3"), ("audio/wav", "wav")}
    ensures Extension(k) == "wav" <==> k == OpenAi
  {
  }

  /** The module-level settings the gateway reads from the environment once. */
  datatype Config = Config(mlxAudioUrl: string, elevenLabsKey: string, openAiKey: string)

  const DefaultMlxAudioUrl := "http://127.0.0.1:8000"

  /** `os.getenv(name, default)` for the three settings, given the environment as a map. */
  function ConfigFromEnv(env: map<string, string>): (c: Config)
    ensures "MLX_AUDIO_URL" !in env ==> c.mlxAudioUrl == DefaultMlxAudioUrl
    ensures "MLX_AUDIO_URL" in env ==> c.mlxAudioUrl == env["MLX_AUDIO_URL"]
    ensures "ELEVENLABS_API_KEY" !in env ==> c.elevenLabsKey == ""
    ensures "ELEVENLABS_API_KEY" in env ==> c.elevenLabsKey == env["ELEVENLABS_API_KEY"]
    ensures "OPENAI_API_KEY" !in env ==> c.openAiKey == ""
    ensures "OPENAI_API_KEY" in env ==> c.openAiKey == env["OPENAI_API_KEY"]
  {
    Config(
      if "MLX_AUDIO_URL" in env then env["MLX_AUDIO_URL"] else DefaultMlxAudioUrl,
      if "ELEVENLABS_API_KEY" in env then env["ELEVENLABS_API_KEY"] else "",
      if "OPENAI_API_KEY" in env then env["OPENAI_API_KEY"] else "")
  }

  /** The environment key a cloud provider falls back to; the local provider has none. */
  function EnvKey(c: Config, k: Kind): string
    requires k != MlxAudio
  {
    if k == ElevenLabs then c.elevenLabsKey else c.openAiKey
  }
}
