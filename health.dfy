/**
 * `GET /api/health`: the cloud providers are reported from the presence of
 * their environment keys, the local server from one probe of its model list.
 */
module Health {
  import opened Wrappers
  import opened PyStr
  import opened Http
  import opened Catalog
  import opened Tts

  /** What the probe `GET <base>/v1/models` did: answered with a status, or raised anything at all. */
  datatype Probe = ProbeReply(statusCode: int) | ProbeFailed

  /** The health body: an overall status and one status string per provider. */
  datatype HealthReport = HealthReport(status: string, providers: map<string, string>)

  /** The probe sent to the local server. */
  function ProbeRequest(c: Config): (q: HttpRequest)
    ensures q.verb == "GET" && q.url == c.mlxAudioUrl + "/v1/models"
    ensures q.headers == [] && q.json == []
  {
    HttpRequest("GET", c.mlxAudioUrl + "/v1/models", [], [])
  }

  /** A cloud provider's status: configured exactly when its environment key is non-empty. */
  function KeyStatus(key: string): (s: string)
    ensures s == "configured" <==> key != ""
    ensures s == "no_api_key" <==> key == ""
  {
    if key != "" then "configured" else "no_api_key"
  }

  /** The local server's status: connected on 200, error on any other reply, disconnected on an exception. */
  function LocalStatus(p: Probe): (s: string)
    ensures s == "connected" <==> p == ProbeReply(200)
    ensures s == "error" <==> p.ProbeReply? && p.statusCode != 200
    ensures s == "disconnected" <==> p.ProbeFailed?
    ensures s != "unknown"
  {
    match p
    case ProbeReply(code) => if code == 200 then "connected" else "error"
    case ProbeFailed => "disconnected"
  }

  /**
   * `health_check`: starts from "unknown" for the local server and the key
   * statuses for the cloud providers, then overwrites the local entry with
   * the probe's verdict. The overall status is always "ok".
   */
  method HealthCheck(c: Config, probe: Probe) returns (sent: HttpRequest, r: HealthReport)
    ensures sent == ProbeRequest(c)
    ensures r.status == "ok"
    ensures r.providers.Keys == {"mlx_audio", "elevenlabs", "openai"}
    ensures r.providers["mlx_audio"] == LocalStatus(probe)
    ensures r.providers["elevenlabs"] == KeyStatus(c.elevenLabsKey)
    ensures r.providers["openai"] == KeyStatus(c.openAiKey)
  {
    var status := map[
      "mlx_audio" := "unknown",
      "elevenlabs" := if c.elevenLabsKey != "" then "configured" else "no_api_key",
      "openai" := if c.openAiKey != "" then "configured" else "no_api_key"];
    sent := HttpRequest("GET", c.mlxAudioUrl + "/v1/models", [], []);
    match probe {
      case ProbeReply(code) =>
        status := status["mlx_audio" := if code == 200 then "connected" else "error"];
      case ProbeFailed =>
        status := status["mlx_audio" := "disconnected"];
    }
    r := HealthReport("ok", status);
  }

  /**
   * A cloud provider shows as configured exactly when a request to it that
   * brings no key of its own (and has non-blank text) gets as far as the
   * downstream call.
   */
  lemma ConfiguredIffFallbackKeySuffices(c: Config, k: Kind, text: string, model: string,
                                         voice: Option<string>, net: Outcome)
    requires k != MlxAudio
    requires !IsBlank(text)
    ensures KeyStatus(EnvKey(c, k)) == "configured"
        <==> TextToSpeech(c, TtsRequest(text, Id(k), model, voice, None), net).sent.Some?
  {
    var req := TtsRequest(text, Id(k), model, voice, None);
    KindOfId(k);
    assert TextToSpeech(c, req, net) == Respond(req.provider, k, Dispatch(c, k, req, net));
    assert EffectiveKey(c, k, req) == EnvKey(c, k);
  }
}
