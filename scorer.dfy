/** The content-safety scorer of src/middleware/perspectiveCheck.js: six risk
    attributes from an external content-analysis service are folded into one
    safety score, and a submission scoring at least 90 is auto-approved. */
module Scorer {
  import opened Wrappers
  import opened JsString

  /** The attribute names requested from the service, as they appear in its
      `attributeScores` reply. */
  const Toxicity := "TOXICITY"
  const SevereToxicity := "SEVERE_TOXICITY"
  const IdentityAttack := "IDENTITY_ATTACK"
  const Threat := "THREAT"
  const Profanity := "PROFANITY"
  const SexuallyExplicit := "SEXUALLY_EXPLICIT"

  /** The minimum safety score for automatic approval. */
  const AutoApproveThreshold := 90

  /** The `scores` record: one risk value per attribute, exactly these six. */
  datatype Scores = Scores(
    toxicity: real,
    severeToxicity: real,
    identityAttack: real,
    threat: real,
    profanity: real,
    sexuallyExplicit: real)

  /** What the service answered, once its body has been parsed: the HTTP
      status verdict and, per attribute name, `summaryScore.value`. */
  datatype ServiceReply = ServiceReply(ok: bool, attributeScores: map<string, real>)

  /** The record `analyzeContent` resolves to. */
  datatype Analysis = Analysis(safetyScore: int, scores: Option<Scores>, isAutoApproved: bool)

  /** The result of every failure: manual review, no scores. */
  const Degraded := Analysis(0, None, false)

  ghost predicate AllInUnitInterval(s: Scores) {
    && 0.0 <= s.toxicity <= 1.0 && 0.0 <= s.severeToxicity <= 1.0
    && 0.0 <= s.identityAttack <= 1.0 && 0.0 <= s.threat <= 1.0
    && 0.0 <= s.profanity <= 1.0 && 0.0 <= s.sexuallyExplicit <= 1.0
  }

  /** Every attribute of `s` is at most the corresponding one of `t`. */
  ghost predicate NoRiskier(s: Scores, t: Scores) {
    && s.toxicity <= t.toxicity && s.severeToxicity <= t.severeToxicity
    && s.identityAttack <= t.identityAttack && s.threat <= t.threat
    && s.profanity <= t.profanity && s.sexuallyExplicit <= t.sexuallyExplicit
  }

  function Max(a: real, b: real): real {
    if a < b then b else a
  }

  /** `Math.max(...Object.values(scores))`: the largest of the six values,
      and one of them. */
  function MaxRisk(s: Scores): (m: real)
    ensures s.toxicity <= m && s.severeToxicity <= m && s.identityAttack <= m
    ensures s.threat <= m && s.profanity <= m && s.sexuallyExplicit <= m
    ensures m in {s.toxicity, s.severeToxicity, s.identityAttack, s.threat, s.profanity, s.sexuallyExplicit}
  {
    Max(Max(Max(Max(Max(s.toxicity, s.severeToxicity), s.identityAttack), s.threat), s.profanity),
        s.sexuallyExplicit)
  }

  /** `Math.round` on an exact real: the integer nearest to `x`, halves
      rounded up. */
  function Round(x: real): (n: int)
    ensures n as real - 0.5 <= x < n as real + 0.5
  {
    (x + 0.5).Floor
  }

  /** `Math.round((1 - maxRiskScore) * 100)`: the whole percentage nearest
      to how far the riskiest attribute stays below certainty. */
  function SafetyScore(s: Scores): (r: int)
    ensures r as real - 0.5 <= (1.0 - MaxRisk(s)) * 100.0 < r as real + 0.5
  {
    Round((1.0 - MaxRisk(s)) * 100.0)
  }

  /** The six attribute values of a reply, or None when one is missing (the
      source then throws a TypeError, which its catch turns into the degraded
      result). */
  function ReadScores(attributes: map<string, real>): (r: Option<Scores>)
    ensures r.Some? <==> {Toxicity, SevereToxicity, IdentityAttack, Threat, Profanity, SexuallyExplicit} <= attributes.Keys
    ensures r.Some? ==> && r.value.toxicity == attributes[Toxicity]
                        && r.value.severeToxicity == attributes[SevereToxicity]
                        && r.value.identityAttack == attributes[IdentityAttack]
                        && r.value.threat == attributes[Threat]
                        && r.value.profanity == attributes[Profanity]
                        && r.value.sexuallyExplicit == attributes[SexuallyExplicit]
  {
    if && Toxicity in attributes && SevereToxicity in attributes && IdentityAttack in attributes
       && Threat in attributes && Profanity in attributes && SexuallyExplicit in attributes
    then
      Some(Scores(attributes[Toxicity], attributes[SevereToxicity], attributes[IdentityAttack],
                  attributes[Threat], attributes[Profanity], attributes[SexuallyExplicit]))
    else
      None
  }

  /** `analyzeContent(text)`. `apiKey` is `PERSPECTIVE_API_KEY`; `service` is
      the content-analysis call, None when the request or the parsing of its
      body throws. Without a key no request is made, so the result does not
      depend on `service`; every failure degrades; a success is auto-approved
      exactly when its score reaches the threshold. */
  function AnalyzeContent(apiKey: Option<string>, text: string, service: string -> Option<ServiceReply>): (r: Analysis)
    ensures !Truthy(apiKey) ==> r == Degraded
    ensures r.isAutoApproved <==> r.safetyScore >= AutoApproveThreshold
    ensures r.scores.None? ==> r == Degraded
    ensures r.scores.Some? <==>
              Truthy(apiKey) && service(text).Some? && service(text).value.ok
              && ReadScores(service(text).value.attributeScores).Some?
    ensures r.scores.Some? ==> && r.scores == ReadScores(service(text).value.attributeScores)
                               && r.safetyScore == SafetyScore(r.scores.value)
  {
    if !Truthy(apiKey) then
      Degraded
    else
      match service(text)
      case None => Degraded
      case Some(reply) =>
        if !reply.ok then
          Degraded
        else
          match ReadScores(reply.attributeScores)
          case None => Degraded
          case Some(scores) =>
            var safetyScore := SafetyScore(scores);
            Analysis(safetyScore, Some(scores), safetyScore >= AutoApproveThreshold)
  }

  /** With every attribute in [0, 1] the safety score lies in [0, 100]. */
  lemma SafetyScoreBounds(s: Scores)
    requires AllInUnitInterval(s)
    ensures 0 <= SafetyScore(s) <= 100
  {
  }

  /** Raising any attribute never raises the safety score. */
  lemma SafetyScoreAntitone(s: Scores, t: Scores)
    requires NoRiskier(s, t)
    ensures SafetyScore(t) <= SafetyScore(s)
  {
  }

  /** Auto-approval means the riskiest attribute is at most 0.105. */
  lemma AutoApprovedIffLowRisk(s: Scores)
    ensures SafetyScore(s) >= AutoApproveThreshold <==> MaxRisk(s) <= 0.105
  {
  }

  /** The key `analyzeContent` sees, as written: the module reads
      `process.env` when it is evaluated, and ES module imports are evaluated
      before the importing module's body, so before src/app.js:12 runs
      `dotenv.config()`. A key given only in `.env` is not there yet. */
  function KeyAtImport(processEnv: Option<string>, dotenvFile: Option<string>): (key: Option<string>)
    ensures dotenvFile != processEnv ==> key != dotenvFile
  {
    processEnv
  }

  /** A key configured only in `.env` is never seen, so every analysis
      degrades and every admitted submission waits for review. */
  lemma DotenvKeyIsIgnored(k: string, text: string, service: string -> Option<ServiceReply>)
    ensures KeyAtImport(None, Some(k)) == None
    ensures AnalyzeContent(KeyAtImport(None, Some(k)), text, service) == Degraded
  {
  }

  /** The key as evidently intended: the process environment after
      `dotenv.config()`, which fills in a variable from `.env` only when the
      process does not already set it. */
  function KeyAfterDotenv(processEnv: Option<string>, dotenvFile: Option<string>): (key: Option<string>)
    ensures processEnv.Some? ==> key == processEnv
    ensures processEnv.None? ==> key == dotenvFile
  {
    if processEnv.Some? then processEnv else dotenvFile
  }

  /** With the intended order a key from `.env` reaches the service: a good
      reply is scored rather than degraded. */
  lemma DotenvKeyIsUsed(k: string, text: string, service: string -> Option<ServiceReply>)
    requires k != [] && service(text).Some? && service(text).value.ok
    requires ReadScores(service(text).value.attributeScores).Some?
    ensures KeyAfterDotenv(None, Some(k)) == Some(k)
    ensures AnalyzeContent(KeyAfterDotenv(None, Some(k)), text, service).scores.Some?
  {
  }
}
