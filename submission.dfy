/** The `/submit` handler of src/app.js as a decision: the gates in their
    order, each stopping the request at its first failure, and the row a
    surviving submission becomes. Persistence is in module PostStore. */
module Submission {
  import opened Wrappers
  import opened JsString
  import Origin
  import Scorer

  datatype Status = Pending | Approved | Rejected

  const OriginError := "Submissions are only allowed from the United States"
  const MissingTokenError := "Please complete the security check"
  const FailedTokenError := "Security check failed. Please try again."
  const ShortReasonError := "Please share your reason for voting (minimum 150 characters)"
  const StorageError := "Failed to submit story. Please try again."
  /** The minimum length, in UTF-16 code units, of the trimmed reason. */
  const MinReasonLength := 150

  /** The server's configuration: `NODE_ENV` and `PERSPECTIVE_API_KEY`. The
      key is the one `analyzeContent` sees: `Scorer.KeyAtImport` as written,
      `Scorer.KeyAfterDotenv` as intended; `Decide` takes either. */
  datatype Env = Env(nodeEnv: Option<string>, perspectiveKey: Option<string>)

  /** What a submission carries: the `cf-ipcountry` and `x-forwarded-for`
      headers, the socket's remote address, and the form fields. */
  datatype Request = Request(
    country: Option<string>,
    forwardedFor: Option<string>,
    remoteAddress: Option<string>,
    token: Option<string>,
    reason: Option<string>,
    town: Option<string>,
    state: Option<string>)

  /** The values of one inserted `posts` row, before it has an id and a time. */
  datatype Row = Row(
    reason: string,
    town: Option<string>,
    state: Option<string>,
    ipAddress: Option<string>,
    status: Status,
    scores: Option<Scorer.Scores>,
    safetyScore: int)

  /** Either the request is refused with an HTTP status and message, or a row
      is to be inserted. */
  datatype Admission = Refuse(code: int, error: string) | Admit(row: Row)

  /** `x || null` for an optional form field: an empty string is stored as null. */
  function OrNull(x: Option<string>): (r: Option<string>)
    ensures r.Some? <==> Truthy(x)
    ensures r.Some? ==> r == x
  {
    if Truthy(x) then x else None
  }

  /** `reason && reason.trim().length >= 150`. The truthiness test adds
      nothing beyond presence, since an empty reason trims to nothing; and as
      a code unit is at most one character, the trimmed text has at least 75
      characters. */
  predicate ReasonLongEnough(reason: Option<string>): (long: bool)
    ensures long <==> reason.Some? && Utf16Length(Trim(reason.value)) >= MinReasonLength
    ensures long ==> |Trim(reason.value)| >= MinReasonLength / 2
  {
    Truthy(reason) && Utf16Length(Trim(reason.value)) >= MinReasonLength
  }

  /** The request passes the origin gate: outside production always, in
      production only from the allowed country. */
  ghost predicate FromAllowedOrigin(env: Env, req: Request) {
    env.nodeEnv == Some(Origin.Production) ==> req.country == Some(Origin.AllowedCountry)
  }

  /** The gate chain of the handler. `verify` is the challenge-verification
      service and `service` the content-analysis service. Its properties are
      the lemmas below. Every refusal is a 403 or a 400, and no submission
      is stored as rejected. */
  function Decide(env: Env, req: Request, verify: string -> bool,
                  service: string -> Option<Scorer.ServiceReply>): (a: Admission)
    ensures a.Refuse? ==> a.code == 403 || a.code == 400
    ensures a.Admit? ==> a.row.status != Rejected && Truthy(req.token) && req.reason.Some?
  {
    if !Origin.CheckIpLocation(env.nodeEnv, req.country) && env.nodeEnv == Some(Origin.Production) then
      Refuse(403, OriginError)
    else if !Truthy(req.token) then
      Refuse(400, MissingTokenError)
    else if !verify(req.token.value) then
      Refuse(400, FailedTokenError)
    else if !ReasonLongEnough(req.reason) then
      Refuse(400, ShortReasonError)
    else
      var analysis := Scorer.AnalyzeContent(env.perspectiveKey, req.reason.value, service);
      var ip := if Truthy(req.forwardedFor) then req.forwardedFor else req.remoteAddress;
      Admit(Row(Trim(req.reason.value), OrNull(req.town), OrNull(req.state), ip,
                if analysis.isAutoApproved then Approved else Pending, analysis.scores, analysis.safetyScore))
  }

  /** The gates in order, each refusing with its own code and message, and
      none consulted once an earlier one has refused: the result is then the
      same whatever `verify` and `service` would answer, so neither service
      is called. A request passing all four gates is always admitted. */
  lemma GateOrder(env: Env, req: Request, verify: string -> bool,
                  service: string -> Option<Scorer.ServiceReply>)
    // origin first: nothing else is looked at
    ensures env.nodeEnv == Some(Origin.Production) && req.country != Some(Origin.AllowedCountry)
            ==> Decide(env, req, verify, service) == Refuse(403, OriginError)
    // then the token must be present, before verification is attempted
    ensures FromAllowedOrigin(env, req) && !Truthy(req.token)
            ==> Decide(env, req, verify, service) == Refuse(400, MissingTokenError)
    ensures FromAllowedOrigin(env, req) && Truthy(req.token) && !verify(req.token.value)
            ==> Decide(env, req, verify, service) == Refuse(400, FailedTokenError)
    // the length check only after both token checks, and before scoring
    ensures FromAllowedOrigin(env, req) && Truthy(req.token) && verify(req.token.value)
            && !ReasonLongEnough(req.reason)
            ==> Decide(env, req, verify, service) == Refuse(400, ShortReasonError)
    ensures Decide(env, req, verify, service).Admit?
            <==> FromAllowedOrigin(env, req) && Truthy(req.token) && verify(req.token.value)
                 && ReasonLongEnough(req.reason)
  {
  }

  /** The row an admitted submission becomes: the trimmed reason, empty
      location fields as null, the forwarded-for address or else the
      socket's, and the scorer's verdict on the untrimmed
      reason, approved exactly when the safety score reaches 90. A degraded
      analysis therefore always leaves the row pending, and no new row is
      ever rejected. */
  lemma AdmittedRow(env: Env, req: Request, verify: string -> bool,
                    service: string -> Option<Scorer.ServiceReply>)
    requires Decide(env, req, verify, service).Admit?
    ensures var row := Decide(env, req, verify, service).row;
            var a := Scorer.AnalyzeContent(env.perspectiveKey, req.reason.value, service);
            && row.reason == Trim(req.reason.value)
            && Utf16Length(row.reason) >= MinReasonLength
            && row.town == OrNull(req.town) && row.state == OrNull(req.state)
            && row.ipAddress == (if Truthy(req.forwardedFor) then req.forwardedFor else req.remoteAddress)
            && (row.status == Approved <==> a.safetyScore >= Scorer.AutoApproveThreshold)
            && row.status != Rejected
            && row.scores == a.scores && row.safetyScore == a.safetyScore
            && (row.status == Approved ==> row.scores.Some?)
            && (row.scores.None? ==> row.status == Pending && row.safetyScore == 0)
  {
  }
}
