/**
 * The server route that checks a reCAPTCHA token. `POST` runs a fixed chain of
 * guards (request body, token, configuration, secret format), forwards the
 * token to the site-verify service, and turns its answer into a verdict;
 * `GET` reports which required configuration values are missing. The
 * environment is a map from variable names to values, the site-verify
 * service is an abstract outcome.
 */
module Recaptcha {
  import opened Options
  import opened Json
  import Strings

  type Env = map<string, string>

  const SecretKeyName := "RECAPTCHA_SECRET_KEY"
  const SiteKeyName := "NEXT_PUBLIC_RECAPTCHA_SITE_KEY"
  const RequiredEnvVars: seq<string> := [SecretKeyName, SiteKeyName]

  /** Shortest secret accepted, in UTF-16 code units. */
  const MinSecretLength := 30
  /** Lowest score that passes. */
  const ScoreThreshold: real := 0.5

  const MissingTokenError := "Missing reCAPTCHA token"
  const MissingConfigPrefix := "Server configuration error. Missing: "
  const InvalidConfigError := "Invalid server configuration"
  const UnreachableError := "Failed to verify reCAPTCHA. Please try again."
  const VerificationError := "reCAPTCHA verification failed"
  const InvalidResponseError := "Invalid response from reCAPTCHA service"
  const InternalError := "Internal server error during reCAPTCHA verification"
  const HealthStatus := "recaptcha route is live"

  /** `!!process.env[name]`: set and not empty. */
  predicate IsSet(env: Env, name: string)
  {
    name in env && env[name] != ""
  }

  /** The request as the route reads it: a body that does not parse as JSON, or the parsed value. */
  datatype Request = Unreadable | Body(value: Json)

  /** What came of the call to site-verify: no connection, or an HTTP status with a body that may not parse. */
  datatype Upstream = TransportFailure | Answered(status: int, body: Option<Json>)

  /** The form-encoded request sent to site-verify: the secret and the client's token. */
  datatype SiteVerifyRequest = SiteVerifyRequest(secret: string, response: Json)

  /**
   * One entry of `reasons`. `ScoreTooLow(s)` is rendered as "score too low (s)"
   * with JavaScript's number formatting, which this model leaves abstract.
   */
  datatype Reason = VerificationFailed | ErrorCode(code: Json) | ScoreTooLow(score: real)

  /** The JSON body of the route's reply; `ok` is true exactly for `Verified`. */
  datatype ReplyBody =
    | Failure(error: string)
    | UpstreamError(error: string, upstreamStatus: int)
    | Rejected(error: string, reasons: seq<Reason>, score: Option<real>)
    | Verified(score: Option<real>, details: Json)
  {
    predicate Ok() { Verified? }
  }

  datatype Reply = Reply(status: int, body: ReplyBody)

  /** A JSON object with the given fields and, when `extra` is present, one more. */
  function WithOptional(fields: map<string, Json>, key: string, extra: Option<Json>): Json
  {
    if extra.None? then Obj(fields) else Obj(fields[key := extra.value])
  }

  function ScoreJson(score: Option<real>): Option<Json>
  {
    if score.None? then None else Some(Num(score.value))
  }

  /** A reason as it appears in the JSON reply; `formatNumber` is JavaScript's number-to-string conversion. */
  function ReasonJson(r: Reason, formatNumber: real -> string): Json
  {
    match r
    case VerificationFailed => Str("verification failed")
    case ErrorCode(code) => code
    case ScoreTooLow(score) => Str("score too low (" + formatNumber(score) + ")")
  }

  /** `NextResponse.json(body)`: the reply body as the client parses it (an undefined `score` is omitted). */
  function ReplyJson(b: ReplyBody, formatNumber: real -> string): (j: Json)
    ensures Member(j, "ok") == Some(Bool(b.Ok()))
  {
    match b
    case Failure(error) =>
      Obj(map["ok" := Bool(false), "error" := Str(error)])
    case UpstreamError(error, upstreamStatus) =>
      Obj(map["ok" := Bool(false), "error" := Str(error), "status" := Num(upstreamStatus as real)])
    case Rejected(error, reasons, score) =>
      var rs := seq(|reasons|, i requires 0 <= i < |reasons| => ReasonJson(reasons[i], formatNumber));
      WithOptional(map["ok" := Bool(false), "error" := Str(error), "reasons" := Arr(rs)], "score", ScoreJson(score))
    case Verified(score, details) =>
      WithOptional(map["ok" := Bool(true), "details" := details], "score", ScoreJson(score))
  }

  /** `fetch`'s `resp.ok`. */
  predicate IsSuccessStatus(status: int) { 200 <= status <= 299 }

  /** `data?.success === true`. */
  predicate Succeeded(data: Json) { Member(data, "success") == Some(Bool(true)) }

  /** `typeof data?.score === "number" ? data.score : undefined`. */
  function ScoreOf(data: Json): Option<real>
  {
    match Member(data, "score")
    case Some(Num(n)) => Some(n)
    case _ => None
  }

  /** `score === undefined ? true : score >= 0.5`. */
  predicate Passes(score: Option<real>) { score.None? || score.value >= ScoreThreshold }

  /**
   * `...data["error-codes"]` inside `if (data?.["error-codes"])`: nothing when the
   * field is absent or falsy; the elements of an array; the characters of a
   * string, each as a one-character string; `None` when spreading throws
   * (any other truthy value is not iterable).
   */
  function ErrorCodes(data: Json): (r: Option<seq<Json>>)
    // Absent or falsy (`null`, `false`, `0`, `""`): no codes.
    ensures Member(data, "error-codes").None? ==> r == Some([])
    ensures Member(data, "error-codes").Some? && !Truthy(Member(data, "error-codes").value) ==> r == Some([])
    // An array contributes its elements, in order.
    ensures Member(data, "error-codes").Some? && Member(data, "error-codes").value.Arr? ==>
              r == Some(Member(data, "error-codes").value.items)
    // A non-empty string contributes one one-character string per character.
    ensures Member(data, "error-codes").Some? && Member(data, "error-codes").value.Str? ==>
              var str := Member(data, "error-codes").value.s;
              r.Some? && |r.value| == |str| && forall i :: 0 <= i < |str| ==> r.value[i] == Str([str[i]])
    // Any other truthy value is not iterable: spreading it throws.
    ensures r.None? <==> Member(data, "error-codes").Some? && Truthy(Member(data, "error-codes").value) &&
                         !Member(data, "error-codes").value.Arr? && !Member(data, "error-codes").value.Str?
  {
    match Member(data, "error-codes")
    case None => Some([])
    case Some(v) =>
      if !Truthy(v) then Some([])
      else
        match v
        case Arr(items) => Some(items)
        case Str(s) => Some(CodePoints(s))
        case _ => None
  }

  /** Spreading a string: one one-character string per code point. */
  function CodePoints(s: string): (r: seq<Json>)
    ensures |r| == |s|
    ensures forall i :: 0 <= i < |s| ==> r[i] == Str([s[i]])
  {
    if |s| == 0 then [] else [Str([s[0]])] + CodePoints(s[1..])
  }

  /** The reasons entries for a list of upstream error codes, in order. */
  function AsReasons(codes: seq<Json>): seq<Reason>
  {
    seq(|codes|, i requires 0 <= i < |codes| => ErrorCode(codes[i]))
  }

  /** `requiredEnvVars.filter(name => !process.env[name])`. */
  function MissingVars(env: Env, names: seq<string>): (r: seq<string>)
    ensures forall n :: n in r <==> n in names && !IsSet(env, n)
    ensures |r| <= |names|
  {
    if |names| == 0 then []
    else (if IsSet(env, names[0]) then [] else [names[0]]) + MissingVars(env, names[1..])
  }

  /** The body of the `GET` reply. */
  datatype Health = Health(ok: bool, status: string, configured: bool, missingVars: seq<string>)

  /** `GET`: reports, without verifying anything, which required names are missing, in list order. */
  function HealthCheck(env: Env): (r: Health)
    ensures r.ok && r.status == HealthStatus
    ensures r.missingVars == (if IsSet(env, SecretKeyName) then [] else [SecretKeyName]) +
                             (if IsSet(env, SiteKeyName) then [] else [SiteKeyName])
    ensures r.configured <==> IsSet(env, SecretKeyName) && IsSet(env, SiteKeyName)
  {
    var missing := MissingVars(env, RequiredEnvVars);
    assert RequiredEnvVars[1..] == [SiteKeyName] && RequiredEnvVars[1..][1..] == [];
    assert MissingVars(env, [SiteKeyName]) == (if IsSet(env, SiteKeyName) then [] else [SiteKeyName]) + MissingVars(env, []);
    Health(true, HealthStatus, |missing| == 0, missing)
  }

  /** The guards before any configuration is read: a body that parses to something but null, and a truthy token. */
  function TokenOf(req: Request): Option<Json>
  {
    if req.Unreadable? || req.value.Null? then None else Member(req.value, "token")
  }

  /** Configuration complete and the secret long enough: the point at which site-verify is called. */
  predicate ConfigAccepted(env: Env)
  {
    IsSet(env, SecretKeyName) && IsSet(env, SiteKeyName) &&
    Strings.Utf16Length(env[SecretKeyName]) >= MinSecretLength
  }

  /**
   * What `POST` answers, as one expression: the reply and the request sent to
   * site-verify. `Post` is proved to return exactly this.
   */
  function PostReply(req: Request, env: Env, upstream: Upstream): (Reply, Option<SiteVerifyRequest>)
  {
    if req.Unreadable? || req.value.Null? then (Reply(500, Failure(InternalError)), None)
    else if TokenOf(req).None? || !Truthy(TokenOf(req).value) then (Reply(400, Failure(MissingTokenError)), None)
    else if !HealthCheck(env).configured then
      (Reply(500, Failure(MissingConfigPrefix + Strings.Join(HealthCheck(env).missingVars, ", "))), None)
    else if !ConfigAccepted(env) then (Reply(500, Failure(InvalidConfigError)), None)
    else (UpstreamReply(upstream), Some(SiteVerifyRequest(env[SecretKeyName], TokenOf(req).value)))
  }

  /** The reply once site-verify has been called. */
  function UpstreamReply(upstream: Upstream): Reply
  {
    match upstream
    case TransportFailure => Reply(503, Failure(UnreachableError))
    case Answered(status, body) =>
      if !IsSuccessStatus(status) then Reply(500, UpstreamError(VerificationError, status))
      else if body.None? then Reply(500, Failure(InvalidResponseError))
      else VerdictReply(body.value)
  }

  /** The reply to a parsed site-verify answer. */
  function VerdictReply(data: Json): Reply
  {
    if Succeeded(data) && Passes(ScoreOf(data)) then Reply(200, Verified(ScoreOf(data), data))
    else if ErrorCodes(data).None? then Reply(500, Failure(InternalError))
    else Reply(400, Rejected(VerificationError,
                             (if Succeeded(data) then [] else [VerificationFailed]) +
                             AsReasons(ErrorCodes(data).value) +
                             (if Passes(ScoreOf(data)) then [] else [ScoreTooLow(ScoreOf(data).value)]),
                             ScoreOf(data)))
  }

  /**
   * `POST`. Besides the reply it returns the request sent to site-verify, or
   * `None` when the route answers without contacting it.
   */
  method Post(req: Request, env: Env, upstream: Upstream) returns (reply: Reply, sent: Option<SiteVerifyRequest>)
    // The guard chain, the upstream mapping and the verdict, case by case.
    ensures (reply, sent) == PostReply(req, env, upstream)
    // Missing configuration names exactly the absent names, in the order GET lists them.
    ensures TokenOf(req).Some? && Truthy(TokenOf(req).value) && HealthCheck(env).missingVars != [] ==>
              reply == Reply(500, Failure(MissingConfigPrefix + Strings.Join(HealthCheck(env).missingVars, ", ")))
    // Site-verify is contacted exactly when every guard passed, with the secret and the token.
    ensures sent.Some? <==> TokenOf(req).Some? && Truthy(TokenOf(req).value) && ConfigAccepted(env)
    ensures sent.Some? ==> sent.value == SiteVerifyRequest(env[SecretKeyName], TokenOf(req).value)
    // A rejection always gives at least one reason.
    ensures reply.body.Rejected? ==> reply.status == 400 && |reply.body.reasons| > 0
    // Only a passing verdict is reported as ok, and only with status 200 and the upstream body as details.
    ensures reply.body.Ok() <==> sent.Some? && upstream.Answered? && IsSuccessStatus(upstream.status) &&
                                 upstream.body.Some? && Succeeded(upstream.body.value) &&
                                 Passes(ScoreOf(upstream.body.value))
    ensures reply.body.Ok() ==> reply == Reply(200, Verified(ScoreOf(upstream.body.value), upstream.body.value))
    ensures !reply.body.Ok() ==> !IsSuccessStatus(reply.status)
  {
    sent := None;
    if req.Unreadable? || req.value.Null? {
      return Reply(500, Failure(InternalError)), sent;
    }
    var token := Member(req.value, "token");
    if token.None? || !Truthy(token.value) {
      return Reply(400, Failure(MissingTokenError)), sent;
    }

    var missing: seq<string> := [];
    if !IsSet(env, SecretKeyName) {
      missing := missing + [SecretKeyName];
    }
    if !IsSet(env, SiteKeyName) {
      missing := missing + [SiteKeyName];
    }
    if |missing| > 0 {
      return Reply(500, Failure(MissingConfigPrefix + Strings.Join(missing, ", "))), sent;
    }

    var secret := env[SecretKeyName];
    if Strings.Utf16Length(secret) < MinSecretLength {
      return Reply(500, Failure(InvalidConfigError)), sent;
    }

    sent := Some(SiteVerifyRequest(secret, token.value));
    if upstream.TransportFailure? {
      return Reply(503, Failure(UnreachableError)), sent;
    }
    if !IsSuccessStatus(upstream.status) {
      return Reply(500, UpstreamError(VerificationError, upstream.status)), sent;
    }
    if upstream.body.None? {
      return Reply(500, Failure(InvalidResponseError)), sent;
    }
    var data := upstream.body.value;

    var success := Member(data, "success") == Some(Bool(true));
    var score := ScoreOf(data);
    var pass := if score.None? then true else score.value >= ScoreThreshold;

    if !success || !pass {
      var failureReasons: seq<Reason> := [];
      if !success {
        failureReasons := failureReasons + [VerificationFailed];
      }
      var codes := ErrorCodes(data);
      if codes.None? {
        return Reply(500, Failure(InternalError)), sent;
      }
      failureReasons := failureReasons + AsReasons(codes.value);
      if !pass {
        failureReasons := failureReasons + [ScoreTooLow(score.value)];
      }
      assert failureReasons == (if Succeeded(data) then [] else [VerificationFailed]) + AsReasons(codes.value) +
                               (if Passes(score) then [] else [ScoreTooLow(score.value)]);
      return Reply(400, Rejected(VerificationError, failureReasons, score)), sent;
    }
    return Reply(200, Verified(score, data)), sent;
  }

  /** Every reply `POST` gives reports `ok` exactly when its status is 2xx. */
  lemma OkIffSuccessStatus(req: Request, env: Env, upstream: Upstream)
    ensures PostReply(req, env, upstream).0.body.Ok() <==> IsSuccessStatus(PostReply(req, env, upstream).0.status)
  {
  }

  /**
   * The verdict is monotone in the score: raising the `score` field of a
   * site-verify answer never turns an accepted token into a refused one.
   */
  lemma RaisingScoreKeepsVerified(req: Request, env: Env, status: int, fields: map<string, Json>, s: real, t: real)
    requires s <= t
    requires PostReply(req, env, Answered(status, Some(Obj(fields["score" := Num(s)])))).0.body.Ok()
    ensures PostReply(req, env, Answered(status, Some(Obj(fields["score" := Num(t)])))).0.body.Ok()
  {
    var low, high := Obj(fields["score" := Num(s)]), Obj(fields["score" := Num(t)]);
    assert Member(low, "success") == Member(high, "success");
    assert ScoreOf(low) == Some(s) && ScoreOf(high) == Some(t);
  }
}
