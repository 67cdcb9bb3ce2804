/**
 * The contact form's submit handler. It waits for the reCAPTCHA script,
 * obtains a token for the action "contact_submit", has the site's route
 * verify it, and only then sends the form through EmailJS; every outcome
 * ends with one alert and with `loading` cleared. The browser, the script,
 * the network and EmailJS are abstract outcomes; what the handler does to
 * the outside world is recorded as a sequence of events.
 */
module Contact {
  import opened Options
  import opened Json
  import Recaptcha

  datatype FormData = FormData(name: string, email: string, message: string)

  const EmptyForm := FormData("", "", "")

  const SubmitAction := "contact_submit"
  /** `waitForRecaptcha`'s default timeout, in milliseconds. */
  const ReadyTimeoutMs := 8000

  const ServiceIdName := "NEXT_PUBLIC_EMAILJS_SERVICE_ID"
  const TemplateIdName := "NEXT_PUBLIC_EMAILJS_TEMPLATE_ID"
  const PublicKeyName := "NEXT_PUBLIC_EMAILJS_PUBLIC_KEY"

  const NotReadyText := "Captcha not ready. Please try again in a moment."
  const FailedText := "Captcha failed. See console for details."
  const RejectedText := "Captcha rejected. See console for details."
  const SuccessKey := "contact.success"
  const ErrorKey := "contact.error"

  const ToName := "Tudor"
  const SiteName := "https://www.popescutudor.com/"
  const LinkedIn := "https://www.linkedin.com/in/popescu-tudor-540329174/"

  /** An alert: a fixed text, or the translation `t(key)`. */
  datatype Alert = Text(text: string) | Localized(key: string)

  const GenericError := Localized(ErrorKey)

  /** The template parameters sent to EmailJS (the submission time is left out). */
  datatype EmailParams = EmailParams(
    toName: string, siteName: string, name: string, email: string,
    phone: string, message: string, linkedin: string, replyTo: string)

  /** The parameters `emailjs.send` gets for `form`. */
  function ParamsOf(form: FormData): EmailParams
  {
    EmailParams(ToName, SiteName, form.name, form.email, "", form.message, LinkedIn, form.email)
  }

  /** What the handler does to the outside world, in order. */
  datatype Event =
    | TokenRequested(siteKey: string, action: string)
    | VerifyRequested(token: string, action: string)
    | EmailSendAttempted(serviceId: string, templateId: string, publicKey: string, params: EmailParams)
    | Alerted(alert: Alert)

  /** The answer to `fetch("/api/recaptcha-enterprise")`: a network error, or a status and a body that may not be JSON. */
  datatype VerifyOutcome = FetchFailed | Responded(status: int, body: Option<Json>)

  /**
   * Everything the handler learns from outside: the build-time configuration,
   * the clock readings (milliseconds since the wait began) and script presence
   * seen by each test of the readiness loop, the token `execute` resolves to
   * (`None` when it rejects), the verify answer, and whether `emailjs.send` resolved.
   */
  datatype Outcomes = Outcomes(
    env: Recaptcha.Env,
    clock: seq<int>,
    present: seq<bool>,
    token: Option<string>,
    verify: VerifyOutcome,
    sendOk: bool)

  /** The clock is eventually past the timeout, so the readiness loop stops within the observations. */
  predicate ValidPolls(clock: seq<int>, present: seq<bool>, timeoutMs: int)
  {
    |clock| == |present| && |clock| > 0 && clock[|clock| - 1] >= timeoutMs
  }

  /** Whether the readiness loop returns (rather than throws): the script shows up before the clock passes the timeout. */
  function BecameReady(clock: seq<int>, present: seq<bool>, timeoutMs: int): bool
    requires |clock| == |present|
    decreases |clock|
  {
    if |clock| == 0 || clock[0] >= timeoutMs then false
    else if present[0] then true
    else BecameReady(clock[1..], present[1..], timeoutMs)
  }

  /** Some test finds the script present while every test up to it is still within the timeout. */
  ghost predicate ReadyAt(clock: seq<int>, present: seq<bool>, timeoutMs: int, i: int)
    requires |clock| == |present|
  {
    0 <= i < |clock| && present[i] && forall j :: 0 <= j <= i ==> clock[j] < timeoutMs
  }

  lemma {:induction false} BecameReadyMeans(clock: seq<int>, present: seq<bool>, timeoutMs: int)
    requires |clock| == |present|
    ensures BecameReady(clock, present, timeoutMs) <==> exists i :: ReadyAt(clock, present, timeoutMs, i)
    decreases |clock|
  {
    if |clock| > 0 && clock[0] < timeoutMs {
      if present[0] {
        assert ReadyAt(clock, present, timeoutMs, 0);
      } else {
        var tc, tp := clock[1..], present[1..];
        BecameReadyMeans(tc, tp, timeoutMs);
        if exists i :: ReadyAt(clock, present, timeoutMs, i) {
          var i :| ReadyAt(clock, present, timeoutMs, i);
          assert ReadyAt(tc, tp, timeoutMs, i - 1);
        }
        if exists i :: ReadyAt(tc, tp, timeoutMs, i) {
          var i :| ReadyAt(tc, tp, timeoutMs, i);
          assert ReadyAt(clock, present, timeoutMs, i + 1) by {
            forall j | 0 <= j <= i + 1 ensures clock[j] < timeoutMs {
              if j > 0 { assert clock[j] == tc[j - 1]; }
            }
          }
        }
      }
    } else if |clock| > 0 {
      assert forall i :: !ReadyAt(clock, present, timeoutMs, i);
    }
  }

  /** `waitForRecaptcha`: poll until the script is present, giving up once the clock passes the timeout. */
  method WaitForRecaptcha(timeoutMs: int, clock: seq<int>, present: seq<bool>) returns (ready: bool)
    requires ValidPolls(clock, present, timeoutMs)
    ensures ready == BecameReady(clock, present, timeoutMs)
  {
    var i := 0;
    while clock[i] < timeoutMs
      invariant 0 <= i < |clock|
      invariant BecameReady(clock, present, timeoutMs) == BecameReady(clock[i..], present[i..], timeoutMs)
      decreases |clock| - i
    {
      if present[i] {
        return true;
      }
      assert clock[i..][1..] == clock[i + 1..] && present[i..][1..] == present[i + 1..];
      i := i + 1;
    }
    return false;
  }

  predicate EmailConfigured(env: Recaptcha.Env)
  {
    Recaptcha.IsSet(env, ServiceIdName) && Recaptcha.IsSet(env, TemplateIdName) && Recaptcha.IsSet(env, PublicKeyName)
  }

  /** The route accepted the token: a 2xx answer whose JSON body is not null and has a truthy `ok`. */
  predicate ServerAccepted(v: VerifyOutcome)
  {
    v.Responded? && Recaptcha.IsSuccessStatus(v.status) && v.body.Some? && !v.body.value.Null? &&
    Member(v.body.value, "ok").Some? && Truthy(Member(v.body.value, "ok").value)
  }

  /** The handler gets as far as asking for a token. */
  predicate ReachesToken(o: Outcomes)
    requires |o.clock| == |o.present|
  {
    Recaptcha.IsSet(o.env, Recaptcha.SiteKeyName) && BecameReady(o.clock, o.present, ReadyTimeoutMs)
  }

  /** The handler gets as far as calling EmailJS. */
  predicate ReachesSend(o: Outcomes)
    requires |o.clock| == |o.present|
  {
    ReachesToken(o) && o.token.Some? && ServerAccepted(o.verify) && EmailConfigured(o.env)
  }

  /** The submission went through: the email was sent. */
  predicate Delivered(o: Outcomes)
    requires |o.clock| == |o.present|
  {
    ReachesSend(o) && o.sendOk
  }

  /** The events after the verify request went out. */
  function AfterVerify(o: Outcomes, form: FormData): seq<Event>
  {
    match o.verify
    case FetchFailed => [Alerted(GenericError)]
    case Responded(status, body) =>
      if !Recaptcha.IsSuccessStatus(status) then
        // When the body is not JSON, the catch handler reads the text of a body already consumed and rejects.
        if body.Some? then [Alerted(Text(FailedText))] else [Alerted(GenericError)]
      else if body.None? || body.value.Null? then [Alerted(GenericError)]
      else if !ServerAccepted(o.verify) then [Alerted(Text(RejectedText))]
      else if !EmailConfigured(o.env) then [Alerted(GenericError)]
      else
        [EmailSendAttempted(o.env[ServiceIdName], o.env[TemplateIdName], o.env[PublicKeyName], ParamsOf(form))] +
        [Alerted(if o.sendOk then Localized(SuccessKey) else GenericError)]
  }

  /** The events of one submission of `form`. */
  function SubmitEvents(o: Outcomes, form: FormData): seq<Event>
    requires |o.clock| == |o.present|
  {
    if !ReachesToken(o) then [Alerted(GenericError)]
    else
      [TokenRequested(o.env[Recaptcha.SiteKeyName], SubmitAction)] +
      if o.token.None? then [Alerted(Text(NotReadyText))]
      else [VerifyRequested(o.token.value, SubmitAction)] + AfterVerify(o, form)
  }

  /** `disabled={loading || !formData.name || !formData.email || !captchaReady}`. */
  function SubmitDisabled(loading: bool, form: FormData, captchaReady: bool): (disabled: bool)
    // A submission in flight keeps the button disabled, whatever the form holds.
    ensures loading ==> disabled
    // An enabled button means the script is ready and name and email are filled in.
    ensures !disabled ==> captchaReady && form.name != "" && form.email != ""
  {
    loading || form.name == "" || form.email == "" || !captchaReady
  }

  /** The message plays no part in whether the button is enabled. */
  lemma SubmitDisabledIgnoresMessage(loading: bool, form: FormData, captchaReady: bool, message: string)
    ensures SubmitDisabled(loading, form.(message := message), captchaReady) == SubmitDisabled(loading, form, captchaReady)
  {
  }

  /** Every submission shows exactly one alert, as its last event. */
  lemma SubmitEndsWithOneAlert(o: Outcomes, form: FormData)
    requires |o.clock| == |o.present|
    ensures var evs := SubmitEvents(o, form);
            |evs| > 0 && evs[|evs| - 1].Alerted? && forall i :: 0 <= i < |evs| - 1 ==> !evs[i].Alerted?
  {
  }

  /**
   * An email is attempted only right after a verify request carrying the
   * obtained token and the action "contact_submit", only when the route
   * accepted that token and EmailJS is fully configured, and it carries the form.
   */
  lemma EmailOnlyAfterVerifiedToken(o: Outcomes, form: FormData, j: nat)
    requires |o.clock| == |o.present|
    requires j < |SubmitEvents(o, form)| && SubmitEvents(o, form)[j].EmailSendAttempted?
    ensures j == 2
    ensures o.token.Some? && SubmitEvents(o, form)[j - 1] == VerifyRequested(o.token.value, SubmitAction)
    ensures ServerAccepted(o.verify) && EmailConfigured(o.env)
    ensures SubmitEvents(o, form)[j].params ==
              EmailParams(ToName, SiteName, form.name, form.email, "", form.message, LinkedIn, form.email)
  {
  }

  /** An email is attempted exactly when every step before it succeeded. */
  lemma EmailAttemptedIff(o: Outcomes, form: FormData)
    requires |o.clock| == |o.present|
    ensures (exists j :: 0 <= j < |SubmitEvents(o, form)| && SubmitEvents(o, form)[j].EmailSendAttempted?) <==> ReachesSend(o)
  {
    var evs := SubmitEvents(o, form);
    if ReachesSend(o) {
      assert evs[2].EmailSendAttempted?;
    } else {
      forall j | 0 <= j < |evs| ensures !evs[j].EmailSendAttempted? {
      }
    }
  }

  /** Every verify request carries the obtained token and the action "contact_submit", and none is made without a token. */
  lemma VerifyRequestCarriesToken(o: Outcomes, form: FormData)
    requires |o.clock| == |o.present|
    ensures forall i :: 0 <= i < |SubmitEvents(o, form)| && SubmitEvents(o, form)[i].VerifyRequested? ==>
              o.token == Some(SubmitEvents(o, form)[i].token) && SubmitEvents(o, form)[i].action == SubmitAction
    ensures (exists i :: 0 <= i < |SubmitEvents(o, form)| && SubmitEvents(o, form)[i].VerifyRequested?) <==>
              ReachesToken(o) && o.token.Some?
  {
    var evs := SubmitEvents(o, form);
    if ReachesToken(o) && o.token.Some? {
      assert evs[1].VerifyRequested?;
    }
  }

  /** A missing site key or a readiness timeout shows the generic error and calls nothing. */
  lemma NoSiteKeyOrTimeout(o: Outcomes, form: FormData)
    requires |o.clock| == |o.present|
    requires !Recaptcha.IsSet(o.env, Recaptcha.SiteKeyName) || !BecameReady(o.clock, o.present, ReadyTimeoutMs)
    ensures SubmitEvents(o, form) == [Alerted(GenericError)]
  {
  }

  /** Without a token the route is never asked: "Captcha not ready" follows the token request. */
  lemma TokenFailure(o: Outcomes, form: FormData)
    requires |o.clock| == |o.present|
    requires ReachesToken(o) && o.token.None?
    ensures SubmitEvents(o, form) ==
              [TokenRequested(o.env[Recaptcha.SiteKeyName], SubmitAction), Alerted(Text(NotReadyText))]
  {
  }

  /** A non-2xx JSON answer shows "Captcha failed", a 2xx one with a falsy `ok` "Captcha rejected"; neither sends. */
  lemma VerifyRefusals(o: Outcomes, form: FormData)
    requires |o.clock| == |o.present|
    requires ReachesToken(o) && o.token.Some?
    ensures var evs := SubmitEvents(o, form);
            (o.verify.Responded? && !Recaptcha.IsSuccessStatus(o.verify.status) && o.verify.body.Some? ==>
               evs == [evs[0], VerifyRequested(o.token.value, SubmitAction), Alerted(Text(FailedText))]) &&
            (o.verify.Responded? && Recaptcha.IsSuccessStatus(o.verify.status) && o.verify.body.Some? &&
             !o.verify.body.value.Null? && !ServerAccepted(o.verify) ==>
               evs == [evs[0], VerifyRequested(o.token.value, SubmitAction), Alerted(Text(RejectedText))])
  {
  }

  /** An accepted token with incomplete EmailJS settings throws before sending: only the generic error is shown. */
  lemma AcceptedButUnconfigured(o: Outcomes, form: FormData)
    requires |o.clock| == |o.present|
    requires ReachesToken(o) && o.token.Some? && ServerAccepted(o.verify) && !EmailConfigured(o.env)
    ensures SubmitEvents(o, form) == [TokenRequested(o.env[Recaptcha.SiteKeyName], SubmitAction),
                                      VerifyRequested(o.token.value, SubmitAction), Alerted(GenericError)]
  {
  }

  /** A rejected `emailjs.send` lands in the `catch`: the attempt is followed by the generic error alone. */
  lemma SendFailure(o: Outcomes, form: FormData)
    requires |o.clock| == |o.present|
    requires ReachesSend(o) && !o.sendOk
    ensures var evs := SubmitEvents(o, form);
            |evs| == 4 && evs[2].EmailSendAttempted? && evs[3] == Alerted(GenericError)
  {
  }

  /**
   * The paths on which something throws inside the `try` block: no site key or
   * a readiness timeout, a failed `fetch`, a non-JSON answer (2xx or not), a
   * `null` 2xx answer, incomplete EmailJS settings after an accepted token, and
   * a rejected send.
   */
  predicate Threw(o: Outcomes)
    requires |o.clock| == |o.present|
  {
    !ReachesToken(o) ||
    (o.token.Some? &&
     (o.verify.FetchFailed? ||
      o.verify.body.None? ||
      (Recaptcha.IsSuccessStatus(o.verify.status) && o.verify.body.value.Null?) ||
      (ServerAccepted(o.verify) && !EmailConfigured(o.env)) ||
      (ReachesSend(o) && !o.sendOk)))
  }

  /** Any exception at any stage ends the submission with the generic error alert, and nothing else does. */
  lemma GenericErrorIffThrew(o: Outcomes, form: FormData)
    requires |o.clock| == |o.present|
    ensures var evs := SubmitEvents(o, form);
            evs[|evs| - 1] == Alerted(GenericError) <==> Threw(o)
  {
  }

  /** The success alert is shown exactly when the email went out. */
  lemma DeliveredIffSuccessAlert(o: Outcomes, form: FormData)
    requires |o.clock| == |o.present|
    ensures var evs := SubmitEvents(o, form);
            Delivered(o) <==> evs[|evs| - 1] == Alerted(Localized(SuccessKey))
  {
  }

  /** `JSON.stringify({ token, action })`, as the route parses it. */
  function VerifyRequestBody(token: string): Json
  {
    Obj(map["token" := Str(token), "action" := Str(SubmitAction)])
  }

  /** A reply whose `ok` field agrees with its 2xx status gates the email on that field, and is never "rejected". */
  lemma ConsistentReplyGatesEmail(o: Outcomes, form: FormData, reply: Recaptcha.Reply, formatNumber: real -> string)
    requires |o.clock| == |o.present|
    requires ReachesToken(o) && o.token.Some?
    requires o.verify == Responded(reply.status, Some(Recaptcha.ReplyJson(reply.body, formatNumber)))
    requires reply.body.Ok() <==> Recaptcha.IsSuccessStatus(reply.status)
    ensures ReachesSend(o) <==> reply.body.Ok() && EmailConfigured(o.env)
    ensures Alerted(Text(RejectedText)) !in SubmitEvents(o, form)
  {
    assert ServerAccepted(o.verify) <==> reply.body.Ok();
  }

  /**
   * Against the site's own route: when the client receives the route's reply
   * to the verify request for its token, an email is attempted exactly when
   * that reply was a passing verdict (and EmailJS is configured), and "Captcha
   * rejected" is never shown, because the route answers every refusal with a
   * non-2xx status.
   */
  lemma ServerVerdictGatesEmail(o: Outcomes, form: FormData, env: Recaptcha.Env, upstream: Recaptcha.Upstream,
                                formatNumber: real -> string)
    requires |o.clock| == |o.present|
    requires ReachesToken(o) && o.token.Some?
    requires var reply := Recaptcha.PostReply(Recaptcha.Body(VerifyRequestBody(o.token.value)), env, upstream).0;
             o.verify == Responded(reply.status, Some(Recaptcha.ReplyJson(reply.body, formatNumber)))
    ensures ReachesSend(o) <==>
              Recaptcha.PostReply(Recaptcha.Body(VerifyRequestBody(o.token.value)), env, upstream).0.body.Ok() &&
              EmailConfigured(o.env)
    ensures Alerted(Text(RejectedText)) !in SubmitEvents(o, form)
  {
    var req := Recaptcha.Body(VerifyRequestBody(o.token.value));
    Recaptcha.OkIffSuccessStatus(req, env, upstream);
    ConsistentReplyGatesEmail(o, form, Recaptcha.PostReply(req, env, upstream).0, formatNumber);
  }

  /** The form's state: the `useState` hooks of the component, and the events it caused. */
  class ContactForm {
    var loading: bool
    var formData: FormData
    var captchaReady: bool
    var events: seq<Event>
    /** The value of `loading` when each event happened, kept in step with `events`. */
    ghost var loadingLog: seq<bool>

    ghost predicate Valid()
      reads this
    {
      |loadingLog| == |events|
    }

    constructor ()
      ensures !loading && formData == EmptyForm && !captchaReady && events == [] && loadingLog == []
      ensures Valid()
    {
      loading := false;
      formData := EmptyForm;
      captchaReady := false;
      events := [];
      loadingLog := [];
    }

    /** Every event from position `start` on happened while `loading` was set. */
    ghost predicate LoggedWhileLoading(start: nat)
      reads this
    {
      start <= |loadingLog| && forall i :: start <= i < |loadingLog| ==> loadingLog[i]
    }

    /** `markReady`: the readiness flag follows whether the script is present. */
    method MarkReady(scriptPresent: bool)
      modifies this
      ensures captchaReady == scriptPresent
      ensures loading == old(loading) && formData == old(formData) && events == old(events)
      ensures loadingLog == old(loadingLog)
    {
      captchaReady := scriptPresent;
    }

    /**
     * The rest of the `try` block once a token is at hand: the verify request,
     * the checks on its answer, the EmailJS send and the success alert.
     * `thrown` tells whether it left by an exception, which the caller's
     * `catch` turns into the generic alert.
     */
    method VerifyAndSend(o: Outcomes, ghost start: nat) returns (thrown: bool)
      requires loading && Valid() && LoggedWhileLoading(start) && o.token.Some?
      modifies this
      ensures Valid() && LoggedWhileLoading(start) && (thrown ==> loading)
      ensures |old(loadingLog)| <= |loadingLog| && loadingLog[..|old(loadingLog)|] == old(loadingLog)
      ensures events + (if thrown then [Alerted(GenericError)] else []) ==
              old(events) + [VerifyRequested(o.token.value, SubmitAction)] + AfterVerify(o, old(formData))
      ensures formData == if ServerAccepted(o.verify) && EmailConfigured(o.env) && o.sendOk then EmptyForm else old(formData)
      // A refusal alert clears `loading` on its way out; a delivery leaves it to the `finally`.
      ensures !thrown ==> (loading <==> ServerAccepted(o.verify) && EmailConfigured(o.env) && o.sendOk)
      ensures captchaReady == old(captchaReady)
    {
      thrown := false;
      var token := o.token.value;
      events, loadingLog := events + [VerifyRequested(token, SubmitAction)], loadingLog + [loading];
      if o.verify.FetchFailed? {
        thrown := true;
        return;
      }
      if !Recaptcha.IsSuccessStatus(o.verify.status) {
        if o.verify.body.None? {
          thrown := true;
          return;
        }
        events, loadingLog := events + [Alerted(Text(FailedText))], loadingLog + [loading];
        loading := false;
        return;
      }
      if o.verify.body.None? || o.verify.body.value.Null? {
        thrown := true;
        return;
      }
      var verify := o.verify.body.value;
      var ok := Member(verify, "ok");
      if ok.None? || !Truthy(ok.value) {
        events, loadingLog := events + [Alerted(Text(RejectedText))], loadingLog + [loading];
        loading := false;
        return;
      }
      if !EmailConfigured(o.env) {
        thrown := true;
        return;
      }
      events, loadingLog := events + [EmailSendAttempted(o.env[ServiceIdName], o.env[TemplateIdName], o.env[PublicKeyName],
                                             ParamsOf(formData))], loadingLog + [loading];
      if !o.sendOk {
        thrown := true;
        return;
      }
      events, loadingLog := events + [Alerted(Localized(SuccessKey))], loadingLog + [loading];
      formData := EmptyForm;
    }

    /**
     * The `try` block of `handleSubmit`, from the site-key check to the
     * token request; it hands over to `VerifyAndSend` once a token is at
     * hand. A `throw` sets `thrown` and returns, and so does an early `return`
     * without setting it. The failed paths end exactly one event short of
     * `SubmitEvents`: the generic alert the `catch` adds.
     */
    method Attempt(o: Outcomes, ghost start: nat) returns (thrown: bool)
      requires ValidPolls(o.clock, o.present, ReadyTimeoutMs)
      requires loading && Valid() && LoggedWhileLoading(start)
      modifies this
      ensures Valid() && LoggedWhileLoading(start) && (thrown ==> loading)
      ensures |old(loadingLog)| <= |loadingLog| && loadingLog[..|old(loadingLog)|] == old(loadingLog)
      ensures events + (if thrown then [Alerted(GenericError)] else []) == old(events) + SubmitEvents(o, old(formData))
      ensures formData == if Delivered(o) then EmptyForm else old(formData)
      ensures !thrown ==> (loading <==> Delivered(o))
      ensures captchaReady == old(captchaReady)
    {
      if !Recaptcha.IsSet(o.env, Recaptcha.SiteKeyName) {
        return true;
      }
      var siteKey := o.env[Recaptcha.SiteKeyName];
      var ready := WaitForRecaptcha(ReadyTimeoutMs, o.clock, o.present);
      if !ready {
        return true;
      }
      events, loadingLog := events + [TokenRequested(siteKey, SubmitAction)], loadingLog + [loading];
      if o.token.None? {
        events, loadingLog := events + [Alerted(Text(NotReadyText))], loadingLog + [loading];
        loading := false;
        return false;
      }
      assert SubmitEvents(o, formData) ==
             [TokenRequested(siteKey, SubmitAction), VerifyRequested(o.token.value, SubmitAction)] + AfterVerify(o, formData);
      thrown := VerifyAndSend(o, start);
    }

    /**
     * `handleSubmit`: sets `loading`, runs the `try` block (`Attempt`), shows
     * the generic error when it threw (the `catch`), and clears `loading`
     * (the `finally`).
     */
    method HandleSubmit(o: Outcomes)
      requires ValidPolls(o.clock, o.present, ReadyTimeoutMs)
      requires Valid()
      modifies this
      ensures Valid()
      ensures !loading
      ensures events == old(events) + SubmitEvents(o, old(formData))
      ensures formData == if Delivered(o) then EmptyForm else old(formData)
      ensures captchaReady == old(captchaReady)
      ensures Delivered(o) ==> SubmitDisabled(loading, formData, captchaReady)
      // Every call and alert of this submission happens while `loading` is set, so
      // while the button is disabled: a second submission cannot start meanwhile.
      ensures loadingLog[..|old(events)|] == old(loadingLog)
      ensures LoggedWhileLoading(|old(events)|)
    {
      loading := true;
      var thrown := Attempt(o, |events|);
      if thrown {
        events, loadingLog := events + [Alerted(GenericError)], loadingLog + [loading];
      }
      loading := false;
    }
  }
}
